/**
 * `ShortTag`: a tag whose values are `Short`s, written and read as decimal
 * text (`"" + value` and `Short.parseShort`, with a `NumberFormatException`
 * turned into `null`).
 */
module ShortTag {
  import opened JavaLang
  import opened JavaNumbers
  import AbstractTag

  /** `new ShortTag(name)`: `super(name, Short.class)`. */
  function New(name: Option<string>): (r: Result<AbstractTag.Tag>)
    ensures r.Ok? <==> name.Some?
    ensures r.Err? ==> r.error == NullPointerException
    ensures r.Ok? ==> r.value == AbstractTag.Tag(name.value, ShortClass)
  {
    AbstractTag.NewTag(name, Some(ShortClass))
  }

  /**
   * `serializeValueGeneric(value)`: `"null"` for `null`, otherwise the
   * canonical decimal text of the value (a `-` for negatives, no leading zeros).
   */
  function SerializeValueGeneric(value: Option<int>): (s: string)
    requires value.Some? ==> IsInt16(value.value)
    ensures value.None? ==> s == "null"
    ensures value.Some? ==> IsCanonicalDecimal(s) && IsDecimalLiteral(s) && LiteralValue(s) == value.value
    ensures value.Some? ==> (s[0] == '-' <==> value.value < 0)
  {
    match value
    case None => "null"
    case Some(v) => DecimalText(v)
  }

  /**
   * `deserializeValue(s)`: the value of `s` when it is an optional sign and
   * one or more digits denoting a number in 16-bit range, `null` otherwise.
   * A `null` text makes the parser throw `NumberFormatException` too.
   */
  function DeserializeValue(s: Option<string>): (r: Option<int>)
    ensures s.None? ==> r.None?
    ensures s.Some? ==> (r.Some? <==> IsDecimalLiteral(s.value) && IsInt16(LiteralValue(s.value)))
    ensures r.Some? ==> r.value == LiteralValue(s.value)
  {
    match s
    case None => None
    case Some(text) => ParseShort(text)
  }

  /**
   * `serializeValue(value)` on a `ShortTag`: the unchecked cast lets any
   * value reach the bridge method, which throws unless it is `null` or a `Short`.
   */
  function SerializeValue(value: Option<Value>): (r: Result<string>)
    ensures r.Err? <==> value.Some? && value.value.Class() != ShortClass
    ensures r.Err? ==> r.error == ClassCastException
    ensures value.None? ==> r == Ok("null")
    ensures value.Some? && value.value.JShort? ==> r == Ok(DecimalText(value.value.s))
  {
    match AbstractTag.CheckCast(ShortClass, value)
    case Err(e) => Err(e)
    case Ok(_) =>
      match value
      case None => Ok(SerializeValueGeneric(None))
      case Some(v) => Ok(SerializeValueGeneric(Some(v.s)))
  }

  /** Every 16-bit value, and `null`, survives serialising and deserialising. */
  lemma RoundTrip(value: Option<int>)
    requires value.Some? ==> IsInt16(value.value)
    ensures DeserializeValue(Some(SerializeValueGeneric(value))) == value
  {
    match value
    case None => NullTextIsNotALiteral();
    case Some(v) => ParseDecimalText(v, SHORT_MIN, SHORT_MAX);
  }

  /** Deserialising canonical text and serialising the result gives the text back. */
  lemma CanonicalTextRoundTrip(s: string)
    requires IsCanonicalDecimal(s) && DeserializeValue(Some(s)).Some?
    ensures SerializeValueGeneric(DeserializeValue(Some(s))) == s
  {
    CanonicalDecimalUnique(s);
  }
}
