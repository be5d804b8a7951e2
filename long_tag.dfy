/**
 * `LongTag`: a tag whose values are `Long`s, written and read as decimal
 * text (`"" + value` and `Long.parseLong`, with a `NumberFormatException`
 * turned into `null`).
 */
module LongTag {
  import opened JavaLang
  import opened JavaNumbers
  import AbstractTag

  /** `new LongTag(name)`: `super(name, Long.class)`. */
  function New(name: Option<string>): (r: Result<AbstractTag.Tag>)
    ensures r.Ok? <==> name.Some?
    ensures r.Err? ==> r.error == NullPointerException
    ensures r.Ok? ==> r.value == AbstractTag.Tag(name.value, LongClass)
  {
    AbstractTag.NewTag(name, Some(LongClass))
  }

  /**
   * `serializeValueGeneric(value)`: `"null"` for `null`, otherwise the
   * canonical decimal text of the value (a `-` for negatives, no leading zeros).
   */
  function SerializeValueGeneric(value: Option<int>): (s: string)
    requires value.Some? ==> IsInt64(value.value)
    ensures value.None? ==> s == "null"
    ensures value.Some? ==> IsCanonicalDecimal(s) && IsDecimalLiteral(s) && LiteralValue(s) == value.value
    ensures value.Some? ==> (s[0] == '-' <==> value.value < 0)
  {
    match value
    case None => "null"
    case Some(v) => DecimalText(v)
  }

  /**
   * `deserializeValue(s)`: the value of `s` when it is an optional sign and
   * one or more digits denoting a number in 64-bit range, `null` otherwise.
   * A `null` text makes the parser throw `NumberFormatException` too.
   */
  function DeserializeValue(s: Option<string>): (r: Option<int>)
    ensures s.None? ==> r.None?
    ensures s.Some? ==> (r.Some? <==> IsDecimalLiteral(s.value) && IsInt64(LiteralValue(s.value)))
    ensures r.Some? ==> r.value == LiteralValue(s.value)
  {
    match s
    case None => None
    case Some(text) => ParseLong(text)
  }

  /**
   * `serializeValue(value)` on a `LongTag`: the unchecked cast lets any
   * value reach the bridge method, which throws unless it is `null` or a `Long`.
   */
  function SerializeValue(value: Option<Value>): (r: Result<string>)
    ensures r.Err? <==> value.Some? && value.value.Class() != LongClass
    ensures r.Err? ==> r.error == ClassCastException
    ensures value.None? ==> r == Ok("null")
    ensures value.Some? && value.value.JLong? ==> r == Ok(DecimalText(value.value.l))
  {
    match AbstractTag.CheckCast(LongClass, value)
    case Err(e) => Err(e)
    case Ok(_) =>
      match value
      case None => Ok(SerializeValueGeneric(None))
      case Some(v) => Ok(SerializeValueGeneric(Some(v.l)))
  }

  /** Every 64-bit value, and `null`, survives serialising and deserialising. */
  lemma RoundTrip(value: Option<int>)
    requires value.Some? ==> IsInt64(value.value)
    ensures DeserializeValue(Some(SerializeValueGeneric(value))) == value
  {
    match value
    case None => NullTextIsNotALiteral();
    case Some(v) => ParseDecimalText(v, LONG_MIN, LONG_MAX);
  }

  /** Deserialising canonical text and serialising the result gives the text back. */
  lemma CanonicalTextRoundTrip(s: string)
    requires IsCanonicalDecimal(s) && DeserializeValue(Some(s)).Some?
    ensures SerializeValueGeneric(DeserializeValue(Some(s))) == s
  {
    CanonicalDecimalUnique(s);
  }
}
