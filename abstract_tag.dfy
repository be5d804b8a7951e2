/**
 * `AbstractTag`: the immutable key of a `WritableConfig`, identified by its
 * name and the class of its values. Its `equals` compares exactly these two
 * fields, so Dafny's structural equality on `Tag` is `equals`, and a
 * `map<Tag, _>` behaves like the `HashMap` keyed by tags.
 */
module AbstractTag {
  import opened JavaLang

  datatype Tag = Tag(name: string, valueClass: JClass) {

    /** `getName()` */
    function GetName(): string { name }

    /** `getValueClass()` */
    function GetValueClass(): JClass { valueClass }

    /**
     * `hashCode()`: `result = 31 * result + h` folded over the name's hash and
     * the value class's identity hash, starting from 1, in `int` arithmetic.
     * `Class` does not override `hashCode`, so `identityHash` gives it.
     */
    function HashCode(identityHash: JClass -> Int32): (h: int)
      ensures IsInt32(h)
      ensures h == ToInt32(31 * (31 + StringHashCode(name)) + identityHash(valueClass))
    {
      var prime := 31;
      var initial := 1;
      var withName := ToInt32(prime * initial + StringHashCode(name));
      ToInt32MulAdd(prime, 31 + StringHashCode(name), identityHash(valueClass));
      ToInt32(prime * withName + identityHash(valueClass))
    }

    /** `equals(o)`: `o` is a tag with an equal name and the same value class. */
    predicate Equals(o: Option<Object>): (b: bool)
      ensures b <==> o.Some? && o.value.TagObject? && o.value.tag == this
    {
      match o
      case Some(TagObject(t)) => t.GetName() == GetName() && t.GetValueClass() == GetValueClass()
      case _ => false
    }
  }

  /**
   * The argument of `equals`. A tag object is only ever passed as `TagObject`,
   * so `OtherObject` stands for the objects that fail `instanceof AbstractTag`.
   */
  datatype Object = TagObject(tag: Tag) | OtherObject(value: Value)

  /** The constructor `AbstractTag(name, valueClass)`: both arguments must be non-null. */
  function NewTag(name: Option<string>, valueClass: Option<JClass>): (r: Result<Tag>)
    ensures r.Ok? <==> name.Some? && valueClass.Some?
    ensures r.Err? ==> r.error == NullPointerException
    ensures r.Ok? ==> r.value.GetName() == name.value && r.value.GetValueClass() == valueClass.value
  {
    match (name, valueClass)
    case (Some(n), Some(c)) => Ok(Tag(n, c))
    case _ => Err(NullPointerException)
  }

  /** Two tags are equal exactly when they are the same `Tag` value. */
  lemma EqualsIsValueEquality(t: Tag, u: Tag)
    ensures t.Equals(Some(TagObject(u))) <==> t == u
  {
  }

  /** `equals` is false for `null` and for any object that is not a tag. */
  lemma EqualsNonTag(t: Tag, v: Value)
    ensures !t.Equals(None) && !t.Equals(Some(OtherObject(v)))
  {
  }

  lemma EqualsReflexiveSymmetric(t: Tag, u: Tag)
    ensures t.Equals(Some(TagObject(t)))
    ensures t.Equals(Some(TagObject(u))) <==> u.Equals(Some(TagObject(t)))
  {
  }

  /** The `equals`/`hashCode` contract: equal tags have equal hash codes. */
  lemma EqualTagsEqualHashes(t: Tag, u: Tag, identityHash: JClass -> Int32)
    requires t.Equals(Some(TagObject(u)))
    ensures t.HashCode(identityHash) == u.HashCode(identityHash)
  {
  }

  /**
   * The `checkcast` of a subclass's `serializeValueGeneric` bridge, reached
   * through the unchecked cast `(T) value` in `serializeValue`: `null` passes,
   * any other object must be an instance of `cls`.
   */
  function CheckCast(cls: JClass, value: Option<Value>): Result<()> {
    if value.Some? && value.value.Class() != cls then Err(ClassCastException) else Ok(())
  }
}
