/**
 * The expectations of `AbstractTagTest`, stated for every identity hash the
 * JVM may give to class objects. `BooleanTag` is `new BooleanTag(name)`,
 * which passes `Boolean.class` to the `AbstractTag` constructor.
 */
module AbstractTagTest {
  import opened JavaLang
  import opened AbstractTag
  import IntegerTag

  function BooleanTag(name: string): Tag {
    Tag(name, BooleanClass)
  }

  lemma StringHashOfB1B2()
    ensures StringHashCode("b1") == 31 * 98 + 49
    ensures StringHashCode("b2") == 31 * 98 + 50
  {
    assert "b1"[..1] == "b" && "b2"[..1] == "b";
    assert "b"[..0] == [];
  }

  /**
   * `testEquals`, `testNotEqualsDifferentNamesSameTypes`, `testNotEqualsSameNamesDifferentTypes`;
   * `testHashcodeEquals` then follows from `EqualTagsEqualHashes`.
   */
  lemma TagEqualities()
    ensures BooleanTag("b1").Equals(Some(TagObject(BooleanTag("b1"))))
    ensures !BooleanTag("b1").Equals(Some(TagObject(BooleanTag("b2"))))
    ensures IntegerTag.New(Some("b1")).Ok?
    ensures !BooleanTag("b1").Equals(Some(TagObject(IntegerTag.New(Some("b1")).value)))
  {
    assert "b1" != "b2" by { assert "b1"[1] != "b2"[1]; }
  }

  /**
   * `testHashcodeNotEqualsDifferentNamesSameTypes`: the names' hashes differ
   * by 1, so the tags' hashes differ by 31 modulo 2^32, whatever the class hash.
   */
  lemma HashcodeNotEqualsDifferentNames(identityHash: JClass -> Int32)
    ensures BooleanTag("b2").HashCode(identityHash) != BooleanTag("b1").HashCode(identityHash)
  {
    StringHashOfB1B2();
    var c := identityHash(BooleanClass);
    var x := 31 * (31 + StringHashCode("b2")) + c;
    var y := 31 * (31 + StringHashCode("b1")) + c;
    assert x - y == 31;
    ToInt32Congruence(x, y);
  }

  /**
   * `testHashcodeNotEqualsSameNamesDifferentTypes` holds exactly when the JVM
   * gives `Boolean.class` and `Integer.class` different identity hashes, which
   * Java does not guarantee.
   */
  lemma HashcodeDifferentTypes(identityHash: JClass -> Int32)
    ensures IntegerTag.New(Some("b1")).Ok?
    ensures IntegerTag.New(Some("b1")).value.HashCode(identityHash) != BooleanTag("b1").HashCode(identityHash)
        <==> identityHash(IntegerClass) != identityHash(BooleanClass)
  {
    var n := 31 * (31 + StringHashCode("b1"));
    var x := n + identityHash(IntegerClass);
    var y := n + identityHash(BooleanClass);
    ToInt32Congruence(x, y);
    ToInt32Congruence(identityHash(IntegerClass), identityHash(BooleanClass));
    assert x - y == identityHash(IntegerClass) - identityHash(BooleanClass);
  }
}
