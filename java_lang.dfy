/**
 * The small part of the Java runtime that the configuration layer relies on:
 * nullable results, the exceptions it throws, class objects, the runtime
 * objects stored in configuration maps, and `int` arithmetic with
 * wrap-around (used by `hashCode`).
 */
module JavaLang {

  /** A nullable Java value: `None` stands for `null`. */
  datatype Option<+T> = None | Some(value: T)

  /** The unchecked exceptions the modelled code can throw. */
  datatype JavaException =
    | NullPointerException
    | ClassCastException
    | IllegalArgumentException
    | IllegalStateException

  /** What a Java call does: return normally (with a value, `()` for `void`) or throw. */
  datatype Result<+T> = Ok(value: T) | Err(error: JavaException)

  /** A `java.lang.Class` object, identified by its fully qualified name. */
  datatype JClass = JClass(name: string)

  const BooleanClass := JClass("java.lang.Boolean")
  const ShortClass := JClass("java.lang.Short")
  const IntegerClass := JClass("java.lang.Integer")
  const LongClass := JClass("java.lang.Long")
  const HashMapClass := JClass("java.util.HashMap")

  /** The boxed classes whose instances the model represents by their contents. */
  predicate IsBoxedClass(c: JClass) {
    c == BooleanClass || c == ShortClass || c == IntegerClass || c == LongClass
  }

  /**
   * The Java library classes this model names (the boxed classes and `HashMap`);
   * it lists only those, not the whole library. No application class, such as a
   * config key's class, is one of them.
   */
  predicate IsModelledLibraryClass(c: JClass) {
    IsBoxedClass(c) || c == HashMapClass
  }

  /** The two static default-value maps, the only `HashMap`s the model stores as values. */
  datatype StaticMap = WritableConfigDefaults | DefaultGlobalConfigDefaults

  /**
   * A non-null Java object as stored in a configuration map. Boxed numbers and
   * booleans carry their contents; a `StaticMapRef` is a reference to one of the
   * static default-value maps; any other object is an `Instance` of its class.
   */
  datatype RawValue =
    | JBoolean(b: bool)
    | JShort(s: int)
    | JInteger(i: int)
    | JLong(l: int)
    | StaticMapRef(owner: StaticMap)
    | Instance(cls: JClass, id: nat)
  {
    /** `getClass()` */
    function Class(): JClass {
      match this
      case JBoolean(_) => BooleanClass
      case JShort(_) => ShortClass
      case JInteger(_) => IntegerClass
      case JLong(_) => LongClass
      case StaticMapRef(_) => HashMapClass
      case Instance(c, _) => c
    }

    /** Boxed contents fit their width, and boxed classes have no other instances. */
    predicate Valid() {
      match this
      case JShort(s) => IsInt16(s)
      case JInteger(i) => IsInt32(i)
      case JLong(l) => IsInt64(l)
      case Instance(c, _) => !IsBoxedClass(c)
      case _ => true
    }
  }

  type Value = v: RawValue | v.Valid() witness JBoolean(true)

  // Fixed-width integer ranges of Java's primitive types.

  const SHORT_MIN: int := -0x8000
  const SHORT_MAX: int := 0x7fff
  const INT_MIN: int := -0x8000_0000
  const INT_MAX: int := 0x7fff_ffff
  const LONG_MIN: int := -0x8000_0000_0000_0000
  const LONG_MAX: int := 0x7fff_ffff_ffff_ffff
  const TWO_32: int := 0x1_0000_0000

  predicate IsInt16(x: int) { SHORT_MIN <= x <= SHORT_MAX }
  predicate IsInt32(x: int) { INT_MIN <= x <= INT_MAX }
  predicate IsInt64(x: int) { LONG_MIN <= x <= LONG_MAX }

  /** A Java `int`, such as the result of `Object.hashCode()`. */
  type Int32 = x: int | IsInt32(x)

  /** The `int` that Java's 32-bit two's-complement arithmetic yields for the exact result `x`. */
  function ToInt32(x: int): (r: int)
    ensures IsInt32(r)
    ensures IsInt32(x) ==> r == x
    ensures (x - r) % TWO_32 == 0
  {
    (x - INT_MIN) % TWO_32 + INT_MIN
  }

  /** Wrap-around is determined by the residue modulo 2^32, in both directions. */
  lemma ToInt32Congruence(x: int, y: int)
    ensures ToInt32(x) == ToInt32(y) <==> (x - y) % TWO_32 == 0
  {
    var k := (x - INT_MIN) / TWO_32;
    var j := (y - INT_MIN) / TWO_32;
    assert x - ToInt32(x) == k * TWO_32;
    assert y - ToInt32(y) == j * TWO_32;
    if ToInt32(x) == ToInt32(y) {
      assert x - y == (k - j) * TWO_32;
    }
    if (x - y) % TWO_32 == 0 {
      var q := (x - y) / TWO_32;
      assert x - INT_MIN == (y - INT_MIN) + q * TWO_32;
      ModShift(y - INT_MIN, q);
    }
  }

  lemma ModShift(a: int, q: int)
    ensures (a + q * TWO_32) % TWO_32 == a % TWO_32
  {
  }

  /** Java evaluates `p * a + b` in `int`: wrapping an intermediate `a` first changes nothing. */
  lemma ToInt32MulAdd(p: int, a: int, b: int)
    ensures ToInt32(p * ToInt32(a) + b) == ToInt32(p * a + b)
  {
    var k := (a - INT_MIN) / TWO_32;
    assert a - ToInt32(a) == k * TWO_32;
    assert (p * a + b) - (p * ToInt32(a) + b) == (p * k) * TWO_32;
    ToInt32Congruence(p * ToInt32(a) + b, p * a + b);
  }

  /**
   * `String.hashCode()`: `h = 31 * h + c` over the characters, in `int`
   * arithmetic, starting from 0.
   */
  function StringHashCode(s: string): (h: int)
    ensures IsInt32(h)
  {
    if s == [] then 0 else ToInt32(31 * StringHashCode(s[..|s| - 1]) + s[|s| - 1] as int)
  }

  function Pow31(n: nat): int {
    if n == 0 then 1 else 31 * Pow31(n - 1)
  }

  /** The documented value of `String.hashCode()`: the sum of `s[i] * 31^(n-1-i)`, before wrap-around. */
  function HashPolynomial(s: string): int {
    if s == [] then 0 else s[0] as int * Pow31(|s| - 1) + HashPolynomial(s[1..])
  }

  lemma {:induction false} HashPolynomialSnoc(s: string, c: char)
    ensures HashPolynomial(s + [c]) == 31 * HashPolynomial(s) + c as int
  {
    if s == [] {
      assert [c][1..] == [];
    } else {
      assert (s + [c])[1..] == s[1..] + [c];
      HashPolynomialSnoc(s[1..], c);
      calc {
        HashPolynomial(s + [c]);
        s[0] as int * Pow31(|s|) + HashPolynomial(s[1..] + [c]);
        s[0] as int * (31 * Pow31(|s| - 1)) + 31 * HashPolynomial(s[1..]) + c as int;
        31 * (s[0] as int * Pow31(|s| - 1) + HashPolynomial(s[1..])) + c as int;
      }
    }
  }

  /** The loop of `String.hashCode()` computes the documented polynomial, wrapped to 32 bits. */
  lemma {:induction false} StringHashCodeIsPolynomial(s: string)
    ensures StringHashCode(s) == ToInt32(HashPolynomial(s))
  {
    if s != [] {
      var p, c := s[..|s| - 1], s[|s| - 1];
      assert s == p + [c];
      StringHashCodeIsPolynomial(p);
      HashPolynomialSnoc(p, c);
      ToInt32MulAdd(31, HashPolynomial(p), c as int);
    }
  }
}
