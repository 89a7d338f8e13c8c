/**
 * The few pieces of the Java platform that the photo model relies on:
 * a nullable value, 32-bit `int` arithmetic, `String.hashCode` and
 * `Objects.hash` for a single argument.
 */
module JavaLang {

  /** A Java reference that may be `null`. */
  datatype Option<T> = None | Some(value: T)

  const TwoTo31: int := 0x8000_0000
  const TwoTo32: int := 0x1_0000_0000

  /** `x` fits in a Java `int`. */
  predicate IsInt(x: int) {
    -TwoTo31 <= x < TwoTo31
  }

  /** The Java `int` that an overflowing computation with exact value `x` produces. */
  function Int32(x: int): (r: int)
    ensures IsInt(r)
    ensures (x - r) % TwoTo32 == 0
    ensures IsInt(x) ==> r == x
  {
    (x + TwoTo31) % TwoTo32 - TwoTo31
  }

  /** Wrapping is insensitive to whole multiples of 2^32. */
  lemma Int32Periodic(x: int, k: int)
    ensures Int32(x + k * TwoTo32) == Int32(x)
  {
    assert (x + k * TwoTo32 + TwoTo31) % TwoTo32 == (x + TwoTo31) % TwoTo32 by {
      ModShift(x + TwoTo31, k);
    }
  }

  lemma {:induction false} ModShift(a: int, k: int)
    ensures (a + k * TwoTo32) % TwoTo32 == a % TwoTo32
    decreases if k < 0 then -k else k
  {
    if k > 0 {
      ModShift(a, k - 1);
      assert a + k * TwoTo32 == (a + (k - 1) * TwoTo32) + TwoTo32;
    } else if k < 0 {
      ModShift(a, k + 1);
      assert a + k * TwoTo32 == (a + (k + 1) * TwoTo32) - TwoTo32;
    }
  }

  /**
   * `String.hashCode`: starting from 0, each character `c` turns the running
   * value `h` into `31 * h + c`, in `int` arithmetic. Dafny characters are
   * Unicode scalar values where Java folds UTF-16 code units, so the two
   * agree on strings within the Basic Multilingual Plane.
   */
  function StringHashCode(s: string): (h: int)
    ensures IsInt(h)
    decreases |s|
  {
    if s == [] then 0 else Int32(31 * StringHashCode(s[..|s| - 1]) + s[|s| - 1] as int)
  }

  /** 31 to the power `n`. */
  function Pow31(n: nat): nat {
    if n == 0 then 1 else 31 * Pow31(n - 1)
  }

  /** The documented value of `String.hashCode` before wrap-around: s[0]*31^(n-1) + ... + s[n-1]. */
  function HashPolynomial(s: string): int
    decreases |s|
  {
    if s == [] then 0 else s[0] as int * Pow31(|s| - 1) + HashPolynomial(s[1..])
  }

  lemma {:induction false} HashPolynomialSnoc(s: string, c: char)
    ensures HashPolynomial(s + [c]) == 31 * HashPolynomial(s) + c as int
    decreases |s|
  {
    if s == [] {
      assert [c][1..] == [];
    } else {
      assert (s + [c])[1..] == s[1..] + [c];
      HashPolynomialSnoc(s[1..], c);
      assert Pow31(|s|) == 31 * Pow31(|s| - 1);
    }
  }

  /**
   * Wrapping at every step of `String.hashCode` gives the same `int` as
   * wrapping the documented polynomial once.
   */
  lemma {:induction false} StringHashCodeIsPolynomial(s: string)
    ensures StringHashCode(s) == Int32(HashPolynomial(s))
    decreases |s|
  {
    if s != [] {
      var init, c := s[..|s| - 1], s[|s| - 1];
      assert s == init + [c];
      StringHashCodeIsPolynomial(init);
      HashPolynomialSnoc(init, c);
      var x := HashPolynomial(init);
      var w := Int32(x);
      var k := (x - w) / TwoTo32;
      assert x == w + k * TwoTo32;
      assert 31 * x + c as int == (31 * w + c as int) + (31 * k) * TwoTo32;
      Int32Periodic(31 * w + c as int, 31 * k);
    }
  }

  /** `Objects.hash(x)` of one non-null argument whose `hashCode()` is `h`: `31 * 1 + h`. */
  function ObjectsHash(h: int): (r: int)
    requires IsInt(h)
    ensures IsInt(r)
    ensures (31 + h - r) % TwoTo32 == 0
    ensures h < TwoTo31 - 31 ==> r == h + 31
  {
    Int32(31 + h)
  }
}
