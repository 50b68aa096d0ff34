/**
 * Java's 32-bit `int` arithmetic and the two hash recurrences the adapters
 * rely on: `String.hashCode` and `Objects.hashCode(Object...)` (which is
 * `Arrays.hashCode`).  Both are `h := 31 * h + e` folded over the elements
 * with wrap-around, starting from 0 and from 1 respectively.
 */
module JavaInt {

  /** The values of a Java `int`. */
  type Int32 = x: int | -0x8000_0000 <= x < 0x8000_0000

  /** Two's-complement truncation of an unbounded integer to a Java `int`. */
  function Wrap32(x: int): (r: Int32)
    ensures (x - r) % 0x1_0000_0000 == 0
  {
    var m := x % 0x1_0000_0000;
    if m < 0x8000_0000 then m else m - 0x1_0000_0000
  }

  /** An `int` congruent to `x` modulo 2^32 is the truncation of `x`. */
  lemma Wrap32Unique(x: int, r: Int32)
    requires (x - r) % 0x1_0000_0000 == 0
    ensures Wrap32(x) == r
  {
    var w := Wrap32(x);
    var i := (x - w) / 0x1_0000_0000;
    var j := (x - r) / 0x1_0000_0000;
    assert x - w == i * 0x1_0000_0000;
    assert x - r == j * 0x1_0000_0000;
    assert r - w == (i - j) * 0x1_0000_0000;
  }

  /** Truncation only depends on the residue modulo 2^32, in both directions. */
  lemma Wrap32Congruent(x: int, y: int)
    ensures Wrap32(x) == Wrap32(y) <==> (x - y) % 0x1_0000_0000 == 0
  {
    var wx, wy := Wrap32(x), Wrap32(y);
    var i := (x - wx) / 0x1_0000_0000;
    var j := (y - wy) / 0x1_0000_0000;
    assert x - wx == i * 0x1_0000_0000;
    assert y - wy == j * 0x1_0000_0000;
    if wx == wy {
      assert x - y == (i - j) * 0x1_0000_0000;
    }
    if (x - y) % 0x1_0000_0000 == 0 {
      var k := (x - y) / 0x1_0000_0000;
      assert x - y == k * 0x1_0000_0000;
      assert x - wy == (k + j) * 0x1_0000_0000;
      Wrap32Unique(x, wy);
    }
  }

  /**
   * Scaling by 31 loses nothing modulo 2^32: 31 is odd, so it has an inverse
   * (31 * 3186588639 == 1 + 23 * 2^32), and two `int`s differ by less than 2^32.
   */
  lemma Wrap32ScaleInjective(x: int, a: Int32, b: Int32)
    ensures Wrap32(x + 31 * a) == Wrap32(x + 31 * b) <==> a == b
  {
    Wrap32Congruent(x + 31 * a, x + 31 * b);
    var d := a - b;
    if (31 * d) % 0x1_0000_0000 == 0 {
      var k := (31 * d) / 0x1_0000_0000;
      assert 31 * d == k * 0x1_0000_0000;
      assert (31 * d) * 3186588639 == (k * 3186588639) * 0x1_0000_0000;
      var q := k * 3186588639 - 23 * d;
      assert d == q * 0x1_0000_0000;
    }
    assert x + 31 * a - (x + 31 * b) == 31 * d;
  }

  /** `h := 31 * h + e` over `es`, each step truncated to an `int`. */
  function HashFold(seed: Int32, es: seq<Int32>): Int32
  {
    if |es| == 0 then seed
    else Wrap32(31 * HashFold(seed, es[..|es| - 1]) + es[|es| - 1])
  }

  /** The same recurrence over unbounded integers: the polynomial in 31. */
  function Polynomial(seed: int, es: seq<int>): int
  {
    if |es| == 0 then seed
    else 31 * Polynomial(seed, es[..|es| - 1]) + es[|es| - 1]
  }

  /** One step of the recurrence may truncate its input first without changing the result. */
  lemma Wrap32Step(x: int, e: int)
    ensures Wrap32(31 * Wrap32(x) + e) == Wrap32(31 * x + e)
  {
    var w: int := Wrap32(x);
    var k := (x - w) / 0x1_0000_0000;
    assert x - w == k * 0x1_0000_0000;
    assert (31 * x + e) - (31 * w + e) == (31 * k) * 0x1_0000_0000;
    Wrap32Congruent(31 * x + e, 31 * w + e);
  }

  /** Truncating at every step is the same as truncating the exact polynomial once. */
  lemma {:induction false} HashFoldIsWrappedPolynomial(seed: Int32, es: seq<Int32>)
    ensures HashFold(seed, es) == Wrap32(Polynomial(seed, es))
  {
    if |es| == 0 {
      Wrap32Unique(seed, seed);
    } else {
      var p := es[..|es| - 1];
      HashFoldIsWrappedPolynomial(seed, p);
      Wrap32Step(Polynomial(seed, p), es[|es| - 1]);
    }
  }

  /** The last element of a hashed sequence is determined by the hash: `h` is injective in it. */
  lemma HashFoldLastInjective(seed: Int32, prefix: seq<Int32>, a: Int32, b: Int32)
    ensures HashFold(seed, prefix + [a]) == HashFold(seed, prefix + [b]) <==> a == b
  {
    assert (prefix + [a])[..|prefix|] == prefix;
    assert (prefix + [b])[..|prefix|] == prefix;
    var h := HashFold(seed, prefix);
    Wrap32Congruent(31 * h + a, 31 * h + b);
  }

  /** `Objects.hashCode(o1, ..., on)` given the elements' own hash codes (0 for null). */
  function ObjectsHashCode(es: seq<Int32>): (h: Int32)
    ensures h == Wrap32(Polynomial(1, es))
  {
    HashFoldIsWrappedPolynomial(1, es);
    HashFold(1, es)
  }

  /** `String.hashCode`: the UTF-16 unit values folded from 0. */
  function StringHashCode(s: string): (h: Int32)
    ensures h == Wrap32(Polynomial(0, CharCodes(s)))
  {
    HashFoldIsWrappedPolynomial(0, CharCodes(s));
    HashFold(0, CharCodes(s))
  }

  function CharCodes(s: string): (cs: seq<Int32>)
    ensures |cs| == |s|
    ensures forall i :: 0 <= i < |s| ==> cs[i] == s[i] as int
  {
    if |s| == 0 then [] else CharCodes(s[..|s| - 1]) + [s[|s| - 1] as int]
  }

  /** Closed form of `Objects.hashCode(a, b)`. */
  lemma ObjectsHashCodeOfTwo(a: Int32, b: Int32)
    ensures ObjectsHashCode([a, b]) == Wrap32(961 + 31 * a + b)
  {
    HashFoldIsWrappedPolynomial(1, [a, b]);
    assert [a, b][..1] == [a];
    assert [a][..0] == [];
    assert Polynomial(1, [a]) == 31 + a;
    assert Polynomial(1, [a, b]) == 31 * (31 + a) + b;
  }

  /** Closed form of `Objects.hashCode(a, b, c)`. */
  lemma ObjectsHashCodeOfThree(a: Int32, b: Int32, c: Int32)
    ensures ObjectsHashCode([a, b, c]) == Wrap32(29791 + 961 * a + 31 * b + c)
  {
    HashFoldIsWrappedPolynomial(1, [a, b, c]);
    assert [a, b, c][..2] == [a, b];
    assert [a, b][..1] == [a];
    assert [a][..0] == [];
    assert Polynomial(1, [a]) == 31 + a;
    assert Polynomial(1, [a, b]) == 31 * (31 + a) + b;
    assert Polynomial(1, [a, b, c]) == 31 * (31 * (31 + a) + b) + c;
  }

  /** Java strings whose hash codes collide: "Aa" and "BB" both hash to 2112. */
  lemma StringHashCodeCollides()
    ensures StringHashCode("Aa") == StringHashCode("BB") == 2112
  {
    assert CharCodes("Aa") == [65, 97];
    assert CharCodes("BB") == [66, 66];
    HashFoldIsWrappedPolynomial(0, [65, 97]);
    HashFoldIsWrappedPolynomial(0, [66, 66]);
    assert [65, 97][..1] == [65];
    assert [66, 66][..1] == [66];
    Wrap32Unique(2112, 2112);
  }
}
