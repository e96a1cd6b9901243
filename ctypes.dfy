/** The fixed-width C integer types the wrappers use, and the conversions between them. */
module CTypes {

  const TwoTo31: int := 0x8000_0000
  const TwoTo32: int := 0x1_0000_0000

  type uint32 = x: int | 0 <= x < 0x1_0000_0000
  type int32 = x: int | -0x8000_0000 <= x < 0x8000_0000

  predicate InInt32Range(x: int) {
    -TwoTo31 <= x < TwoTo31
  }

  /** Conversion of an integer value to `uint32_t`: reduction modulo 2^32. */
  function ToUint32(x: int): (r: uint32)
    ensures Congruent(x, r)
    ensures 0 <= x < TwoTo32 ==> r == x
  {
    x % TwoTo32
  }

  /** Conversion of an integer value to `int32_t`: the two's-complement value congruent to it
      modulo 2^32 (what C++20 prescribes and what the usual compilers do before it). */
  function ToInt32(x: int): (r: int32)
    ensures Congruent(x, r)
    ensures InInt32Range(x) ==> r == x
  {
    var m := x % TwoTo32;
    if m < TwoTo31 then m else m - TwoTo32
  }

  /** Congruence modulo 2^32, the relation every conversion between the types preserves. */
  predicate Congruent(a: int, b: int) {
    (a - b) % TwoTo32 == 0
  }

  lemma CongruentMultiple(a: int, b: int) returns (q: int)
    requires Congruent(a, b)
    ensures a - b == q * TwoTo32
  {
    q := (a - b) / TwoTo32;
  }

  /** Congruence is symmetric and transitive, and is kept by subtraction. */
  lemma CongruentLaws(a: int, b: int, c: int, d: int)
    ensures Congruent(a, b) ==> Congruent(b, a)
    ensures Congruent(a, b) && Congruent(b, c) ==> Congruent(a, c)
    ensures Congruent(a, b) && Congruent(c, d) ==> Congruent(a - c, b - d)
  {
  }

  /** Two numbers congruent modulo 2^32 have the same `uint32_t` image. */
  lemma ToUint32Congruent(a: int, b: int)
    requires Congruent(a, b)
    ensures ToUint32(a) == ToUint32(b)
  {
  }
}
