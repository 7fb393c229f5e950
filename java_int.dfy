/** Java's `int` arithmetic as the calculator uses it: the `(int)` cast of a
    double (here a real), and 32-bit wrap-around of `int` multiplication. */
module JavaInt {
  import opened Numerals

  /** Rounding toward zero. */
  function Truncate(x: real): int {
    if x >= 0.0 then x.Floor else -((-x).Floor)
  }

  /** Java's narrowing `(int) x`: round toward zero, saturate at the ends of
      the int range. */
  function IntCast(x: real): (n: int)
    ensures InIntRange(n)
  {
    if x >= INT_MAX as real then INT_MAX
    else if x <= INT_MIN as real then INT_MIN
    else Truncate(x)
  }

  /** The source's integrality test `x == (int) x`. */
  predicate IsWhole(x: real) {
    x == IntCast(x) as real
  }

  /** `x == (int) x` holds exactly of the integers in the int range. */
  lemma WholeIff(x: real)
    ensures IsWhole(x) <==> x == x.Floor as real && InIntRange(x.Floor)
    ensures IsWhole(x) ==> IntCast(x) == x.Floor
  {
    if x < 0.0 && x > INT_MIN as real {
      assert (-x).Floor as real <= -x;
      if x == x.Floor as real {
        assert (-x).Floor == -x.Floor;
      }
    }
  }

  /** Java `int` arithmetic: the value modulo 2^32, in the int range. */
  function Wrap32(x: int): (r: int)
    ensures InIntRange(r)
    ensures (r - x) % 0x1_0000_0000 == 0
    ensures InIntRange(x) ==> r == x
  {
    (x - INT_MIN) % 0x1_0000_0000 + INT_MIN
  }
}
