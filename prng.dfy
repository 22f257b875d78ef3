// The xorshift generator behind frand01: a 32-bit state that wraps on
// overflow, stepped by x ^= x << 13; x ^= x >> 17; x ^= x << 5.

module Prng {

  /** The state used in place of a zero seed. */
  const DefaultSeed: bv32 := 1234567

  const UintMax: bv32 := 0xFFFF_FFFF

  /** `x ^= x << 13` */
  function XorLeft13(x: bv32): bv32 { x ^ (x << 13) }

  /** `x ^= x >> 17` */
  function XorRight17(x: bv32): bv32 { x ^ (x >> 17) }

  /** `x ^= x << 5` */
  function XorLeft5(x: bv32): bv32 { x ^ (x << 5) }

  /** One xorshift step: the three updates in source order. */
  function Xorshift(x: bv32): bv32
  {
    XorLeft5(XorRight17(XorLeft13(x)))
  }

  /** None of the three updates can turn a non-zero word into zero. */
  lemma XorLeft13NonZero(x: bv32)
    ensures XorLeft13(x) == 0 ==> x == 0
  {
  }

  lemma XorRight17NonZero(x: bv32)
    ensures XorRight17(x) == 0 ==> x == 0
  {
  }

  lemma XorLeft5NonZero(x: bv32)
    ensures XorLeft5(x) == 0 ==> x == 0
  {
  }

  /** Zero is the step's fixed point, and the only state that steps to zero. */
  lemma XorshiftZero(x: bv32)
    ensures Xorshift(x) == 0 <==> x == 0
  {
    XorLeft13NonZero(x);
    XorRight17NonZero(XorLeft13(x));
    XorLeft5NonZero(XorRight17(XorLeft13(x)));
  }

  /** The state after n draws. */
  function Iter(s: bv32, n: nat): bv32
  {
    if n == 0 then s else Xorshift(Iter(s, n - 1))
  }

  lemma {:induction false} IterAdd(s: bv32, a: nat, b: nat)
    ensures Iter(Iter(s, a), b) == Iter(s, a + b)
    decreases b
  {
    if b > 0 {
      IterAdd(s, a, b - 1);
    }
  }

  /** A stream started from a non-zero state never reaches zero. */
  lemma {:induction false} StreamNeverZero(s: bv32, n: nat)
    requires s != 0
    ensures Iter(s, n) != 0
  {
    if n > 0 {
      StreamNeverZero(s, n - 1);
      XorshiftZero(Iter(s, n - 1));
    }
  }

  /** A zero state would stay zero forever. */
  lemma {:induction false} ZeroStreamStuck(n: nat)
    ensures Iter(0, n) == 0
  {
    if n > 0 {
      ZeroStreamStuck(n - 1);
      XorshiftZero(0);
    }
  }

  /** The generator's first state: `cfg.seed ? cfg.seed : 1234567u`. */
  function InitialState(seed: bv32): (s: bv32)
    ensures s != 0
    ensures seed != 0 ==> s == seed
    ensures seed == 0 ==> s == DefaultSeed
  {
    if seed != 0 then seed else DefaultSeed
  }

  /** A state read as a draw, `x / UINT_MAX`, in [0, 1]; exactly 1 for the all-ones state. */
  function Unit(x: bv32): (p: real)
    ensures 0.0 <= p <= 1.0
    ensures p == 1.0 <==> x == UintMax
  {
    var n := x as int;
    assert 0 <= n <= 4294967295 && (n == 4294967295 <==> x == UintMax);
    n as real / 4294967295.0
  }

  /** frand01: steps the state (returned as `next`, the new `*state`) and reads it as a draw. */
  method Frand01(state: bv32) returns (p: real, next: bv32)
    ensures next == Iter(state, 1)
    ensures p == Unit(next) && 0.0 <= p <= 1.0
  {
    var x := state;
    x := XorLeft13(x);
    x := XorRight17(x);
    x := XorLeft5(x);
    next := x;
    p := Unit(x);
  }
}
