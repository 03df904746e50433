/**
 * The seeded xorshift generator of the simulation engine
 * (packages/simulation-lib/xor-shift-generator.ts).
 *
 * JavaScript evaluates the step on signed 32-bit integers: `<<` and `^`
 * work on the two's-complement bit pattern, while `>>` propagates the sign
 * bit.  The model keeps the bit pattern as a `bv32` and writes the
 * sign-propagating shift out, since Dafny's `>>` on bit-vectors is logical.
 */
module Xorshift {

  /** The divisor of the generator's output: the largest unsigned 32-bit value. */
  const MaxWord: int := 0xFFFF_FFFF

  /** The 32-bit pattern JavaScript's ToInt32 makes of an integral seed. */
  function Word(seed: int): bv32
  {
    (seed % 0x1_0000_0000) as bv32
  }

  /** First assignment of the step: `x ^= x << 13`. */
  function XorShiftLeft13(x: bv32): bv32
  {
    x ^ (x << 13)
  }

  /**
   * Second assignment of the step: `x ^= x >> 17`, where JavaScript's `>>`
   * moves the bits right by 17 and fills the 17 vacated high bits with the
   * sign bit.
   */
  function XorShiftRightArith17(x: bv32): bv32
  {
    var signFill := (0 - (x >> 31)) << 15;
    x ^ ((x >> 17) | signFill)
  }

  /** Third assignment of the step: `x ^= x << 5`. */
  function XorShiftLeft5(x: bv32): bv32
  {
    x ^ (x << 5)
  }

  /** The xorshift step: the three assignments in source order. */
  function Step(x: bv32): bv32
  {
    XorShiftLeft5(XorShiftRightArith17(XorShiftLeft13(x)))
  }

  /** The value `next()` returns for a stored state: its unsigned reading over 0xFFFFFFFF. */
  function Value(w: bv32): (v: real)
    ensures 0.0 <= v <= 1.0
    ensures v == 1.0 <==> w == 0xFFFF_FFFF
    ensures v == 0.0 <==> w == 0
  {
    (w as int) as real / MaxWord as real
  }

  /** The state after `k` calls of `next()` from state `x`. */
  function Iterate(x: bv32, k: nat): bv32
  {
    if k == 0 then x else Step(Iterate(x, k - 1))
  }

  /** The first `k` values `next()` returns from state `x`, in call order. */
  function Outputs(x: bv32, k: nat): (vs: seq<real>)
    ensures |vs| == k
    ensures forall i :: 0 <= i < k ==> vs[i] == Value(Iterate(x, i + 1))
  {
    if k == 0 then [] else Outputs(x, k - 1) + [Value(Iterate(x, k))]
  }

  class XORShiftGenerator {
    /** The current state, as the 32-bit pattern JavaScript holds after the first step. */
    var state: bv32

    constructor (seed: int)
      ensures state == Word(seed)
    {
      state := Word(seed);
    }

    /** Advances the state by one step and returns the new state's value in [0, 1]. */
    method Next() returns (v: real)
      modifies this
      ensures state == Step(old(state))
      ensures v == Value(state)
      ensures 0.0 <= v < 1.0
    {
      StepNeverAllOnes(state);
      var x := state;
      x := XorShiftLeft13(x);
      x := XorShiftRightArith17(x);
      x := XorShiftLeft5(x);
      state := x;
      v := Value(state);
    }
  }

  /** State 0 is a fixed point: `next()` from 0 returns 0 and stays at 0. */
  lemma {:induction false} ZeroIsFixedPoint(k: nat)
    ensures Iterate(0, k) == 0
    ensures forall i :: 0 <= i < k ==> Outputs(0, k)[i] == 0.0
  {
    if k > 0 {
      ZeroIsFixedPoint(k - 1);
    }
  }

  /**
   * Because the right shift propagates the sign, the step is not injective:
   * the nonzero state 0xFC001FFF becomes 0xFFFFFFFF after the first XOR,
   * which the second XOR clears, so it falls into the fixed point 0.
   */
  lemma StepNotInjective()
    ensures Step(0xFC00_1FFF) == 0 == Step(0)
  {
    assert XorShiftLeft13(0xFC00_1FFF) == 0xFFFF_FFFF;
  }

  /**
   * The step never yields the all-ones pattern, so `next()` never returns 1:
   * the only state the last XOR maps to all ones is 0xC1F07C1F, and the
   * sign-propagating XOR never yields that pattern.
   */
  lemma StepNeverAllOnes(x: bv32)
    ensures Step(x) != 0xFFFF_FFFF
    ensures Value(Step(x)) < 1.0
  {
    LeftFiveAllOnes(XorShiftRightArith17(XorShiftLeft13(x)));
    RightArithNeverHits(XorShiftLeft13(x));
  }

  lemma LeftFiveAllOnes(y: bv32)
    ensures XorShiftLeft5(y) == 0xFFFF_FFFF ==> y == 0xC1F0_7C1F
  {
  }

  lemma RightArithNeverHits(z: bv32)
    ensures XorShiftRightArith17(z) != 0xC1F0_7C1F
  {
  }

  /** Running `j` steps and then `k` more is running `j + k` steps. */
  lemma {:induction false} IterateAdd(x: bv32, j: nat, k: nat)
    ensures Iterate(x, j + k) == Iterate(Iterate(x, j), k)
  {
    if k > 0 {
      IterateAdd(x, j, k - 1);
    }
  }

  /** `k` steps to `mid` followed by `d` steps to `y` make `n == k + d` steps to `y`. */
  lemma {:induction false} IterateChain(x: bv32, k: nat, mid: bv32, d: nat, y: bv32, n: nat)
    requires mid == Iterate(x, k) && y == Iterate(mid, d) && n == k + d
    ensures y == Iterate(x, n)
  {
    IterateAdd(x, k, d);
  }

  /**
   * A generator that is never reseeded yields one unbroken stream: the values
   * of `j` calls followed by `k` more calls are the first `j + k` values from
   * the original state.
   */
  lemma {:induction false} OutputsConcatenate(x: bv32, j: nat, k: nat)
    ensures Outputs(x, j + k) == Outputs(x, j) + Outputs(Iterate(x, j), k)
  {
    var whole, tail := Outputs(x, j + k), Outputs(Iterate(x, j), k);
    forall i | j <= i < j + k
      ensures whole[i] == tail[i - j]
    {
      IterateAdd(x, j, i - j + 1);
    }
  }
}
