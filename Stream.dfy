/** The seeded Mulberry32 stream behind every generator
    (frontend/src/generators/utils.ts, `mulberry32`).

    The closure keeps the seed as a JavaScript number and adds the
    increment on every call; every bitwise operation after that works on
    its low 32 bits. While `|seed| + k * 0x6d2b79f5` stays below 2^53 the
    k-th sum is an exact integer, so the state is modelled as the seed
    modulo 2^32 in a `bv32`, advanced by 32-bit addition; past that bound
    the double rounds and the model no longer describes the closure. */
module Stream {

  const TwoTo32: int := 0x1_0000_0000

  /** The constant added to the state on every call. */
  const Increment: bv32 := 0x6d2b79f5

  /** 2^-32, the smallest gap between an output and 1. */
  const Epsilon: real := 0.00000000023283064365386962890625

  /** `Math.imul`: the low 32 bits of the product. */
  function Imul(a: bv32, b: bv32): bv32 { a * b }

  /** The unsigned value of a 32-bit word (`>>> 0`). */
  function Unsigned(b: bv32): (n: int)
    ensures 0 <= n < TwoTo32
  {
    b as int
  }

  /** The tempering applied to the freshly advanced state. */
  function Mix(t: bv32): bv32 {
    var t1 := Imul(t ^ (t >> 15), t | 1);
    var t2 := t1 ^ (t1 + Imul(t1 ^ (t1 >> 7), t1 | 61));
    t2 ^ (t2 >> 14)
  }

  /** The value returned for the state `s`: an unsigned 32-bit value
      divided by 2^32, so never more than 1 - 2^-32. */
  function Output(s: bv32): (u: real)
    ensures 0.0 <= u <= 1.0 - Epsilon
  {
    Unsigned(Mix(s)) as real / 4294967296.0
  }

  /** The low 32 bits of an integral seed. */
  function SeedWord(seed: int): bv32 {
    (seed % 0x1_0000_0000) as bv32
  }

  /** The state after `k` calls on a stream created with `seed`. */
  function StateAt(seed: int, k: nat): bv32 {
    if k == 0 then SeedWord(seed) else StateAt(seed, k - 1) + Increment
  }

  /** The value returned by call number `k` (counting from 0). */
  function Draw(seed: int, k: nat): (u: real)
    ensures 0.0 <= u <= 1.0 - Epsilon
  {
    Output(StateAt(seed, k + 1))
  }

  /** Only the seed modulo 2^32 matters: seeds that agree modulo 2^32
      give the same sequence. */
  lemma DrawDependsOnSeedModulo(seed: int, k: nat)
    ensures Draw(seed, k) == Draw(seed % TwoTo32, k)
  {
    StateDependsOnSeedModulo(seed, k + 1);
  }

  lemma {:induction false} StateDependsOnSeedModulo(seed: int, k: nat)
    ensures StateAt(seed, k) == StateAt(seed % TwoTo32, k)
  {
    if k == 0 {
      assert (seed % TwoTo32) % TwoTo32 == seed % TwoTo32;
    } else {
      StateDependsOnSeedModulo(seed, k - 1);
    }
  }

  /** A sequence of draws as Mulberry32 produces them: every value lies
      in [0, 1 - 2^-32]. */
  type Draws = d: nat -> real | forall k :: 0.0 <= d(k) <= 1.0 - Epsilon
    witness (k: nat) => 0.0

  /** The draws of the stream created with `seed`. */
  function StreamDraws(seed: int): Draws {
    (k: nat) => Draw(seed, k)
  }

  /** The stream object: `state` is the captured seed modulo 2^32. The
      ghost part remembers the seed, the whole sequence of values the
      stream will produce, and how many of them were drawn. */
  class Mulberry32 {
    var state: bv32
    ghost const seed: int
    ghost const values: Draws
    ghost var draws: nat

    ghost predicate Valid()
      reads this
    {
      state == StateAt(seed, draws) && Produces()
    }

    /** `values` is the sequence of draws fixed by `seed`. */
    ghost predicate Produces() {
      forall k: nat {:trigger Draw(seed, k)} :: values(k) == Draw(seed, k)
    }

    constructor (seed: int)
      ensures Valid() && this.seed == seed && values == StreamDraws(seed) && draws == 0
    {
      state := SeedWord(seed);
      this.seed := seed;
      values := StreamDraws(seed);
      draws := 0;
    }

    /** One call of the closure: advance by the increment, then temper.
        The result is the next value of the sequence fixed by the seed. */
    method Next() returns (u: real)
      requires Valid()
      modifies this
      ensures Valid() && draws == old(draws) + 1
      ensures u == values(old(draws))
      ensures 0.0 <= u < 1.0
    {
      state := state + Increment;
      draws := draws + 1;
      u := Output(state);
      assert values(draws - 1) == Draw(seed, draws - 1);
    }
  }
}
