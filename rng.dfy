/** The seeded generator behind every random decision of a run: the 256-bit
    run seed is reduced modulo a prime just below 2^32 and then advanced by
    Marsaglia's xorshift32 with shifts 13, 17 and 5. */
module Rng {

  /** The prime 2^32 - 5 that the seed is reduced by. */
  const Prime: nat := 4294967291

  /** The state used when the reduced seed is zero (xorshift never leaves 0). */
  const Fallback: bv32 := 123456789

  /** 2^32, the divisor that maps a word onto the unit interval. */
  const WordRange: real := 4294967296.0

  /** 2^256: every seed is a 256-bit hash. */
  const SeedBound: nat := 0x1_0000_0000_0000_0000_0000_0000_0000_0000_0000_0000_0000_0000_0000_0000_0000_0000

  /** The generator's starting state for a seed: the seed modulo the prime,
      or the fallback state when that is zero. */
  function InitialState(seed: nat): (x: bv32)
    ensures x != 0 && x as int < Prime
    ensures seed % Prime == 0 ==> x == Fallback
  {
    var r := seed % Prime;
    if r == 0 then Fallback else r as bv32
  }

  /** One stage of xorshift: xor the state with itself shifted left or right
      by 0 to 31 bits. */
  datatype Shift = Left(bits: bv5) | Right(bits: bv5)

  /** Marsaglia's triple (13, 17, 5): left, right, left. */
  const Stages: seq<Shift> := [Left(13), Right(17), Left(5)]

  /** One stage applied to the state. */
  function ApplyShift(x: bv32, s: Shift): bv32
    requires s.bits != 0
  {
    match s
    case Left(k) => x ^ (x << k)
    case Right(k) => x ^ (x >> k)
  }

  /** The stages `ss` applied in order. */
  function XorShifts(x: bv32, ss: seq<Shift>): bv32
    requires forall i | 0 <= i < |ss| :: ss[i].bits != 0
    decreases |ss|
  {
    if ss == [] then x else XorShifts(ApplyShift(x, ss[0]), ss[1..])
  }

  /** One xorshift32 step. The JavaScript operators `<<`, `>>>` and `^` on the
      32-bit state behave bit for bit like these unsigned operations. */
  function Xorshift(x: bv32): bv32
  {
    XorShifts(x, Stages)
  }

  /** A left stage keeps a non-zero word non-zero: its lowest set bit survives. */
  lemma LeftShiftNonZero(x: bv32, k: bv5)
    requires k != 0 && x != 0
    ensures x ^ (x << k) != 0
  {
  }

  /** A right stage keeps a non-zero word non-zero: its highest set bit survives. */
  lemma RightShiftNonZero(x: bv32, k: bv5)
    requires k != 0 && x != 0
    ensures x ^ (x >> k) != 0
  {
  }

  /** A single stage maps a non-zero word to a non-zero word. */
  lemma ApplyShiftNonZero(x: bv32, s: Shift)
    requires s.bits != 0 && x != 0
    ensures ApplyShift(x, s) != 0
  {
    match s
    case Left(k) => LeftShiftNonZero(x, k);
    case Right(k) => RightShiftNonZero(x, k);
  }

  /** Any sequence of stages maps a non-zero word to a non-zero word. */
  lemma {:induction false} XorShiftsNonZero(x: bv32, ss: seq<Shift>)
    requires forall i | 0 <= i < |ss| :: ss[i].bits != 0
    requires x != 0
    ensures XorShifts(x, ss) != 0
    decreases |ss|
  {
    if ss != [] {
      ApplyShiftNonZero(x, ss[0]);
      XorShiftsNonZero(ApplyShift(x, ss[0]), ss[1..]);
    }
  }

  /** A non-zero state never steps to zero, so the generator never sticks at 0. */
  lemma XorshiftNonZero(x: bv32)
    requires x != 0
    ensures Xorshift(x) != 0
  {
    XorShiftsNonZero(x, Stages);
  }

  /** The number a draw returns for the word it produced. */
  function Draw(w: bv32): (r: real)
    ensures 0.0 <= r < 1.0
    ensures w != 0 ==> 0.0 < r
  {
    (w as int) as real / WordRange
  }

  /** The number the `n`-th draw returns, from the state `x` the generator started in. */
  function DrawAt(x: bv32, n: nat): (r: real)
    ensures 0.0 <= r < 1.0
    decreases n, x as int, 1
  {
    if n == 0 then Draw(x) else DrawAfter(x, n)
  }

  /** `DrawAt` past the seeded state: one step, then `n - 1` draws more. */
  function DrawAfter(x: bv32, n: nat): (r: real)
    requires n > 0
    ensures 0.0 <= r < 1.0
    decreases n, x as int, 0
  {
    DrawAt(Xorshift(x), n - 1)
  }

  /** The `n`-th draw is the draw of the state `n` steps on. */
  lemma {:induction false} DrawAtIterate(x: bv32, n: nat)
    ensures DrawAt(x, n) == Draw(Iterate(x, n))
    decreases n
  {
    if n > 0 {
      DrawAtIterate(Xorshift(x), n - 1);
    }
  }

  /** The state after `n` draws starting in state `x`. */
  function Iterate(x: bv32, n: nat): bv32
    decreases n, x as int, 1
  {
    if n == 0 then x else After(x, n)
  }

  /** `Iterate` past the seeded state: one step, then `n - 1` more. */
  function After(x: bv32, n: nat): bv32
    requires n > 0
    decreases n, x as int, 0
  {
    Iterate(Xorshift(x), n - 1)
  }

  /** Drawing once more after `n` draws applies one more xorshift step. */
  lemma {:induction false} IterateStep(x: bv32, n: nat)
    ensures Iterate(x, n + 1) == Xorshift(Iterate(x, n))
    decreases n
  {
    if n > 0 {
      IterateStep(Xorshift(x), n - 1);
    } else {
      assert Iterate(x, 1) == After(x, 1) == Iterate(Xorshift(x), 0);
    }
  }

  /** A generator started in a non-zero state stays non-zero. */
  lemma {:induction false} IterateNonZero(x: bv32, n: nat)
    requires x != 0
    ensures Iterate(x, n) != 0
    decreases n
  {
    if n > 0 {
      XorshiftNonZero(x);
      IterateNonZero(Xorshift(x), n - 1);
    }
  }

  /** Every draw of a seeded generator lies strictly inside (0, 1): no word is 0. */
  lemma DrawsInOpenUnitInterval(seed: nat, n: nat)
    ensures Iterate(InitialState(seed), n) != 0
    ensures 0.0 < Draw(Iterate(InitialState(seed), n)) < 1.0
  {
    IterateNonZero(InitialState(seed), n);
  }

  /** Two seeds congruent modulo the prime give the same stream; in particular
      a seed that reduces to 0 replays the stream of a seed that reduces to
      the fallback state 123456789. */
  lemma SameResidueSameStream(s1: nat, s2: nat, n: nat)
    requires s1 % Prime == s2 % Prime || (s1 % Prime == 0 && s2 % Prime == 123456789)
    ensures Iterate(InitialState(s1), n) == Iterate(InitialState(s2), n)
  {
    if s1 % Prime != s2 % Prime {
      assert InitialState(s2) == 123456789 as bv32 == Fallback;
    }
  }

  /** The generator closure: its captured state `x` changes on every call.
      `origin` and `drawn` record where the state comes from: the seeded
      state and the number of calls since. */
  class Generator {
    var x: bv32
    ghost const origin: bv32
    ghost var drawn: nat

    ghost predicate Valid()
      reads this
    {
      x == Iterate(origin, drawn)
    }

    constructor (seed: nat)
      requires seed < SeedBound
      ensures Valid() && origin == InitialState(seed) && drawn == 0
    {
      x := InitialState(seed);
      origin := x;
      drawn := 0;
    }

    /** One call of the closure: advance the state by one xorshift step and
        return the new state divided by 2^32, the `drawn`-th number of the
        stream seeded in `origin`. */
    method Next() returns (r: real)
      requires Valid()
      modifies this
      ensures Valid() && drawn == old(drawn) + 1
      ensures r == DrawAt(origin, drawn)
    {
      IterateStep(origin, drawn);
      x := Xorshift(x);
      drawn := drawn + 1;
      r := Draw(x);
      DrawAtIterate(origin, drawn);
    }
  }
}
