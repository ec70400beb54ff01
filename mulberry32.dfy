/** The seeded generator `mulberry32`: a counter advanced by a fixed odd
    increment and a 32-bit mixing function applied to it. Every operator of the
    mixing step converts its operands with ToInt32 or ToUint32, so only the low
    32 bits of the counter matter and the whole step is bv32 arithmetic. */
module Mulberry {
  import opened JsNumbers

  /** The increment 0x6d2b79f5 added to the counter before every draw. */
  const Increment: int := 0x6d2b79f5

  /** 2^53: every integer of at most this magnitude is an exact double, so up
      to it the JS counter `a` holds the mathematical sum. */
  const ExactLimit: int := 0x20_0000_0000_0000

  /** The mixing expression applied to the counter's low 32 bits: `Math.imul`
      is bv32 multiplication, `>>>` a logical shift, `t + imul(...)` followed by
      `^` keeps the sum's low 32 bits. A zero state mixes to zero. */
  function Mix(s: bv32): (u: bv32)
    ensures s == 0 ==> u == 0
  {
    var t1 := (s ^ (s >> 15)) * (s | 1);
    var t2 := t1 ^ (t1 + (t1 ^ (t1 >> 7)) * (t1 | 61));
    t2 ^ (t2 >> 14)
  }

  /** `u / 4294967296` for the unsigned 32-bit `u`. */
  function Unit(u: bv32): (r: real)
    ensures 0.0 <= r < 1.0
    ensures r * 4294967296.0 == u as int as real
  {
    (u as int) as real / 4294967296.0
  }

  /** ToUint32 of the counter after k increments from `seed`. */
  function Counter(seed: int, k: nat): (c: int)
    ensures 0 <= c < TwoTo32
  {
    (seed + k * Increment) % TwoTo32
  }

  /** The same 32 bits, as the operand of the mixing step. */
  function StateAfter(seed: int, k: nat): (s: bv32)
  {
    Counter(seed, k) as bv32
  }

  /** The n-th value (counting from 0) a generator seeded with `seed` returns. */
  function Draw(seed: int, n: nat): (r: real)
    ensures 0.0 <= r < 1.0
  {
    Unit(Mix(StateAfter(seed, n + 1)))
  }

  /** The closure returned by `mulberry32(a)`: `a` is the captured counter.
      `history` is every value returned so far, each the corresponding `Draw`. */
  class Mulberry32 {
    var a: int
    ghost const seed: int
    ghost var history: seq<real>

    ghost predicate Valid()
      reads this
    {
      && a == seed + |history| * Increment
      && -ExactLimit <= a <= ExactLimit
      && forall k {:trigger Draw(seed, k)} :: 0 <= k < |history| ==> history[k] == Draw(seed, k)
    }

    constructor (seed: int)
      requires -ExactLimit <= seed <= ExactLimit
      ensures Valid() && this.seed == seed && history == []
    {
      a := seed;
      this.seed := seed;
      history := [];
    }

    /** One call of the generator: advance the counter, mix its low 32 bits,
        scale to [0, 1). The counter must stay an exact double. */
    method Next() returns (r: real)
      requires Valid()
      requires -ExactLimit <= a + Increment <= ExactLimit
      modifies this
      ensures Valid() && history == old(history) + [r]
    {
      ghost var n := |history|;
      a := a + Increment;
      var low := a % TwoTo32;
      assert low == Counter(seed, n + 1);
      assert low as bv32 == StateAfter(seed, n + 1);
      r := Unit(Mix(low as bv32));
      assert r == Draw(seed, n);
      history := history + [r];
    }
  }

  /** For at most 2^22 draws from a seed of at most 2^32 in magnitude the
      counter stays an exact double. */
  lemma CounterStaysExact(seed: int, k: nat)
    requires -TwoTo32 <= seed <= TwoTo32 && k <= 0x40_0000
    ensures -ExactLimit <= seed + k * Increment <= ExactLimit
  {
    assert 0 <= k * Increment <= 0x40_0000 * Increment;
  }

  /** Each draw adds the increment to the 32-bit state, modulo 2^32. */
  lemma StateStep(seed: int, k: nat)
    ensures Counter(seed, k + 1) == (Counter(seed, k) + Increment) % TwoTo32
  {
  }

  /** Seeds that agree modulo 2^32 give the same stream: the seed is used only
      through ToUint32. */
  lemma SeedModulo(s1: int, s2: int, n: nat)
    requires s1 % TwoTo32 == s2 % TwoTo32
    ensures Draw(s1, n) == Draw(s2, n)
  {
    ShiftModulo(s1, s2, (n + 1) * Increment);
    assert Counter(s1, n + 1) == Counter(s2, n + 1);
    assert StateAfter(s1, n + 1) == StateAfter(s2, n + 1);
  }

  /** Adding the same amount keeps two values congruent modulo 2^32. */
  lemma ShiftModulo(x: int, y: int, c: int)
    requires x % TwoTo32 == y % TwoTo32
    ensures (x + c) % TwoTo32 == (y + c) % TwoTo32
  {
    var d := x / TwoTo32 - y / TwoTo32;
    assert x == y + d * TwoTo32;
    assert (x + c) / TwoTo32 == (y + c) / TwoTo32 + d;
  }

  /** The multiplicative inverse of the increment modulo 2^32. */
  const IncrementInverse: int := 0xdc58aa5d

  lemma InverseOfIncrement()
    ensures Increment * IncrementInverse == 1 + 1576479847 * TwoTo32
  {
  }

  /** If d increments amount to a whole number of turns of the 32-bit counter,
      d itself is a multiple of 2^32 (the increment is odd). */
  lemma {:induction false} IncrementCancels(d: int, q: int)
    requires d * Increment == q * TwoTo32
    ensures d % TwoTo32 == 0
  {
    InverseOfIncrement();
    calc {
      d + d * 1576479847 * TwoTo32;
      d * (1 + 1576479847 * TwoTo32);
      d * (Increment * IncrementInverse);
      (d * Increment) * IncrementInverse;
      q * TwoTo32 * IncrementInverse;
    }
    assert d == (q * IncrementInverse - d * 1576479847) * TwoTo32;
  }

  /** Full period: no state repeats within 2^32 draws, whatever the seed. */
  lemma {:induction false} FullPeriod(seed: int, i: nat, j: nat)
    requires i < j < TwoTo32
    ensures Counter(seed, i) != Counter(seed, j)
  {
    var x := (seed + i * Increment) % TwoTo32;
    var y := (seed + j * Increment) % TwoTo32;
    if x == y {
      var qi := (seed + i * Increment) / TwoTo32;
      var qj := (seed + j * Increment) / TwoTo32;
      assert seed + i * Increment == qi * TwoTo32 + x;
      assert seed + j * Increment == qj * TwoTo32 + y;
      assert (j - i) * Increment == (qj - qi) * TwoTo32;
      IncrementCancels(j - i, qj - qi);
      assert false;
    }
  }

  /** The stream repeats with period 2^32. */
  lemma Periodic(seed: int, n: nat)
    ensures Draw(seed, n + TwoTo32) == Draw(seed, n)
  {
    assert Counter(seed, n + TwoTo32 + 1) == Counter(seed, n + 1);
    assert StateAfter(seed, n + TwoTo32 + 1) == StateAfter(seed, n + 1);
  }

  /** Seed 0 is not special-cased and is not degenerate: the increment comes
      before the mix, so the first state of seed 0 is 0x6d2b79f5, not the fixed
      point 0 of `Mix` ... */
  lemma SeedZeroFirstState()
    ensures Counter(0, 1) == 0x6d2b79f5
  {
  }

  /** ... and that state mixes to 1144304738, so seed 0's first draw is
      1144304738 / 2^32. */
  lemma MixOfIncrement()
    ensures Mix(0x6d2b79f5) == 1144304738
  {
  }
}
