/** The integer emission schedule: repeated multiplication by 0.999 with every product floored. */
module Emission {
  import opened Core

  const DECAY_BPS := 9990

  datatype EmissionSchedule = EmissionSchedule(totalSupply: u64, initialReward: u64, decayBps: u64, epochDepth: u64)

  function Decayed(reward: nat, bps: nat): nat {
    reward * bps / 10_000
  }

  /** The reward of an epoch as repeated floored decay. */
  function Reward(r0: nat, bps: nat, epoch: nat): nat {
    if epoch == 0 then r0 else Decayed(Reward(r0, bps, epoch - 1), bps)
  }

  /** The unclamped sum of the rewards of epochs 0 to `epoch`. */
  function Emitted(r0: nat, bps: nat, epoch: nat): nat {
    Reward(r0, bps, epoch) + if epoch == 0 then 0 else Emitted(r0, bps, epoch - 1)
  }

  lemma {:induction false} RewardFits(r0: u64, bps: nat, epoch: nat)
    requires bps <= 10_000
    ensures Reward(r0, bps, epoch) <= r0
  {
    if epoch > 0 {
      RewardFits(r0, bps, epoch - 1);
      DecayShrinks(Reward(r0, bps, epoch - 1), bps);
    }
  }

  lemma DecayShrinks(reward: nat, bps: nat)
    requires bps <= 10_000
    ensures Decayed(reward, bps) <= reward
  {
    assert reward * bps <= reward * 10_000;
  }

  lemma {:induction false} ZeroStaysZero(r0: nat, bps: nat, epoch: nat, later: nat)
    requires epoch <= later && Reward(r0, bps, epoch) == 0
    ensures Reward(r0, bps, later) == 0
  {
    if epoch < later {
      ZeroStaysZero(r0, bps, epoch, later - 1);
    }
  }

  // ---- The loops, for any decay factor ---------------------------------------------------------

  /** One step of the loop in u128: the product wraps, the quotient is floored. */
  function WideDecayed(reward: nat, bps: nat): nat {
    reward * bps % TWO128 / 10_000
  }

  function WideReward(r0: nat, bps: nat, epoch: nat): nat {
    if epoch == 0 then r0 else WideDecayed(WideReward(r0, bps, epoch - 1), bps)
  }

  /** The u128 reward cut to u64. */
  function Truncated(r0: nat, bps: nat, epoch: nat): u64 {
    WideReward(r0, bps, epoch) % TWO64
  }

  function TruncatedSum(r0: nat, bps: nat, epoch: nat): nat {
    Truncated(r0, bps, epoch) + if epoch == 0 then 0 else TruncatedSum(r0, bps, epoch - 1)
  }

  lemma RemainderOfSmall(x: nat, m: nat)
    requires x < m
    ensures x % m == x
  {}

  lemma WideDecayFits(reward: u64, bps: nat)
    requires bps <= 10_000
    ensures WideDecayed(reward, bps) == Decayed(reward, bps)
  {
    assert reward * bps <= reward * 10_000 < TWO128;
    RemainderOfSmall(reward * bps, TWO128);
  }

  /** A decay factor that does not grow the reward never wraps or truncates. */
  lemma {:induction false} NothingTruncated(r0: u64, bps: nat, epoch: nat)
    requires bps <= 10_000
    ensures WideReward(r0, bps, epoch) == Truncated(r0, bps, epoch) == Reward(r0, bps, epoch)
    ensures TruncatedSum(r0, bps, epoch) == Emitted(r0, bps, epoch)
  {
    RewardFits(r0, bps, epoch);
    RemainderOfSmall(Reward(r0, bps, epoch), TWO64);
    if epoch > 0 {
      NothingTruncated(r0, bps, epoch - 1);
      RewardFits(r0, bps, epoch - 1);
      WideDecayFits(Reward(r0, bps, epoch - 1), bps);
    }
  }

  lemma {:induction false} WideZeroStaysZero(r0: nat, bps: nat, epoch: nat, later: nat)
    requires epoch <= later && WideReward(r0, bps, epoch) == 0
    ensures WideReward(r0, bps, later) == 0
  {
    if epoch < later {
      WideZeroStaysZero(r0, bps, epoch, later - 1);
    }
  }

  /** One product of two u64 fits a u128. */
  lemma FirstDecay(r0: u64, bps: u64)
    ensures WideReward(r0, bps, 1) == r0 * bps / 10_000
  {
    assert r0 * bps < TWO64 * TWO64 by {
      if r0 > 0 {
        assert r0 * bps <= r0 * TWO64 < TWO64 * TWO64;
      }
    }
    RemainderOfSmall(r0 * bps, TWO128);
    assert WideReward(r0, bps, 0) == r0;
  }

  method RewardAtEpoch(s: EmissionSchedule, epoch: u64) returns (r: u64)
    ensures r == Truncated(s.initialReward, s.decayBps, epoch)
    ensures s.decayBps <= 10_000 ==> r == Reward(s.initialReward, s.decayBps, epoch)
    ensures epoch == 0 ==> r == s.initialReward
    ensures epoch == 1 ==> r == s.initialReward * s.decayBps / 10_000 % 0x1_0000_0000_0000_0000
  {
    if s.decayBps <= 10_000 {
      NothingTruncated(s.initialReward, s.decayBps, epoch);
    }
    if epoch == 1 {
      FirstDecay(s.initialReward, s.decayBps);
    }
    RemainderOfSmall(s.initialReward, TWO64);
    if epoch == 0 {
      return s.initialReward;
    }
    var reward: nat := s.initialReward;
    for i := 0 to epoch
      invariant reward == WideReward(s.initialReward, s.decayBps, i)
    {
      reward := reward * s.decayBps % TWO128 / 10_000;
      if reward == 0 {
        WideZeroStaysZero(s.initialReward, s.decayBps, i + 1, epoch);
        return 0;
      }
    }
    r := reward % TWO64;
  }

  /** The saturating sum and the final clamp, against the unclamped sum. */
  method TotalEmittedThroughEpoch(s: EmissionSchedule, epoch: u64) returns (total: u64)
    ensures total == Min(TruncatedSum(s.initialReward, s.decayBps, epoch), s.totalSupply)
    ensures s.decayBps <= 10_000 ==> total == Min(Emitted(s.initialReward, s.decayBps, epoch), s.totalSupply)
  {
    if s.decayBps <= 10_000 {
      NothingTruncated(s.initialReward, s.decayBps, epoch);
    }
    total := 0;
    for e := 0 to epoch + 1
      invariant total == if e == 0 then 0 else Min(TruncatedSum(s.initialReward, s.decayBps, e - 1), TWO64 - 1)
    {
      var r := RewardAtEpoch(s, e);
      total := SaturatingAdd(total, r);
    }
    total := Min(total, s.totalSupply);
  }

  method RewardAtDepth(s: EmissionSchedule, depth: u64) returns (r: u64)
    requires s.epochDepth > 0
    ensures forall e: nat :: e * s.epochDepth <= depth < (e + 1) * s.epochDepth ==>
              r == Truncated(s.initialReward, s.decayBps, e)
  {
    r := RewardAtEpoch(s, depth / s.epochDepth);
    forall e: nat | e * s.epochDepth <= depth < (e + 1) * s.epochDepth
      ensures e == depth / s.epochDepth
    {
      QuotientIs(depth, s.epochDepth, e);
    }
  }

  // ---- The canonical decay of 0.999 ------------------------------------------------------------

  /** What flooring loses in one epoch, in thousandths. */
  function Loss(reward: nat): nat {
    reward * DECAY_BPS % 10_000 / 10
  }

  function Losses(r0: nat, epoch: nat): nat {
    Loss(Reward(r0, DECAY_BPS, epoch)) + if epoch == 0 then 0 else Losses(r0, epoch - 1)
  }

  lemma DecayExact(r: nat)
    ensures 1000 * Decayed(r, DECAY_BPS) + Loss(r) == 999 * r
  {
    assert r * DECAY_BPS == 9990 * r;
  }

  /** Exact accounting: what is emitted, the next reward and the floor losses add up to 1000 times the
      first reward at every horizon. */
  lemma {:induction false} EmissionLedger(r0: nat, epoch: nat)
    ensures Emitted(r0, DECAY_BPS, epoch) + 1000 * Reward(r0, DECAY_BPS, epoch + 1) + Losses(r0, epoch) == 1000 * r0
  {
    DecayExact(Reward(r0, DECAY_BPS, epoch));
    if epoch > 0 {
      EmissionLedger(r0, epoch - 1);
    }
  }

  /** From 1000 the reward steps down to 999 or stays above; from 999 it falls by one each epoch. */
  lemma TailStep(r: nat)
    ensures r >= 1000 ==> Decayed(r, DECAY_BPS) >= 999
    ensures 0 < r <= 999 ==> Decayed(r, DECAY_BPS) == r - 1
    ensures r > 0 ==> Decayed(r, DECAY_BPS) < r
  {
    DecayExact(r);
  }

  function Triangle(r: nat): nat { if r == 0 then 0 else r + Triangle(r - 1) }

  lemma {:induction false} TriangleIs(r: nat)
    ensures 2 * Triangle(r) == r * (r + 1)
  {
    if r > 0 {
      TriangleIs(r - 1);
    }
  }

  /** Once the reward has come down to `r <= 999`, the sum and the floor losses on the way from 999 to
      `r` fit: the sum is at most 1000 R0 - 499500 - (1 + ... + r). */
  lemma {:induction false} TailBound(r0: nat, epoch: nat)
    requires r0 >= 999
    ensures var r := Reward(r0, DECAY_BPS, epoch + 1);
            r <= 999 ==> Emitted(r0, DECAY_BPS, epoch) + Triangle(r) + 499_500 <= 1000 * r0
  {
    var below: nat := if epoch == 0 then 0 else Emitted(r0, DECAY_BPS, epoch - 1);
    TriangleIs(999);
    if epoch > 0 {
      TailBound(r0, epoch - 1);
    }
    EmissionLedger(r0, epoch);
    TailExtends(r0, Reward(r0, DECAY_BPS, epoch), below, Emitted(r0, DECAY_BPS, epoch));
  }

  lemma TailExtends(r0: nat, reward: nat, below: nat, sum: nat)
    requires sum == reward + below && sum + 1000 * Decayed(reward, DECAY_BPS) <= 1000 * r0
    requires reward <= 999 ==> below + Triangle(reward) + 499_500 <= 1000 * r0
    ensures var r := Decayed(reward, DECAY_BPS); r <= 999 ==> sum + Triangle(r) + 499_500 <= 1000 * r0
  {
    TailStep(reward);
    TriangleIs(999);
  }

  /** The tail of floor losses keeps every horizon 499500 below 1000 R0. */
  lemma EmissionBound(r0: nat, epoch: nat)
    requires r0 >= 999
    ensures Emitted(r0, DECAY_BPS, epoch) <= 1000 * r0 - 499_500
  {
    EmissionLedger(r0, epoch);
    TailBound(r0, epoch);
  }

  /** For every first reward up to TOTAL_SUPPLY / 1000 + 499 and every horizon, the sum stays below
      the cap: neither the saturating addition nor the final clamp ever acts. */
  lemma ClampNeverActs(r0: nat, epoch: nat)
    requires r0 <= TOTAL_SUPPLY / 1000 + 499
    ensures Emitted(r0, DECAY_BPS, epoch) < TOTAL_SUPPLY
  {
    if r0 >= 999 {
      EmissionBound(r0, epoch);
    } else {
      EmissionLedger(r0, epoch);
    }
  }

  /** The reward strictly falls until it is 0, which it reaches, and stays there. */
  lemma RewardFallsToZero(r0: nat, epoch: nat)
    ensures Reward(r0, DECAY_BPS, epoch) > 0 ==> Reward(r0, DECAY_BPS, epoch + 1) < Reward(r0, DECAY_BPS, epoch)
    ensures Reward(r0, DECAY_BPS, r0 + epoch) == 0
  {
    TailStep(Reward(r0, DECAY_BPS, epoch));
    FallsByOne(r0, r0);
    ZeroStaysZero(r0, DECAY_BPS, r0, r0 + epoch);
  }

  lemma {:induction false} FallsByOne(r0: nat, epoch: nat)
    ensures Reward(r0, DECAY_BPS, epoch) <= Max(r0 - epoch, 0)
  {
    if epoch > 0 {
      FallsByOne(r0, epoch - 1);
      TailStep(Reward(r0, DECAY_BPS, epoch - 1));
    }
  }
}
