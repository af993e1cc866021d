/** The set of tips with their weights and ages, and the weighted choice of two parents. */
module Tips {
  import opened Core
  import opened Sums
  import opened Ledgers

  class TipSelector {
    var tips: set<TxHash>
    var weights: map<TxHash, u64>
    var addedAt: map<TxHash, nat>

    /** The three structures always have the same keys. */
    ghost predicate Valid()
      reads this
    {
      tips == weights.Keys && tips == addedAt.Keys
    }

    constructor ()
      ensures Valid() && tips == {}
    {
      tips, weights, addedAt := {}, map[], map[];
    }

    method Add(h: TxHash, now: nat)
      requires Valid()
      modifies this
      ensures Valid()
      ensures tips == old(tips) + {h} && weights == old(weights)[h := 1] && addedAt == old(addedAt)[h := now]
    {
      AddWeighted(h, 1, now);
    }

    method AddWeighted(h: TxHash, weight: u64, now: nat)
      requires Valid()
      modifies this
      ensures Valid()
      ensures tips == old(tips) + {h} && weights == old(weights)[h := weight] && addedAt == old(addedAt)[h := now]
    {
      tips := tips + {h};
      weights := weights[h := weight];
      addedAt := addedAt[h := now];
    }

    method Remove(h: TxHash)
      requires Valid()
      modifies this
      ensures Valid()
      ensures tips == old(tips) - {h} && weights == old(weights) - {h} && addedAt == old(addedAt) - {h}
    {
      tips := tips - {h};
      weights := weights - {h};
      addedAt := addedAt - {h};
    }

    /** A tip that has been dropped is left alone. */
    method UpdateWeight(h: TxHash, weight: u64)
      requires Valid()
      modifies this`weights
      ensures Valid()
      ensures weights == if h in old(weights) then old(weights)[h := weight] else old(weights)
    {
      if h in weights {
        weights := weights[h := weight];
      }
    }

    /** Drops the tips that have grown too old, from all three structures. */
    method PruneStale(maxAge: nat, now: nat) returns (stale: seq<TxHash>)
      requires Valid()
      modifies this
      ensures Valid() && Distinct(stale)
      ensures forall h :: h in stale <==> h in old(addedAt) && now - old(addedAt)[h] > maxAge
      ensures forall h :: h in tips <==> h in old(tips) && h !in stale
      ensures forall h :: h in tips ==> weights[h] == old(weights)[h] && addedAt[h] == old(addedAt)[h]
    {
      stale := RetainFresh(maxAge, now);
      for i := 0 to |stale|
        invariant forall h :: h in tips <==> h in old(tips) && h !in stale[..i]
        invariant tips == weights.Keys && forall h :: h in weights ==> weights[h] == old(weights)[h]
        invariant forall h :: h in addedAt <==> h in old(tips) && h !in stale
        invariant forall h :: h in addedAt ==> addedAt[h] == old(addedAt)[h]
      {
        assert stale[..i + 1] == stale[..i] + [stale[i]];
        tips := tips - {stale[i]};
        weights := weights - {stale[i]};
      }
      assert stale[..|stale|] == stale;
    }

    /** The retain loop over `addedAt`, which visits its entries in an arbitrary order. */
    method RetainFresh(maxAge: nat, now: nat) returns (stale: seq<TxHash>)
      modifies this`addedAt
      ensures Distinct(stale)
      ensures forall h :: h in stale <==> h in old(addedAt) && now - old(addedAt)[h] > maxAge
      ensures forall h :: h in addedAt <==> h in old(addedAt) && h !in stale
      ensures forall h :: h in addedAt ==> addedAt[h] == old(addedAt)[h]
    {
      stale := [];
      var rest := addedAt.Keys;
      while rest != {}
        invariant rest <= addedAt.Keys && Distinct(stale)
        invariant forall h :: h in stale <==> h in old(addedAt) && h !in rest && now - old(addedAt)[h] > maxAge
        invariant forall h :: h in addedAt <==> h in old(addedAt) && h !in stale
        invariant forall h :: h in addedAt ==> addedAt[h] == old(addedAt)[h]
        decreases |rest|
      {
        var h :| h in rest;
        if now - addedAt[h] > maxAge {
          stale := stale + [h];
          addedAt := addedAt - {h};
        }
        rest := rest - {h};
      }
    }

    /** The tips in some order. */
    method List() returns (order: seq<TxHash>)
      ensures Distinct(order) && forall h :: h in order <==> h in tips
      ensures |order| == |tips|
    {
      order := [];
      var rest := tips;
      while rest != {}
        invariant rest <= tips && Distinct(order) && |order| + |rest| == |tips|
        invariant forall h :: h in order <==> h in tips && h !in rest
        decreases |rest|
      {
        var h :| h in rest;
        order, rest := order + [h], rest - {h};
      }
    }

    /** Two distinct tips, uniformly: redraws until the second differs, which draw `settles` does. */
    method SelectTwo(rng: Rng, ghost settles: nat) returns (r: Option<(TxHash, TxHash)>)
      requires Bounded(rng) && (|tips| >= 2 ==> settles > 0 && rng(settles, |tips|) != rng(0, |tips|))
      ensures r.None? <==> |tips| < 2
      ensures r.Some? ==> r.value.0 != r.value.1 && r.value.0 in tips && r.value.1 in tips
    {
      if |tips| < 2 {
        return None;
      }
      var order := List();
      var i, k := rng(0, |order|), 1;
      var j := rng(k, |order|);
      while j == i
        invariant k <= settles && j == rng(k, |order|) < |order|
        decreases settles - k
      {
        k := k + 1;
        j := rng(k, |order|);
      }
      r := Some((order[i], order[j]));
    }

    /** The weights in the given order, and their running total, which wraps. */
    method CollectWeights(order: seq<TxHash>) returns (shares: seq<u64>, total: u64)
      requires forall h :: h in order ==> h in weights
      ensures |shares| == |order| && total == Running(shares, |shares|)
      ensures forall i :: 0 <= i < |order| ==> order[i] in weights && shares[i] == weights[order[i]]
    {
      shares, total := [], 0;
      for i := 0 to |order|
        invariant |shares| == i && total == Running(shares, i)
        invariant forall k :: 0 <= k < i ==> shares[k] == weights[order[k]]
      {
        RunningPrefix(shares, weights[order[i]], i);
        total := WrappingAdd(total, weights[order[i]]);
        shares := shares + [weights[order[i]]];
      }
    }

    /** Two distinct tips, the first chosen by weight: it is the one the loop picks for a target drawn
        below the running total. When that total is 0 the choice is uniform. */
    method SelectWeighted(rng: Rng, ghost settles: nat)
      returns (r: Option<(TxHash, TxHash)>, ghost order: seq<TxHash>, ghost shares: seq<u64>)
      requires Valid() && Bounded(rng)
      requires |tips| >= 2 && Sum(weights) % TWO64 == 0 ==> settles > 0 && rng(settles, |tips|) != rng(0, |tips|)
      ensures r.None? <==> |tips| < 2
      ensures r.Some? ==> r.value.0 != r.value.1 && r.value.0 in tips && r.value.1 in tips
      ensures r.Some? ==> Listing(order, shares, tips, weights) && Running(shares, |shares|) == Sum(weights) % TWO64
      ensures r.Some? && Running(shares, |shares|) > 0 ==>
                exists i :: && 0 <= i < |order| && order[i] == r.value.0
                            && Picks(shares, i, rng(0, Running(shares, |shares|)))
    {
      order, shares := [], [];
      if |tips| < 2 {
        return None, order, shares;
      }
      var listed := List();
      var ws, total := CollectWeights(listed);
      order, shares := listed, ws;
      RunningIsRemainder(ws, |ws|);
      ListedSum(listed, ws, tips, weights);
      if total == 0 {
        r := SelectTwo(rng, settles);
        return;
      }
      var first := FindOwner(ws, rng(0, total));
      var second := PickOther(listed, ws, total, rng, first);
      r := Some((listed[first], listed[second]));
    }
  }

  // ---- Weighted selection ----------------------------------------------------------------------

  /** A random generator: draw number `k` below `bound`. */
  type Rng = (nat, nat) -> nat

  ghost predicate Bounded(rng: Rng) {
    forall k, bound :: bound > 0 ==> rng(k, bound) < bound
  }

  /** The exact sum of the first `i` weights, and the u64 the code has by then. */
  ghost function Cumulative(weights: seq<u64>, i: nat): nat
    requires i <= |weights|
  {
    if i == 0 then 0 else Cumulative(weights, i - 1) + weights[i - 1]
  }

  ghost function Running(weights: seq<u64>, i: nat): u64
    requires i <= |weights|
  {
    if i == 0 then 0 else WrappingAdd(Running(weights, i - 1), weights[i - 1])
  }

  /** The loop stops at position `i`: the first one where the running sum exceeds the target. */
  ghost predicate Picks(weights: seq<u64>, i: nat, target: nat) {
    && i < |weights| && target < Running(weights, i + 1)
    && forall k :: 0 < k <= i ==> Running(weights, k) <= target
  }

  lemma {:induction false} RunningIsRemainder(weights: seq<u64>, i: nat)
    requires i <= |weights|
    ensures Running(weights, i) == Cumulative(weights, i) % TWO64
  {
    if i > 0 {
      RunningIsRemainder(weights, i - 1);
    }
  }

  lemma {:induction false} RunningPrefix(weights: seq<u64>, w: u64, i: nat)
    requires i <= |weights|
    ensures Running(weights + [w], i) == Running(weights, i)
  {
    if i > 0 {
      RunningPrefix(weights, w, i - 1);
    }
  }

  lemma {:induction false} CumulativePrefix(weights: seq<u64>, i: nat)
    requires i < |weights|
    ensures Cumulative(weights[..|weights| - 1], i) == Cumulative(weights, i)
  {
    if i > 0 {
      CumulativePrefix(weights, i - 1);
    }
  }

  lemma {:induction false} CumulativeGrows(weights: seq<u64>, i: nat, j: nat)
    requires i <= j <= |weights|
    ensures Cumulative(weights, i) <= Cumulative(weights, j)
  {
    if i < j {
      CumulativeGrows(weights, i, j - 1);
    }
  }

  /** In whatever order the tips are listed, their weights add up to the same. */
  lemma {:induction false} ListedSum(order: seq<TxHash>, shares: seq<u64>, tips: set<TxHash>,
                                     weights: map<TxHash, u64>)
    requires Listing(order, shares, tips, weights) && tips == weights.Keys
    ensures Cumulative(shares, |shares|) == Sum(weights)
    decreases |order|
  {
    if order != [] {
      var n, last := |order| - 1, order[|order| - 1];
      ListedInit(order, shares, tips, weights);
      var before := shares[..n];
      ListedSum(order[..n], before, tips - {last}, weights - {last});
      SumRemove(weights, last);
      CumulativePrefix(shares, n);
      assert |before| == n && Cumulative(before, n) == Cumulative(shares, n);
    } else {
      assert weights.Keys == {};
    }
  }

  lemma ListedInit(order: seq<TxHash>, shares: seq<u64>, tips: set<TxHash>, weights: map<TxHash, u64>)
    requires Listing(order, shares, tips, weights) && tips == weights.Keys && order != []
    ensures var n, last := |order| - 1, order[|order| - 1];
            && Listing(order[..n], shares[..n], tips - {last}, weights - {last})
            && last in weights && weights[last] == shares[n]
  {
    SplitLast(order);
  }

  /** Every target below the running total, wrapped or not, is picked for exactly one position. */
  lemma OnePick(weights: seq<u64>, target: nat) returns (i: nat)
    requires target < Running(weights, |weights|)
    ensures Picks(weights, i, target)
    ensures forall j :: 0 <= j < |weights| && Picks(weights, j, target) ==> j == i
  {
    i := 0;
    while Running(weights, i + 1) <= target
      invariant i < |weights| && forall k :: 0 < k <= i ==> Running(weights, k) <= target
      decreases |weights| - i
    {
      i := i + 1;
    }
  }

  /** How many of the targets below `n` make position `i` the first choice. */
  ghost function Hits(weights: seq<u64>, i: nat, n: nat): nat {
    if n == 0 then 0 else Hits(weights, i, n - 1) + (if Picks(weights, i, n - 1) then 1 else 0)
  }

  ghost predicate Fits(weights: seq<u64>) { Cumulative(weights, |weights|) < TWO64 }

  lemma FittingRuns(weights: seq<u64>, i: nat)
    requires i <= |weights| && Fits(weights)
    ensures Running(weights, i) == Cumulative(weights, i)
  {
    RunningIsRemainder(weights, i);
    CumulativeGrows(weights, i, |weights|);
  }

  lemma FittingPicks(weights: seq<u64>, i: nat, target: nat)
    requires i < |weights| && Fits(weights)
    ensures Picks(weights, i, target) <==> Cumulative(weights, i) <= target < Cumulative(weights, i + 1)
  {
    FittingRuns(weights, i);
    FittingRuns(weights, i + 1);
    if Cumulative(weights, i) <= target {
      forall k | 0 < k <= i
        ensures Running(weights, k) <= target
      {
        FittingRuns(weights, k);
        CumulativeGrows(weights, k, i);
      }
    }
  }

  lemma {:induction false} FittingHits(weights: seq<u64>, i: nat, n: nat)
    requires i < |weights| && Fits(weights)
    ensures Hits(weights, i, n) == Max(Min(n, Cumulative(weights, i + 1)) - Cumulative(weights, i), 0)
  {
    if n > 0 {
      FittingHits(weights, i, n - 1);
      FittingPicks(weights, i, n - 1);
    }
  }

  /** The hits of the first `i` positions among the targets below `n`. */
  ghost function AllHits(weights: seq<u64>, i: nat, n: nat): nat {
    if i == 0 then 0 else AllHits(weights, i - 1, n) + Hits(weights, i - 1, n)
  }

  lemma {:induction false} OneMoreTarget(weights: seq<u64>, i: nat, n: nat)
    ensures AllHits(weights, i, n + 1)
         == AllHits(weights, i, n) + (if exists k :: 0 <= k < i && Picks(weights, k, n) then 1 else 0)
  {
    if i > 0 {
      OneMoreTarget(weights, i - 1, n);
    }
  }

  /** Nobody is picked more often than there are targets. */
  lemma {:induction false} HitsBelow(weights: seq<u64>, i: nat, n: nat)
    ensures AllHits(weights, i, n) <= n
    decreases n
  {
    if n > 0 {
      HitsBelow(weights, i, n - 1);
      OneMoreTarget(weights, i, n - 1);
    } else {
      NoTargetNoHits(weights, i);
    }
  }

  lemma {:induction false} NoTargetNoHits(weights: seq<u64>, i: nat)
    ensures AllHits(weights, i, 0) == 0
  {
    if i > 0 {
      NoTargetNoHits(weights, i - 1);
    }
  }

  lemma {:induction false} FairHitsSum(weights: seq<u64>, i: nat, n: nat)
    requires i <= |weights| && forall k :: 0 <= k < i ==> Hits(weights, k, n) == weights[k]
    ensures AllHits(weights, i, n) == Cumulative(weights, i)
  {
    if i > 0 {
      FairHitsSum(weights, i - 1, n);
    }
  }

  /** Every position is first choice for exactly as many of the targets drawn from as its weight. */
  ghost predicate Proportional(weights: seq<u64>) {
    forall i :: 0 <= i < |weights| ==> Hits(weights, i, Running(weights, |weights|)) == weights[i]
  }

  /** The first choice is proportional to the weights exactly when their sum fits a u64. */
  lemma ProportionalIffFits(weights: seq<u64>)
    ensures Proportional(weights) <==> Fits(weights)
  {
    var n := Running(weights, |weights|);
    if Fits(weights) {
      FittingRuns(weights, |weights|);
      forall i | 0 <= i < |weights|
        ensures Hits(weights, i, n) == weights[i]
      {
        FittingHits(weights, i, n);
        CumulativeGrows(weights, i + 1, |weights|);
      }
    } else if Proportional(weights) {
      FairHitsSum(weights, |weights|, n);
      HitsBelow(weights, |weights|, n);
    }
  }

  const HALF: u64 := 0x8000_0000_0000_0000

  /** Beyond that it can be as far off as it gets: of two tips that weigh 2^63 and 2^63 + 1 the one listed
      first is picked for the one target there is. */
  lemma WrappedWeightsMislead(target: nat)
    requires target < Running([HALF, HALF + 1], 2)
    ensures Running([HALF, HALF + 1], 2) == 1 && Picks([HALF, HALF + 1], 0, target)
  {
    var ws: seq<u64> := [HALF, HALF + 1];
    assert Running(ws, 1) == WrappingAdd(Running(ws, 0), HALF);
    assert Running(ws, 2) == WrappingAdd(Running(ws, 1), HALF + 1);
  }

  ghost predicate Distinct(s: seq<TxHash>) {
    forall i, j :: 0 <= i < j < |s| ==> s[i] != s[j]
  }

  /** The tips in some order, with their weights. */
  ghost predicate Listing(order: seq<TxHash>, shares: seq<u64>, tips: set<TxHash>, weights: map<TxHash, u64>) {
    && Distinct(order) && |order| == |shares|
    && (forall h :: h in order <==> h in tips)
    && (forall i :: 0 <= i < |order| ==> order[i] in weights && shares[i] == weights[order[i]])
  }

  /** The loop of `pick`: the first position where the running sum exceeds the target. */
  method FindOwner(weights: seq<u64>, target: nat) returns (i: nat)
    requires target < Running(weights, |weights|)
    ensures Picks(weights, i, target)
  {
    var cumulative: u64 := 0;
    for k := 0 to |weights|
      invariant cumulative == Running(weights, k)
      invariant forall m :: 0 <= m <= k ==> Running(weights, m) <= target
    {
      cumulative := WrappingAdd(cumulative, weights[k]);
      if cumulative > target {
        return k;
      }
    }
    assert false;
  }

  /** The second choice: at most 100 draws, then any tip but the excluded one. */
  method PickOther(order: seq<TxHash>, weights: seq<u64>, total: u64, rng: Rng, exclude: nat) returns (i: nat)
    requires Bounded(rng) && |order| == |weights| >= 2 && exclude < |order| && Distinct(order)
    requires total == Running(weights, |weights|) > 0
    ensures i < |order| && order[i] != order[exclude]
  {
    i := 0;
    for k := 1 to 101 {
      var owner := FindOwner(weights, rng(k, total));
      if order[owner] != order[exclude] {
        return owner;
      }
    }
    for j := 0 to |order|
      invariant j == 0 || (j == 1 && exclude == 0)
    {
      if order[j] != order[exclude] {
        return j;
      }
    }
    assert false;
  }
}
