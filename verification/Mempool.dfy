/** The pool of waiting transactions and its two drains. */
module Mempools {
  import opened Core
  import opened Sums
  import opened Ledgers

  /** The length of an account-model transaction's signable bytes: type, addresses, four integers, two
      parents, public key, chain id, and the data with its length when there is any. */
  function SignableLength(tx: Transaction): nat {
    1 + |tx.sender.text| + |tx.receiver.text| + 4 * 8 + 2 * 32 + 32 + 4
      + (if tx.data == [] then 0 else 4 + |tx.data|)
  }

  /** Fee per thousand bytes, signature included. */
  function Weight(tx: Transaction): nat {
    Min(tx.fee * 1000, TWO64 - 1) / (SignableLength(tx) + 64)
  }

  type Pool = map<TxHash, Transaction>

  ghost function Fees(txs: Pool): map<TxHash, nat> {
    map h | h in txs :: txs[h].fee
  }

  /** How a drain ranks transactions: fee weight, highest first, or age, oldest first. */
  datatype Order = ByPriority | ByAge
  {
    function Rank(tx: Transaction): int {
      if this == ByPriority then Weight(tx) else 0 - (tx.timestamp as int)
    }
  }

  /** `keys` lists the pool once each, best rank first. */
  ghost predicate Sorted(order: Order, txs: Pool, keys: seq<TxHash>) {
    && (forall h :: h in keys <==> h in txs)
    && (forall i, j :: 0 <= i < j < |keys| ==> keys[i] != keys[j])
    && (forall i, j :: 0 <= i < j < |keys| ==> order.Rank(txs[keys[i]]) >= order.Rank(txs[keys[j]]))
  }

  /** `index` is exactly the grouping of the pool by sender, without empty groups. */
  ghost predicate Grouped(txs: Pool, index: map<Address, set<TxHash>>) {
    && (forall a, h :: a in index && h in index[a] ==> h in txs && txs[h].sender == a)
    && (forall h :: h in txs ==> txs[h].sender in index && h in index[txs[h].sender])
    && (forall a :: a in index ==> index[a] != {})
  }

  function WithHash(index: map<Address, set<TxHash>>, a: Address, h: TxHash): map<Address, set<TxHash>> {
    index[a := Lookup(index, a, {}) + {h}]
  }

  function WithoutHash(index: map<Address, set<TxHash>>, a: Address, h: TxHash): map<Address, set<TxHash>> {
    if a !in index then index
    else if index[a] - {h} == {} then index - {a}
    else index[a := index[a] - {h}]
  }

  lemma GroupedWith(txs: Pool, index: map<Address, set<TxHash>>, h: TxHash, tx: Transaction)
    requires Grouped(txs, index) && h !in txs
    ensures Grouped(txs[h := tx], WithHash(index, tx.sender, h))
  {}

  lemma GroupedWithout(txs: Pool, index: map<Address, set<TxHash>>, h: TxHash)
    requires Grouped(txs, index) && h in txs
    ensures Grouped(txs - {h}, WithoutHash(index, txs[h].sender, h))
  {
    var a, after := txs[h].sender, WithoutHash(index, txs[h].sender, h);
    assert index[a] - {h} == {} ==> index[a] == {h};
  }

  lemma FeesWith(txs: Pool, h: TxHash, tx: Transaction)
    requires h !in txs
    ensures Sum(Fees(txs[h := tx])) == Sum(Fees(txs)) + tx.fee
  {
    assert Fees(txs[h := tx]) == Fees(txs)[h := tx.fee];
    SumUpdate(Fees(txs), h, tx.fee);
  }

  lemma FeesWithout(txs: Pool, h: TxHash)
    requires h in txs
    ensures Sum(Fees(txs)) == txs[h].fee + Sum(Fees(txs - {h}))
  {
    SumRemove(Fees(txs), h);
    assert Fees(txs) - {h} == Fees(txs - {h});
  }

  /** The counter equals the sum modulo 2^64. */
  ghost predicate Counts(counter: u64, sum: nat) {
    exists wraps: nat :: counter + Dropped(wraps) == sum
  }

  /** A wrapping counter follows an unbounded sum, up and down. */
  lemma CounterAdds(counter: u64, sum: nat, x: u64)
    requires Counts(counter, sum)
    ensures Counts(WrappingAdd(counter, x), sum + x)
  {
    var wraps: nat :| counter + Dropped(wraps) == sum;
    assert WrappingAdd(counter, x) + Dropped(if counter + x < TWO64 then wraps else wraps + 1) == sum + x;
  }

  lemma CounterSubtracts(counter: u64, sum: nat, x: u64)
    requires Counts(counter, sum + x)
    ensures Counts(WrappingSub(counter, x), sum)
  {
    var wraps: nat :| counter + Dropped(wraps) == sum + x;
    assert WrappingSub(counter, x) + Dropped(if x <= counter then wraps else wraps - 1) == sum;
  }

  ghost predicate Consistent(env: Env, txs: Pool, index: map<Address, set<TxHash>>, fees: u64) {
    && (forall h :: h in txs ==> env.hash(txs[h]) == h)
    && Grouped(txs, index)
    && Counts(fees, Sum(Fees(txs)))
  }

  lemma ConsistentWith(env: Env, txs: Pool, index: map<Address, set<TxHash>>, fees: u64, tx: Transaction)
    requires Consistent(env, txs, index, fees) && env.hash(tx) !in txs
    ensures Consistent(env, txs[env.hash(tx) := tx], WithHash(index, tx.sender, env.hash(tx)),
                       WrappingAdd(fees, tx.fee))
  {
    FeesWith(txs, env.hash(tx), tx);
    CounterAdds(fees, Sum(Fees(txs)), tx.fee);
    GroupedWith(txs, index, env.hash(tx), tx);
  }

  lemma ConsistentWithout(env: Env, txs: Pool, index: map<Address, set<TxHash>>, fees: u64, h: TxHash)
    requires Consistent(env, txs, index, fees) && h in txs
    ensures Consistent(env, txs - {h}, WithoutHash(index, txs[h].sender, h), WrappingSub(fees, txs[h].fee))
  {
    FeesWithout(txs, h);
    CounterSubtracts(fees, Sum(Fees(txs - {h})), txs[h].fee);
    GroupedWithout(txs, index, h);
  }

  /** The batch consists of held transactions, each once, best rank first. */
  ghost predicate BatchOf(env: Env, order: Order, before: Pool, batch: seq<Transaction>) {
    && (forall i :: 0 <= i < |batch| ==> env.hash(batch[i]) in before && before[env.hash(batch[i])] == batch[i])
    && (forall i, j :: 0 <= i < j < |batch| ==> env.hash(batch[i]) != env.hash(batch[j]))
    && (forall i, j :: 0 <= i < j < |batch| ==> order.Rank(batch[i]) >= order.Rank(batch[j]))
  }

  /** What is left is everything else, untouched, and none of it strictly beats a drained one. */
  ghost predicate LeftAfter(env: Env, order: Order, before: Pool, after: Pool, batch: seq<Transaction>) {
    && (forall h :: h in after <==> h in before && !exists i :: 0 <= i < |batch| && env.hash(batch[i]) == h)
    && (forall h :: h in after ==> after[h] == before[h])
    && (forall h, i :: h in after && 0 <= i < |batch| ==> order.Rank(after[h]) <= order.Rank(batch[i]))
  }

  /** What a drain of at most `count` promises. */
  ghost predicate Drained(env: Env, order: Order, before: Pool, after: Pool, count: nat, batch: seq<Transaction>) {
    && |batch| == Min(count, |before|)
    && BatchOf(env, order, before, batch)
    && LeftAfter(env, order, before, after, batch)
  }

  /** A thousand times the fee, cut at a u64, for each byte of a transaction: 133 bytes of fixed fields, the
      two addresses, the data after a length of four bytes if there is any, and 64 bytes of signature. */
  ghost function Price(tx: Transaction): int {
    var data := if tx.data == [] then 0 else 4 + |tx.data|;
    var bytes := 133 + |tx.sender.text| + |tx.receiver.text| + data + 64;
    (if 1000 * tx.fee > 0xFFFF_FFFF_FFFF_FFFF then 0xFFFF_FFFF_FFFF_FFFF else 1000 * tx.fee) / bytes
  }

  lemma RankIsPrice(tx: Transaction)
    ensures ByPriority.Rank(tx) == Price(tx)
  {
    var data := if tx.data == [] then 0 else 4 + |tx.data|;
    assert SignableLength(tx) + 64 == 133 + |tx.sender.text| + |tx.receiver.text| + data + 64;
  }

  lemma DrainedByPrice(env: Env, before: Pool, after: Pool, count: nat, batch: seq<Transaction>)
    requires Drained(env, ByPriority, before, after, count, batch)
    ensures forall i, j :: 0 <= i < j < |batch| ==> Price(batch[i]) >= Price(batch[j])
    ensures forall h, i :: h in after && 0 <= i < |batch| ==> Price(after[h]) <= Price(batch[i])
  {
    forall i | 0 <= i < |batch| {
      RankIsPrice(batch[i]);
    }
    forall h | h in after {
      RankIsPrice(after[h]);
    }
  }

  lemma DrainedByAge(env: Env, before: Pool, after: Pool, count: nat, batch: seq<Transaction>)
    requires Drained(env, ByAge, before, after, count, batch)
    ensures forall i, j :: 0 <= i < j < |batch| ==> batch[i].timestamp <= batch[j].timestamp
    ensures forall h, i :: h in after && 0 <= i < |batch| ==> after[h].timestamp >= batch[i].timestamp
  {
    assert forall tx: Transaction :: ByAge.Rank(tx) == 0 - (tx.timestamp as int);
  }

  class Mempool {
    const env: Env
    const maxSize: nat
    var txs: Pool
    var bySender: map<Address, set<TxHash>>
    var totalFees: u64

    /** The sender index is exactly the grouping of the pool by sender, without empty groups; the fee
        counter is the sum of the held fees modulo 2^64; the pool never exceeds its size. */
    ghost predicate Valid()
      reads this
    {
      |txs| <= maxSize && Consistent(env, txs, bySender, totalFees)
    }

    constructor (env: Env, maxSize: nat)
      ensures Valid() && this.env == env && this.maxSize == maxSize && txs == map[]
    {
      this.env, this.maxSize := env, maxSize;
      txs, bySender, totalFees := map[], map[], 0;
      new;
      assert Fees(txs) == map[] && totalFees + Dropped(0) == 0;
    }

    method Insert(tx: Transaction) returns (added: bool)
      requires Valid()
      modifies this
      ensures Valid()
      ensures added <==> |old(txs)| < maxSize && env.hash(tx) !in old(txs)
      ensures txs == if added then old(txs)[env.hash(tx) := tx] else old(txs)
    {
      if |txs| >= maxSize {
        return false;
      }
      var h := env.hash(tx);
      if h in txs {
        return false;
      }
      ConsistentWith(env, txs, bySender, totalFees, tx);
      totalFees := WrappingAdd(totalFees, tx.fee);
      bySender := WithHash(bySender, tx.sender, h);
      txs := txs[h := tx];
      added := true;
    }

    method Remove(h: TxHash) returns (r: Option<Transaction>)
      requires Valid()
      modifies this
      ensures Valid() && txs == old(txs) - {h}
      ensures r == if h in old(txs) then Some(old(txs)[h]) else None
    {
      if h !in txs {
        assert txs - {h} == txs;
        return None;
      }
      var tx := txs[h];
      ConsistentWithout(env, txs, bySender, totalFees, h);
      totalFees := WrappingSub(totalFees, tx.fee);
      bySender := WithoutHash(bySender, tx.sender, h);
      txs := txs - {h};
      r := Some(tx);
    }

    /** Both drains: sort the keys, then take them out one by one. */
    method Drain(order: Order, count: nat) returns (batch: seq<Transaction>)
      requires Valid()
      modifies this
      ensures Valid() && Drained(env, order, old(txs), txs, count, batch)
    {
      var keys := SortedKeys(order);
      batch := [];
      ghost var before := txs;
      for i := 0 to Min(count, |keys|)
        invariant Valid() && Taken(before, txs, keys[..i], batch)
      {
        TakeNext(order, before, txs, keys, i, batch);
        var r := Remove(keys[i]);
        batch := batch + [r.value];
      }
      KeysCount(keys, before.Keys);
      TakenIsDrained(env, order, before, txs, keys, count, batch);
    }

    /** Highest price first: nothing left pays a strictly higher one than anything drained. */
    method DrainByPriority(count: nat) returns (batch: seq<Transaction>)
      requires Valid()
      modifies this
      ensures Valid() && Drained(env, ByPriority, old(txs), txs, count, batch)
      ensures forall i, j :: 0 <= i < j < |batch| ==> Price(batch[i]) >= Price(batch[j])
      ensures forall h, i :: h in txs && 0 <= i < |batch| ==> Price(txs[h]) <= Price(batch[i])
    {
      batch := Drain(ByPriority, count);
      DrainedByPrice(env, old(txs), txs, count, batch);
    }

    /** Oldest first. */
    method DrainBatch(count: nat) returns (batch: seq<Transaction>)
      requires Valid()
      modifies this
      ensures Valid() && Drained(env, ByAge, old(txs), txs, count, batch)
      ensures forall i, j :: 0 <= i < j < |batch| ==> batch[i].timestamp <= batch[j].timestamp
      ensures forall h, i :: h in txs && 0 <= i < |batch| ==> txs[h].timestamp >= batch[i].timestamp
    {
      batch := Drain(ByAge, count);
      DrainedByAge(env, old(txs), txs, count, batch);
    }

    /** Has the sender of `tx` a waiting transaction with the same nonce? */
    method HasConflict(tx: Transaction) returns (r: bool)
      requires Valid()
      ensures r <==> exists h :: h in txs && txs[h].sender == tx.sender && txs[h].nonce == tx.nonce
    {
      ConflictIndexed(txs, bySender, tx.sender, tx.nonce);
      if tx.sender !in bySender {
        return false;
      }
      r := AnyNonce(bySender[tx.sender], tx.nonce);
    }

    method AnyNonce(hashes: set<TxHash>, nonce: u64) returns (r: bool)
      requires hashes <= txs.Keys
      ensures r <==> exists h :: h in hashes && txs[h].nonce == nonce
    {
      var rest := hashes;
      while rest != {}
        invariant rest <= hashes && forall h :: h in hashes && h !in rest ==> txs[h].nonce != nonce
        decreases |rest|
      {
        var h :| h in rest;
        if txs[h].nonce == nonce {
          return true;
        }
        rest := rest - {h};
      }
      r := false;
    }

    /** The library sort, here by inserting the keys one at a time. */
    method SortedKeys(order: Order) returns (keys: seq<TxHash>)
      ensures Sorted(order, txs, keys)
    {
      keys := [];
      var rest := txs.Keys;
      ghost var seen: Pool := map[];
      while rest != {}
        invariant rest <= txs.Keys
        invariant seen == map h | h in txs && h !in rest :: txs[h]
        invariant Sorted(order, seen, keys)
        decreases |rest|
      {
        var h :| h in rest;
        keys := InsertKey(order, keys, seen, h);
        rest, seen := rest - {h}, seen[h := txs[h]];
      }
      assert seen == txs;
    }

    /** Inserts one key into a sorted list, after the keys it does not beat. */
    method InsertKey(order: Order, keys: seq<TxHash>, ghost seen: Pool, h: TxHash) returns (more: seq<TxHash>)
      requires h in txs && h !in seen && Sorted(order, seen, keys)
      requires forall k :: k in seen ==> k in txs && seen[k] == txs[k]
      ensures Sorted(order, seen[h := txs[h]], more)
    {
      var i := 0;
      while i < |keys| && order.Rank(txs[keys[i]]) >= order.Rank(txs[h])
        invariant i <= |keys|
        invariant forall j :: 0 <= j < i ==> order.Rank(txs[keys[j]]) >= order.Rank(txs[h])
      {
        i := i + 1;
      }
      more := keys[..i] + [h] + keys[i..];
      SortedInsert(order, seen, keys, i, h, txs[h]);
    }
  }

  lemma SortedInsert(order: Order, txs: Pool, keys: seq<TxHash>, i: nat, h: TxHash, tx: Transaction)
    requires Sorted(order, txs, keys) && h !in txs && i <= |keys|
    requires forall j :: 0 <= j < i ==> order.Rank(txs[keys[j]]) >= order.Rank(tx)
    requires i < |keys| ==> order.Rank(txs[keys[i]]) < order.Rank(tx)
    ensures Sorted(order, txs[h := tx], keys[..i] + [h] + keys[i..])
  {
    var more := keys[..i] + [h] + keys[i..];
    InsertedKeys(keys, i, h);
    forall a, b | 0 <= a < b < |more|
      ensures more[a] != more[b] && order.Rank(txs[h := tx][more[a]]) >= order.Rank(txs[h := tx][more[b]])
    {
      InsertedAt(keys, i, h, a);
      InsertedAt(keys, i, h, b);
    }
  }

  lemma InsertedKeys(keys: seq<TxHash>, i: nat, h: TxHash)
    requires i <= |keys|
    ensures forall k :: k in keys[..i] + [h] + keys[i..] <==> k == h || k in keys
  {
    assert keys == keys[..i] + keys[i..];
  }

  lemma InsertedAt(keys: seq<TxHash>, i: nat, h: TxHash, k: nat)
    requires i <= |keys| && k <= |keys|
    ensures (keys[..i] + [h] + keys[i..])[k] == if k < i then keys[k] else if k == i then h else keys[k - 1]
  {}

  /** The transactions under `keys` have been moved from the pool to the batch, in order. */
  ghost predicate Taken(before: Pool, after: Pool, keys: seq<TxHash>, batch: seq<Transaction>) {
    && |batch| == |keys|
    && (forall k :: 0 <= k < |keys| ==> keys[k] in before && batch[k] == before[keys[k]])
    && (forall h :: h in after <==> h in before && h !in keys)
    && (forall h :: h in after ==> after[h] == before[h])
  }

  lemma TakeNext(order: Order, before: Pool, after: Pool, keys: seq<TxHash>, i: nat, batch: seq<Transaction>)
    requires Sorted(order, before, keys) && i < |keys| && Taken(before, after, keys[..i], batch)
    ensures keys[i] in after && Taken(before, after - {keys[i]}, keys[..i + 1], batch + [after[keys[i]]])
  {
    assert keys[..i + 1] == keys[..i] + [keys[i]];
    assert keys[i] !in keys[..i];
  }

  lemma TakenHashes(env: Env, before: Pool, after: Pool, keys: seq<TxHash>, batch: seq<Transaction>)
    requires Taken(before, after, keys, batch) && forall h :: h in before ==> env.hash(before[h]) == h
    ensures forall i :: 0 <= i < |batch| ==> env.hash(batch[i]) == keys[i]
    ensures forall h :: h in keys <==> exists i :: 0 <= i < |batch| && env.hash(batch[i]) == h
  {
    forall h | h in keys
      ensures exists i :: 0 <= i < |batch| && env.hash(batch[i]) == h
    {
      var i :| 0 <= i < |keys| && keys[i] == h;
      assert env.hash(batch[i]) == h;
    }
  }

  lemma NoneLeftBeats(order: Order, before: Pool, after: Pool, keys: seq<TxHash>, n: nat, batch: seq<Transaction>)
    requires Sorted(order, before, keys) && n <= |keys| && Taken(before, after, keys[..n], batch)
    ensures forall h, i :: h in after && 0 <= i < n ==> order.Rank(after[h]) <= order.Rank(batch[i])
  {
    assert forall i :: 0 <= i < n ==> keys[..n][i] == keys[i];
    forall h, i | h in after && 0 <= i < n
      ensures order.Rank(after[h]) <= order.Rank(batch[i])
    {
      var j :| 0 <= j < |keys| && keys[j] == h;
      assert j >= n;
    }
  }

  lemma TakenIsDrained(env: Env, order: Order, before: Pool, after: Pool, keys: seq<TxHash>, count: nat,
                       batch: seq<Transaction>)
    requires Sorted(order, before, keys) && |keys| == |before|
    requires Taken(before, after, keys[..Min(count, |keys|)], batch)
    requires forall h :: h in before ==> env.hash(before[h]) == h
    ensures Drained(env, order, before, after, count, batch)
  {
    var n := Min(count, |keys|);
    TakenBatch(env, order, before, after, keys, n, batch);
    TakenLeft(env, order, before, after, keys, n, batch);
  }

  lemma TakenBatch(env: Env, order: Order, before: Pool, after: Pool, keys: seq<TxHash>, n: nat,
                   batch: seq<Transaction>)
    requires Sorted(order, before, keys) && n <= |keys| && Taken(before, after, keys[..n], batch)
    requires forall h :: h in before ==> env.hash(before[h]) == h
    ensures BatchOf(env, order, before, batch)
  {
    assert forall i :: 0 <= i < n ==> keys[..n][i] == keys[i];
    assert forall i :: 0 <= i < n ==> batch[i] == before[keys[i]] && env.hash(batch[i]) == keys[i];
  }

  lemma TakenLeft(env: Env, order: Order, before: Pool, after: Pool, keys: seq<TxHash>, n: nat, batch: seq<Transaction>)
    requires Sorted(order, before, keys) && n <= |keys| && Taken(before, after, keys[..n], batch)
    requires forall h :: h in before ==> env.hash(before[h]) == h
    ensures LeftAfter(env, order, before, after, batch)
  {
    TakenHashes(env, before, after, keys[..n], batch);
    NoneLeftBeats(order, before, after, keys, n, batch);
  }

  lemma ConflictIndexed(txs: Pool, index: map<Address, set<TxHash>>, a: Address, nonce: u64)
    requires Grouped(txs, index)
    ensures (exists h :: h in txs && txs[h].sender == a && txs[h].nonce == nonce)
       <==> a in index && exists h :: h in index[a] && txs[h].nonce == nonce
  {
    if h :| h in txs && txs[h].sender == a && txs[h].nonce == nonce {
      assert h in index[a];
    }
  }

  lemma {:induction false} KeysCount(keys: seq<TxHash>, all: set<TxHash>)
    requires forall h :: h in keys <==> h in all
    requires forall i, j :: 0 <= i < j < |keys| ==> keys[i] != keys[j]
    ensures |keys| == |all|
  {
    if keys == [] {
      assert all == {};
    } else {
      var init, last := keys[..|keys| - 1], keys[|keys| - 1];
      SplitLast(keys);
      KeysCount(init, all - {last});
    }
  }
}
