/** Balances, nonces, stakes and the unstaking queue: the value model `Ledger`, its accounting
    lemmas, and the class `LedgerState` whose methods are proved against it. */
module Ledgers {
  import opened Core
  import opened Sums

  const LOCK_MS := 30 * 24 * 60 * 60 * 1000
  const LOCK_EPOCHS := 10

  datatype UnstakeRequest = UnstakeRequest(amount: u64, unlockTime: u64, unlockEpoch: u64)
  {
    predicate Unlocked(time: u64, epoch: u64) {
      time >= unlockTime || epoch >= unlockEpoch
    }
  }

  function Lookup<K, V>(m: map<K, V>, k: K, default: V): V {
    if k in m then m[k] else default
  }

  /** The requests a processing call leaves in the queue, in order. */
  function Kept(reqs: seq<UnstakeRequest>, time: u64, epoch: u64): seq<UnstakeRequest> {
    if reqs == [] then [] else
      var last := reqs[|reqs| - 1];
      var before := Kept(reqs[..|reqs| - 1], time, epoch);
      if last.Unlocked(time, epoch) then before else before + [last]
  }

  /** What that call releases, accumulated in a wrapping u64. */
  function Released(reqs: seq<UnstakeRequest>, time: u64, epoch: u64): u64 {
    if reqs == [] then 0 else
      var last := reqs[|reqs| - 1];
      var before := Released(reqs[..|reqs| - 1], time, epoch);
      if last.Unlocked(time, epoch) then WrappingAdd(before, last.amount) else before
  }

  ghost function Total(reqs: seq<UnstakeRequest>): nat {
    if reqs == [] then 0 else Total(reqs[..|reqs| - 1]) + reqs[|reqs| - 1].amount
  }

  ghost function Totals(queues: map<Address, seq<UnstakeRequest>>): map<Address, nat> {
    map a | a in queues :: Total(queues[a])
  }

  datatype Ledger = Ledger(
    balances: map<Address, u64>,
    nonces: map<Address, nat>,
    stakes: map<Address, u64>,
    unstakes: map<Address, seq<UnstakeRequest>>)
  {
    function Balance(a: Address): u64 { Lookup(balances, a, 0) }
    function Nonce(a: Address): nat { Lookup(nonces, a, 0) }
    function StakeOf(a: Address): u64 { Lookup(stakes, a, 0) }
    function Queue(a: Address): seq<UnstakeRequest> { Lookup(unstakes, a, []) }

    function Credit(a: Address, amount: u64): Ledger {
      this.(balances := balances[a := WrappingAdd(Balance(a), amount)])
    }

    /** A refused debit still leaves an entry behind for an unknown address. */
    function Debit(a: Address, amount: u64): Ledger {
      this.(balances := balances[a := if Balance(a) < amount then Balance(a) else Balance(a) - amount])
    }

    function BumpNonce(a: Address): Ledger {
      this.(nonces := nonces[a := Nonce(a) + 1])
    }

    function AddStake(a: Address, amount: u64): Ledger {
      this.(stakes := stakes[a := WrappingAdd(StakeOf(a), amount)])
    }

    function RemoveStake(a: Address, amount: u64): Ledger {
      this.(stakes := stakes[a := if StakeOf(a) < amount then StakeOf(a) else StakeOf(a) - amount])
    }

    function RequestUnstake(a: Address, amount: u64, time: u64, epoch: u64): Ledger {
      var l := RemoveStake(a, amount);
      if StakeOf(a) < amount then l else
        var req := UnstakeRequest(amount, WrappingAdd(time, LOCK_MS), WrappingAdd(epoch, LOCK_EPOCHS));
        l.(unstakes := unstakes[a := Queue(a) + [req]])
    }

    function Payout(a: Address, time: u64, epoch: u64): u64 {
      Released(Queue(a), time, epoch)
    }

    function ProcessUnstakes(a: Address, time: u64, epoch: u64): Ledger {
      var l := if a in unstakes then this.(unstakes := unstakes[a := Kept(unstakes[a], time, epoch)])
               else this;
      var paid := Payout(a, time, epoch);
      if paid > 0 then l.Credit(a, paid) else l
    }

    /** Everything in circulation, as an unbounded number. */
    ghost function Circulating(): nat {
      Sum(balances) + Sum(stakes) + Sum(Totals(unstakes))
    }
  }

  const EMPTY := Ledger(map[], map[], map[], map[])

  lemma CreditAdds(l: Ledger, a: Address, amount: u64)
    requires l.Circulating() + amount < TWO64
    ensures l.Credit(a, amount).Circulating() == l.Circulating() + amount
    ensures l.Credit(a, amount).Balance(a) == l.Balance(a) + amount
  {
    if a in l.balances {
      SumBounds(l.balances, a);
    }
    SumUpdate(l.balances, a, WrappingAdd(l.Balance(a), amount));
  }

  lemma DebitTakes(l: Ledger, a: Address, amount: u64)
    requires amount <= l.Balance(a)
    ensures l.Debit(a, amount).Circulating() == l.Circulating() - amount
  {
    var left := l.Balance(a) - amount;
    SumUpdate(l.balances, a, left);
    var after := l.Debit(a, amount);
    assert after.balances == l.balances[a := left] && after.stakes == l.stakes && after.unstakes == l.unstakes;
  }

  lemma AddStakeAdds(l: Ledger, a: Address, amount: u64)
    requires l.Circulating() + amount < TWO64
    ensures l.AddStake(a, amount).Circulating() == l.Circulating() + amount
  {
    if a in l.stakes {
      SumBounds(l.stakes, a);
    }
    SumUpdate(l.stakes, a, WrappingAdd(l.StakeOf(a), amount));
  }

  lemma QueueRemove(queues: map<Address, seq<UnstakeRequest>>, a: Address)
    requires a in queues
    ensures Sum(Totals(queues)) == Total(queues[a]) + Sum(Totals(queues - {a}))
  {
    SumRemove(Totals(queues), a);
    assert Totals(queues) - {a} == Totals(queues - {a});
  }

  lemma QueueUpdate(l: Ledger, a: Address, reqs: seq<UnstakeRequest>)
    ensures Sum(Totals(l.unstakes[a := reqs])) == Sum(Totals(l.unstakes)) - Total(l.Queue(a)) + Total(reqs)
  {
    assert Totals(l.unstakes[a := reqs]) == Totals(l.unstakes)[a := Total(reqs)];
    SumUpdate(Totals(l.unstakes), a, Total(reqs));
  }

  /** Asking to unstake moves coins from the stake to the queue; refused or not, none is lost. */
  lemma RequestConserves(l: Ledger, a: Address, amount: u64, time: u64, epoch: u64)
    ensures l.RequestUnstake(a, amount, time, epoch).Circulating() == l.Circulating()
  {
    if amount <= l.StakeOf(a) {
      var req := UnstakeRequest(amount, WrappingAdd(time, LOCK_MS), WrappingAdd(epoch, LOCK_EPOCHS));
      GrantConserves(l, l.RequestUnstake(a, amount, time, epoch), a, amount, req);
    } else {
      SumUpdate(l.stakes, a, l.StakeOf(a));
      assert l.RequestUnstake(a, amount, time, epoch) == l.(stakes := l.stakes[a := l.StakeOf(a)]);
    }
  }

  lemma {:induction false} GrantConserves(l: Ledger, after: Ledger, a: Address, amount: u64, req: UnstakeRequest)
    requires req.amount == amount && amount <= l.StakeOf(a) && after.balances == l.balances
    requires after.stakes == l.stakes[a := l.StakeOf(a) - amount]
    requires after.unstakes == l.unstakes[a := l.Queue(a) + [req]]
    ensures after.Circulating() == l.Circulating()
  {
    SumUpdate(l.stakes, a, l.StakeOf(a) - amount);
    JoinsQueue(l, a, req);
  }

  lemma JoinsQueue(l: Ledger, a: Address, req: UnstakeRequest)
    ensures Sum(Totals(l.unstakes[a := l.Queue(a) + [req]])) == Sum(Totals(l.unstakes)) + req.amount
  {
    QueueSnoc(l.Queue(a), req, 0, 0);
    QueueUpdate(l, a, l.Queue(a) + [req]);
  }

  lemma QueueSnoc(reqs: seq<UnstakeRequest>, r: UnstakeRequest, time: u64, epoch: u64)
    ensures Kept(reqs + [r], time, epoch)
         == if r.Unlocked(time, epoch) then Kept(reqs, time, epoch) else Kept(reqs, time, epoch) + [r]
    ensures Released(reqs + [r], time, epoch)
         == if r.Unlocked(time, epoch) then WrappingAdd(Released(reqs, time, epoch), r.amount)
            else Released(reqs, time, epoch)
    ensures Total(reqs + [r]) == Total(reqs) + r.amount
  {
    assert (reqs + [r])[..|reqs|] == reqs;
  }

  lemma {:induction false} KeptPlusReleased(reqs: seq<UnstakeRequest>, time: u64, epoch: u64)
    requires Total(reqs) < TWO64
    ensures Total(Kept(reqs, time, epoch)) + Released(reqs, time, epoch) == Total(reqs)
  {
    if reqs != [] {
      var init, last := reqs[..|reqs| - 1], reqs[|reqs| - 1];
      KeptPlusReleased(init, time, epoch);
      var kept := Kept(reqs, time, epoch);
      if !last.Unlocked(time, epoch) {
        assert kept[..|kept| - 1] == Kept(init, time, epoch);
      } else {
        assert kept == Kept(init, time, epoch);
      }
    }
  }

  /** Paying out moves coins from the queue to the balance and creates none. */
  lemma ProcessConserves(l: Ledger, a: Address, time: u64, epoch: u64)
    requires l.Circulating() < TWO64
    ensures l.ProcessUnstakes(a, time, epoch).Circulating() == l.Circulating()
  {
    if a in l.unstakes {
      var kept := Kept(l.unstakes[a], time, epoch);
      SumBounds(Totals(l.unstakes), a);
      KeptPlusReleased(l.unstakes[a], time, epoch);
      QueueUpdate(l, a, kept);
      var queued := l.(unstakes := l.unstakes[a := kept]);
      CreditAdds(queued, a, l.Payout(a, time, epoch));
    }
  }

  class LedgerState {
    var balances: map<Address, u64>
    var nonces: map<Address, nat>
    var stakes: map<Address, u64>
    var unstakes: map<Address, seq<UnstakeRequest>>

    ghost function Model(): Ledger
      reads this
    {
      Ledger(balances, nonces, stakes, unstakes)
    }

    constructor ()
      ensures Model() == EMPTY
    {
      balances, nonces, stakes, unstakes := map[], map[], map[], map[];
    }

    method Balance(a: Address) returns (r: u64)
      ensures r == Model().Balance(a)
    {
      r := Lookup(balances, a, 0);
    }

    method Nonce(a: Address) returns (r: nat)
      ensures r == Model().Nonce(a)
    {
      r := Lookup(nonces, a, 0);
    }

    method Credit(a: Address, amount: u64)
      modifies this`balances
      ensures Model() == old(Model()).Credit(a, amount)
    {
      if a !in balances {
        balances := balances[a := 0];
      }
      balances := balances[a := WrappingAdd(balances[a], amount)];
    }

    /** Run alone, the compare-exchange of the original succeeds at its first attempt. */
    method Debit(a: Address, amount: u64) returns (r: Result<()>)
      modifies this`balances
      ensures Model() == old(Model()).Debit(a, amount)
      ensures r == if old(Model()).Balance(a) < amount
                   then Err(InsufficientBalance(old(Model()).Balance(a), amount)) else Ok(())
    {
      if a !in balances {
        balances := balances[a := 0];
      }
      var current := balances[a];
      if current < amount {
        return Err(InsufficientBalance(current, amount));
      }
      balances := balances[a := current - amount];
      r := Ok(());
    }

    method IncrementNonce(a: Address)
      modifies this`nonces
      ensures Model() == old(Model()).BumpNonce(a)
    {
      nonces := nonces[a := Lookup(nonces, a, 0) + 1];
    }

    method AddStake(a: Address, amount: u64)
      modifies this`stakes
      ensures Model() == old(Model()).AddStake(a, amount)
    {
      stakes := stakes[a := WrappingAdd(Lookup(stakes, a, 0), amount)];
    }

    method RemoveStake(a: Address, amount: u64) returns (r: Result<()>)
      modifies this`stakes
      ensures Model() == old(Model()).RemoveStake(a, amount)
      ensures r == if old(Model()).StakeOf(a) < amount
                   then Err(InsufficientBalance(old(Model()).StakeOf(a), amount)) else Ok(())
    {
      if a !in stakes {
        stakes := stakes[a := 0];
      }
      var current := stakes[a];
      if current < amount {
        return Err(InsufficientBalance(current, amount));
      }
      stakes := stakes[a := current - amount];
      r := Ok(());
    }

    method RequestUnstake(a: Address, amount: u64, time: u64, epoch: u64) returns (r: Result<()>)
      modifies this`stakes, this`unstakes
      ensures Model() == old(Model()).RequestUnstake(a, amount, time, epoch)
      ensures r.Ok? <==> amount <= old(Model()).StakeOf(a)
    {
      r := RemoveStake(a, amount);
      if r.Ok? {
        var req := UnstakeRequest(amount, WrappingAdd(time, LOCK_MS), WrappingAdd(epoch, LOCK_EPOCHS));
        unstakes := unstakes[a := Lookup(unstakes, a, []) + [req]];
      }
    }

    method ProcessUnstakes(a: Address, time: u64, epoch: u64) returns (paid: u64)
      modifies this`balances, this`unstakes
      ensures Model() == old(Model()).ProcessUnstakes(a, time, epoch)
      ensures paid == old(Model()).Payout(a, time, epoch)
    {
      paid := 0;
      if a in unstakes {
        var reqs, kept := unstakes[a], [];
        for i := 0 to |reqs|
          invariant kept == Kept(reqs[..i], time, epoch)
          invariant paid == Released(reqs[..i], time, epoch)
          invariant Model() == old(Model())
        {
          assert reqs[..i + 1][..i] == reqs[..i];
          if reqs[i].Unlocked(time, epoch) {
            paid := WrappingAdd(paid, reqs[i].amount);
          } else {
            kept := kept + [reqs[i]];
          }
        }
        assert reqs[..|reqs|] == reqs;
        unstakes := unstakes[a := kept];
      }
      if paid > 0 {
        Credit(a, paid);
      }
    }

    /** The three wrapping sums of the original agree with the unbounded total modulo 2^64. */
    method TotalCirculating() returns (r: u64)
      ensures r == Model().Circulating() % TWO64
    {
      var b, wrapsB := WrappingSum(balances);
      var s, wrapsS := WrappingSum(stakes);
      var u, wrapsU := UnstakesSum();
      var bs := WrappingAdd(b, s);
      r := WrappingAdd(bs, u);
      ghost var carries := (if b + s < TWO64 then 0 else 1) + (if bs + u < TWO64 then 0 else 1);
      RemainderIs(Model().Circulating(), wrapsB + wrapsS + wrapsU + carries, r);
    }

    method UnstakesSum() returns (u: u64, ghost wraps: nat)
      ensures u + Dropped(wraps) == Sum(Totals(unstakes))
    {
      u, wraps := 0, 0;
      var rest := unstakes;
      while rest != map[]
        invariant u + Sum(Totals(rest)) + Dropped(wraps) == Sum(Totals(unstakes))
        decreases |rest|
      {
        var a :| a in rest;
        var t, w := QueueSum(rest[a]);
        QueueRemove(rest, a);
        wraps := wraps + w + if u + t < TWO64 then 0 else 1;
        u, rest := WrappingAdd(u, t), rest - {a};
      }
    }

    method QueueSum(reqs: seq<UnstakeRequest>) returns (r: u64, ghost wraps: nat)
      ensures r + Dropped(wraps) == Total(reqs)
    {
      r, wraps := 0, 0;
      for i := 0 to |reqs|
        invariant r + Dropped(wraps) == Total(reqs[..i])
      {
        assert reqs[..i + 1][..i] == reqs[..i];
        wraps := wraps + if r + reqs[i].amount < TWO64 then 0 else 1;
        r := WrappingAdd(r, reqs[i].amount);
      }
      assert reqs[..|reqs|] == reqs;
    }
  }
}
