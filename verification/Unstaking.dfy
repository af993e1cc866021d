/** When unstaking requests are paid, over every run of ledger calls. */
module Unstaking {
  import opened Core
  import opened Ledgers

  datatype Call =
    | Credit(a: Address, amount: u64)
    | Debit(a: Address, amount: u64)
    | BumpNonce(a: Address)
    | AddStake(a: Address, amount: u64)
    | Request(a: Address, amount: u64, time: u64, epoch: u64)
    | Process(a: Address, time: u64, epoch: u64)

  function Step(l: Ledger, c: Call): Ledger {
    match c
    case Credit(a, n) => l.Credit(a, n)
    case Debit(a, n) => l.Debit(a, n)
    case BumpNonce(a) => l.BumpNonce(a)
    case AddStake(a, n) => l.AddStake(a, n)
    case Request(a, n, t, e) => l.RequestUnstake(a, n, t, e)
    case Process(a, t, e) => l.ProcessUnstakes(a, t, e)
  }

  function Run(calls: seq<Call>): Ledger {
    if calls == [] then EMPTY else Step(Run(calls[..|calls| - 1]), calls[|calls| - 1])
  }

  /** Call `i` asks to unstake coins that the address has staked. */
  ghost predicate Granted(calls: seq<Call>, i: nat)
    requires i < |calls|
  {
    calls[i].Request? && calls[i].amount <= Run(calls[..i]).StakeOf(calls[i].a)
  }

  /** What the queue holds for request `i`: the unlock fields are u64 sums and wrap. */
  ghost function RequestAt(calls: seq<Call>, i: nat): UnstakeRequest
    requires i < |calls| && calls[i].Request?
  {
    UnstakeRequest(calls[i].amount, WrappingAdd(calls[i].time, LOCK_MS), WrappingAdd(calls[i].epoch, LOCK_EPOCHS))
  }

  /** At the clock of call `j`, the time or the epoch has reached what request `i` waits for. */
  ghost predicate LockOver(calls: seq<Call>, i: nat, j: nat)
    requires i < |calls| && j < |calls| && calls[i].Request? && (calls[j].Request? || calls[j].Process?)
  {
    RequestAt(calls, i).Unlocked(calls[j].time, calls[j].epoch)
  }

  ghost predicate Due(calls: seq<Call>, i: nat, j: nat)
    requires i < |calls| && j < |calls| && calls[i].Request?
  {
    calls[j].Process? && calls[j].a == calls[i].a && LockOver(calls, i, j)
  }

  /** Call `j` is the first processing call for its address after request `i` that finds the lock
      over. There is at most one such call, so the request is paid at most once. */
  ghost predicate PaidAt(calls: seq<Call>, i: nat, j: nat)
    requires i < |calls| && j < |calls|
  {
    Granted(calls, i) && i < j && Due(calls, i, j) && forall k :: i < k < j ==> !Due(calls, i, k)
  }

  ghost predicate Open(calls: seq<Call>, i: nat)
    requires i < |calls|
  {
    Granted(calls, i) && forall k :: i < k < |calls| ==> !Due(calls, i, k)
  }

  /** 30 days or 10 epochs have passed since `time` and `epoch`. */
  predicate Served(time: u64, epoch: u64, nowTime: u64, nowEpoch: u64) {
    nowTime >= time + 30 * 86_400_000 || nowEpoch >= epoch + 10
  }

  /** The lock of a request is the promised one, 30 days or 10 epochs whichever comes first, exactly when
      neither unlock field overflows. One that does is over at once. */
  lemma LockIsPromised(time: u64, epoch: u64, req: UnstakeRequest)
    requires req.unlockTime == WrappingAdd(time, LOCK_MS) && req.unlockEpoch == WrappingAdd(epoch, LOCK_EPOCHS)
    ensures (forall t: u64, e: u64 :: req.Unlocked(t, e) <==> Served(time, epoch, t, e))
       <==> time + LOCK_MS < TWO64 && epoch + LOCK_EPOCHS < TWO64
    ensures time + LOCK_MS >= TWO64 || epoch + LOCK_EPOCHS >= TWO64 ==> req.Unlocked(time, epoch)
  {
    if time + LOCK_MS >= TWO64 || epoch + LOCK_EPOCHS >= TWO64 {
      assert req.Unlocked(time, epoch) && !Served(time, epoch, time, epoch);
    }
  }

  /** A queued request together with the call that made it. */
  datatype Tagged = Tagged(id: nat, req: UnstakeRequest)

  ghost function Requests(ts: seq<Tagged>): seq<UnstakeRequest> {
    if ts == [] then [] else Requests(ts[..|ts| - 1]) + [ts[|ts| - 1].req]
  }

  ghost function Select(ts: seq<Tagged>, time: u64, epoch: u64, unlocked: bool): seq<Tagged> {
    if ts == [] then [] else
      var last := ts[|ts| - 1];
      var before := Select(ts[..|ts| - 1], time, epoch, unlocked);
      if last.req.Unlocked(time, epoch) == unlocked then before + [last] else before
  }

  ghost predicate InCallOrder(ts: seq<Tagged>) {
    forall x, y :: 0 <= x < y < |ts| ==> ts[x].id < ts[y].id
  }

  lemma {:induction false} SelectMembers(ts: seq<Tagged>, time: u64, epoch: u64, unlocked: bool)
    ensures forall x :: x in Select(ts, time, epoch, unlocked) <==> x in ts && x.req.Unlocked(time, epoch) == unlocked
  {
    if ts != [] {
      var init, last := ts[..|ts| - 1], ts[|ts| - 1];
      SplitLast(ts);
      SelectMembers(init, time, epoch, unlocked);
    }
  }

  lemma {:induction false} SelectKeepsOrder(ts: seq<Tagged>, time: u64, epoch: u64, unlocked: bool)
    requires InCallOrder(ts)
    ensures InCallOrder(Select(ts, time, epoch, unlocked))
  {
    if ts != [] {
      var init := ts[..|ts| - 1];
      SelectKeepsOrder(init, time, epoch, unlocked);
      SelectMembers(init, time, epoch, unlocked);
      forall x | x in Select(init, time, epoch, unlocked)
        ensures x.id < ts[|ts| - 1].id
      {
        var i :| 0 <= i < |init| && init[i] == x;
      }
    }
  }

  lemma {:induction false} SelectSplitsQueue(ts: seq<Tagged>, time: u64, epoch: u64)
    ensures Kept(Requests(ts), time, epoch) == Requests(Select(ts, time, epoch, false))
    ensures Total(Requests(Select(ts, time, epoch, true))) < TWO64
        ==> Released(Requests(ts), time, epoch) == Total(Requests(Select(ts, time, epoch, true)))
  {
    if ts != [] {
      var init, last := ts[..|ts| - 1], ts[|ts| - 1];
      SelectSplitsQueue(init, time, epoch);
      QueueSnoc(Requests(init), last.req, time, epoch);
      if last.req.Unlocked(time, epoch) {
        RequestsSnoc(Select(init, time, epoch, true), last);
        assert Select(ts, time, epoch, false) == Select(init, time, epoch, false);
      } else {
        RequestsSnoc(Select(init, time, epoch, false), last);
        assert Select(ts, time, epoch, true) == Select(init, time, epoch, true);
      }
    }
  }

  lemma RequestsSnoc(ts: seq<Tagged>, x: Tagged)
    ensures Requests(ts + [x]) == Requests(ts) + [x.req]
    ensures Total(Requests(ts + [x])) == Total(Requests(ts)) + x.req.amount
  {
    assert (ts + [x])[..|ts|] == ts;
    QueueSnoc(Requests(ts), x.req, 0, 0);
  }

  /** The queue of an address, each request tagged with its call. */
  ghost function Outstanding(calls: seq<Call>, a: Address): seq<Tagged> {
    if calls == [] then [] else
      var j := |calls| - 1;
      var before := Outstanding(calls[..j], a);
      if calls[j].Request? && calls[j].a == a && Granted(calls, j) then before + [Tagged(j, RequestAt(calls, j))]
      else if calls[j].Process? && calls[j].a == a then Select(before, calls[j].time, calls[j].epoch, false)
      else before
  }

  lemma PrefixGranted(calls: seq<Call>, i: nat, j: nat)
    requires i < j <= |calls|
    ensures Granted(calls[..j], i) == Granted(calls, i)
  {
    assert calls[..j][..i] == calls[..i];
  }

  /** Tag `x` stands for a request of `a` that no call has paid yet. */
  ghost predicate OpenRequest(calls: seq<Call>, a: Address, x: Tagged) {
    x.id < |calls| && Open(calls, x.id) && calls[x.id].a == a && x.req == RequestAt(calls, x.id)
  }

  lemma QueueAfter(l: Ledger, c: Call, a: Address)
    ensures Step(l, c).Queue(a) ==
      if c.Request? && c.a == a && c.amount <= l.StakeOf(a) then
        l.Queue(a) + [UnstakeRequest(c.amount, WrappingAdd(c.time, LOCK_MS), WrappingAdd(c.epoch, LOCK_EPOCHS))]
      else if c.Process? && c.a == a then Kept(l.Queue(a), c.time, c.epoch)
      else l.Queue(a)
  {}

  /** Kept requests stay in the order they were made, each with its own amount and lock. */
  lemma {:induction false} QueueIsOutstanding(calls: seq<Call>, a: Address)
    ensures Run(calls).Queue(a) == Requests(Outstanding(calls, a))
    ensures InCallOrder(Outstanding(calls, a))
    ensures forall x :: x in Outstanding(calls, a) ==> x.id < |calls|
  {
    if calls != [] {
      var j := |calls| - 1;
      var c, before := calls[j], Outstanding(calls[..j], a);
      QueueIsOutstanding(calls[..j], a);
      QueueAfter(Run(calls[..j]), c, a);
      if c.Process? && c.a == a {
        SelectSplitsQueue(before, c.time, c.epoch);
        SelectMembers(before, c.time, c.epoch, false);
        SelectKeepsOrder(before, c.time, c.epoch, false);
      } else if c.Request? && c.a == a && Granted(calls, j) {
        RequestsSnoc(before, Tagged(j, RequestAt(calls, j)));
      }
    }
  }

  /** Exactly the granted requests that no call has paid yet are in the queue. */
  lemma {:induction false} OutstandingIsOpen(calls: seq<Call>, a: Address, x: Tagged)
    ensures x in Outstanding(calls, a) <==> OpenRequest(calls, a, x)
  {
    if calls != [] {
      var j := |calls| - 1;
      OutstandingIsOpen(calls[..j], a, x);
      if x.id < j {
        OlderIsOpen(calls, a, x);
      } else {
        QueueIsOutstanding(calls[..j], a);
        NewestIsOpen(calls, a, x);
      }
    }
  }

  lemma OlderIsOpen(calls: seq<Call>, a: Address, x: Tagged)
    requires x.id < |calls| - 1
    requires x in Outstanding(calls[..|calls| - 1], a) <==> OpenRequest(calls[..|calls| - 1], a, x)
    ensures x in Outstanding(calls, a) <==> OpenRequest(calls, a, x)
  {
    var j := |calls| - 1;
    PrefixGranted(calls, x.id, j);
    OpenPrefix(calls, x.id);
    if calls[j].Process? && calls[j].a == a {
      SelectMembers(Outstanding(calls[..j], a), calls[j].time, calls[j].epoch, false);
    }
  }

  lemma NewestIsOpen(calls: seq<Call>, a: Address, x: Tagged)
    requires calls != [] && x.id >= |calls| - 1
    requires forall y :: y in Outstanding(calls[..|calls| - 1], a) ==> y.id < |calls| - 1
    ensures x in Outstanding(calls, a) <==> OpenRequest(calls, a, x)
  {
    var j := |calls| - 1;
    if calls[j].Process? && calls[j].a == a {
      SelectMembers(Outstanding(calls[..j], a), calls[j].time, calls[j].epoch, false);
    }
  }

  lemma OpenPrefix(calls: seq<Call>, i: nat)
    requires i < |calls| - 1
    ensures Open(calls, i) <==> Open(calls[..|calls| - 1], i) && !Due(calls, i, |calls| - 1)
  {
    var j := |calls| - 1;
    PrefixGranted(calls, i, j);
    if Granted(calls, i) {
      assert forall k :: i < k < j ==> Due(calls[..j], i, k) == Due(calls, i, k);
    }
  }

  /** A processing call pays exactly the requests for which it is the first call to find the lock
      over, in the order they were made. */
  lemma ProcessPaysFirstDue(calls: seq<Call>, j: nat) returns (paid: seq<Tagged>)
    requires j < |calls| && calls[j].Process?
    ensures InCallOrder(paid)
    ensures forall x :: x in paid <==>
              x.id < |calls| && PaidAt(calls, x.id, j) && x.req == RequestAt(calls, x.id)
    ensures Total(Requests(paid)) < TWO64
        ==> Run(calls[..j]).Payout(calls[j].a, calls[j].time, calls[j].epoch) == Total(Requests(paid))
  {
    var queue := Outstanding(calls[..j], calls[j].a);
    paid := Select(queue, calls[j].time, calls[j].epoch, true);
    forall x: Tagged
      ensures x in paid <==> x.id < |calls| && PaidAt(calls, x.id, j) && x.req == RequestAt(calls, x.id)
    {
      SelectedIsPaid(calls, j, x);
    }
    QueueIsOutstanding(calls[..j], calls[j].a);
    SelectKeepsOrder(queue, calls[j].time, calls[j].epoch, true);
    SelectSplitsQueue(queue, calls[j].time, calls[j].epoch);
  }

  lemma SelectedIsPaid(calls: seq<Call>, j: nat, x: Tagged)
    requires j < |calls| && calls[j].Process?
    ensures x in Select(Outstanding(calls[..j], calls[j].a), calls[j].time, calls[j].epoch, true)
       <==> x.id < |calls| && PaidAt(calls, x.id, j) && x.req == RequestAt(calls, x.id)
  {
    var queue := Outstanding(calls[..j], calls[j].a);
    OutstandingIsOpen(calls[..j], calls[j].a, x);
    SelectMembers(queue, calls[j].time, calls[j].epoch, true);
    if x.id < j {
      OpenBefore(calls, x.id, j);
    }
  }

  /** The payout goes to the address of the processing call and to nobody else. */
  lemma ProcessPaysOnlyOwner(calls: seq<Call>, j: nat, b: Address)
    requires j < |calls| && calls[j].Process?
    ensures Run(calls[..j + 1]).Balance(b) ==
            if b == calls[j].a
            then WrappingAdd(Run(calls[..j]).Balance(b), Run(calls[..j]).Payout(b, calls[j].time, calls[j].epoch))
            else Run(calls[..j]).Balance(b)
  {
    assert calls[..j + 1][..j] == calls[..j];
  }

  lemma OpenBefore(calls: seq<Call>, i: nat, j: nat)
    requires i < j < |calls|
    ensures PaidAt(calls, i, j) <==> Open(calls[..j], i) && Due(calls, i, j)
  {
    PrefixGranted(calls, i, j);
    if Granted(calls, i) {
      assert forall k :: i < k < j ==> Due(calls[..j], i, k) == Due(calls, i, k);
    }
  }

  ghost predicate ClockMonotone(calls: seq<Call>) {
    forall i, j :: 0 <= i < j < |calls|
      && (calls[i].Request? || calls[i].Process?) && (calls[j].Request? || calls[j].Process?)
      ==> calls[i].time <= calls[j].time && calls[i].epoch <= calls[j].epoch
  }

  /** Once the clock has passed the lock of a request, the next processing call for its address
      settles it: it is paid by then, and never before its lock is over. */
  lemma FirstCallAfterLockPays(calls: seq<Call>, i: nat, k: nat, j: nat)
    requires i < k <= j < |calls| && Granted(calls, i) && ClockMonotone(calls)
    requires (calls[k].Request? || calls[k].Process?) && LockOver(calls, i, k)
    requires calls[j].Process? && calls[j].a == calls[i].a
    ensures exists p :: i < p <= j && PaidAt(calls, i, p) && LockOver(calls, i, p)
  {
    var p := i + 1;
    while !Due(calls, i, p)
      invariant i < p <= j && forall q :: i < q < p ==> !Due(calls, i, q)
      decreases j - p
    {
      assert LockOver(calls, i, j);
      p := p + 1;
    }
    assert PaidAt(calls, i, p);
  }
}
