/** What concurrent inserts leave behind in the ledger: every balance is the one the history accounts
    for, and the results the calls report are those of the history. */
module Settlement {
  import opened Core
  import opened Sums
  import opened Ledgers
  import opened Dags
  import opened History
  import opened Concurrent
  import opened Presence
  import opened Quiescence

  // ---- Balances ----------------------------------------------------------------------------------

  /** What the transactions from position `n` on move into the balance of `a`. */
  ghost function Moved(past: seq<Past>, n: nat, a: Address): int {
    if |past| <= n then 0 else
      var tx := past[|past| - 1].tx;
      Moved(past[..|past| - 1], n, a)
        + (if tx.receiver == a then tx.amount else 0) - (if tx.sender == a then Need(tx) else 0)
  }

  lemma MovedSnoc(past: seq<Past>, p: Past, n: nat, a: Address)
    requires n <= |past|
    ensures Moved(past + [p], n, a)
         == Moved(past, n, a)
            + (if p.tx.receiver == a then p.tx.amount else 0) - (if p.tx.sender == a then Need(p.tx) else 0)
  {
    assert (past + [p])[..|past|] == past;
  }

  ghost function OwedTo(c: Call, a: Address): nat { if c.tx.receiver == a then Owed(c) else 0 }

  ghost function FlightTo(calls: Calls, a: Address): map<Tid, nat> {
    map t | t in calls :: OwedTo(calls[t], a)
  }

  lemma FlightToUpdate(calls: Calls, t: Tid, c: Call, a: Address)
    ensures Sum(FlightTo(calls[t := c], a))
         == Sum(FlightTo(calls, a)) - (if t in calls then OwedTo(calls[t], a) else 0) + OwedTo(c, a)
  {
    assert FlightTo(calls[t := c], a) == FlightTo(calls, a)[t := OwedTo(c, a)];
    SumUpdate(FlightTo(calls, a), t, OwedTo(c, a));
  }

  /** The balance of `a`, with what is on its way to it, is what it was at the start and what the
      history since then has moved. */
  ghost predicate Accounted(s: State, start: Ledger, n: nat, a: Address) {
    && n <= |s.run.past|
    && s.Dag().ledger.Balance(a) + Sum(FlightTo(s.calls, a)) == start.Balance(a) + Moved(s.run.past, n, a)
    && s.Dag().ledger.stakes == start.stakes && s.Dag().ledger.unstakes == start.unstakes
  }

  /** A step that pays nobody. */
  lemma QuietAccounted(s: State, after: State, t: Tid, c: Call, start: Ledger, n: nat, a: Address)
    requires Accounted(s, start, n, a) && t in s.calls && after.calls == s.calls[t := c]
    requires OwedTo(c, a) == OwedTo(s.calls[t], a) && after.run.past == s.run.past
    requires var l, l' := s.Dag().ledger, after.Dag().ledger;
             l'.Balance(a) == l.Balance(a) && l'.stakes == l.stakes && l'.unstakes == l.unstakes
    ensures Accounted(after, start, n, a)
  {
    FlightToUpdate(s.calls, t, c, a);
  }

  /** What the compare-exchange does: the debit together with the history entry, or nothing. */
  ghost predicate SwapMove(s: State, after: State, t: Tid)
    requires t in s.calls
  {
    var c, l := s.calls[t], s.Dag().ledger;
    && t in after.calls && after.calls == s.calls[t := after.calls[t]]
    && if after.calls[t].pc.CreditReceiver? then
         && after.calls[t].tx == c.tx && Need(c.tx) <= l.Balance(c.tx.sender)
         && after.Dag().ledger == Store(l, c.tx.sender, l.Balance(c.tx.sender) - Need(c.tx))
         && after.run.past == s.run.past + [Past(c.tx, false)]
       else after.calls[t].pc.LoadBalance? && after.Dag().ledger == l && after.run.past == s.run.past
  }

  lemma SwapEffect(env: Env, s: State, t: Tid)
    requires t in s.calls && CallOk(env, s, t) && s.calls[t].pc.SwapBalance?
    ensures SwapMove(s, PayStep(env, s, t), t)
  {}

  lemma DebitAccounted(s: State, after: State, t: Tid, start: Ledger, n: nat, a: Address)
    requires Accounted(s, start, n, a) && t in s.calls && s.calls[t].pc.SwapBalance? && SwapMove(s, after, t)
    ensures Accounted(after, start, n, a)
  {
    if after.calls[t].pc.CreditReceiver? {
      PaidAccounted(s, after, t, after.calls[t], start, n, a);
    } else {
      QuietAccounted(s, after, t, after.calls[t], start, n, a);
    }
  }

  lemma PaidAccounted(s: State, after: State, t: Tid, c: Call, start: Ledger, n: nat, a: Address)
    requires Accounted(s, start, n, a) && t in s.calls && after.calls == s.calls[t := c]
    requires Owed(s.calls[t]) == 0 && c.pc.CreditReceiver? && after.run.past == s.run.past + [Past(c.tx, false)]
    requires var l := s.Dag().ledger;
             Need(c.tx) <= l.Balance(c.tx.sender)
             && after.Dag().ledger == Store(l, c.tx.sender, l.Balance(c.tx.sender) - Need(c.tx))
    ensures Accounted(after, start, n, a)
  {
    FlightToUpdate(s.calls, t, c, a);
    MovedSnoc(s.run.past, Past(c.tx, false), n, a);
  }

  lemma CreditAccounted(env: Env, s: State, t: Tid, start: Ledger, n: nat, a: Address)
    requires Accounted(s, start, n, a) && t in s.calls && Conserved(s) && s.calls[t].pc.CreditReceiver?
    ensures Accounted(PayStep(env, s, t), start, n, a)
  {
    var c, l, after := s.calls[t], s.Dag().ledger, PayStep(env, s, t);
    CreditConserves(env, s, t);
    CreditAdds(l, c.tx.receiver, c.tx.amount);
    assert after.Dag().ledger == l.Credit(c.tx.receiver, c.tx.amount);
    FlightToUpdate(s.calls, t, after.calls[t], a);
  }

  lemma OtherPayAccounted(env: Env, s: State, t: Tid, start: Ledger, n: nat, a: Address)
    requires Accounted(s, start, n, a) && t in s.calls && s.calls[t].pc in {LoadBalance, BumpNonce, CommitNonce}
    ensures Accounted(PayStep(env, s, t), start, n, a)
  {
    QuietAccounted(s, PayStep(env, s, t), t, PayStep(env, s, t).calls[t], start, n, a);
  }

  lemma TickAccounted(env: Env, s: State, t: Tid, supplyOk: bool, start: Ledger, n: nat, a: Address)
    requires Accounted(s, start, n, a) && t in s.calls && CallOk(env, s, t) && Conserved(s)
    ensures Accounted(Next(env, s, Tick(t, supplyOk)), start, n, a)
  {
    match s.calls[t].pc
    case SwapBalance(_, _) =>
      SwapEffect(env, s, t);
      DebitAccounted(s, PayStep(env, s, t), t, start, n, a);
    case CreditReceiver => CreditAccounted(env, s, t, start, n, a);
    case LoadBalance => OtherPayAccounted(env, s, t, start, n, a);
    case BumpNonce => OtherPayAccounted(env, s, t, start, n, a);
    case CommitNonce => OtherPayAccounted(env, s, t, start, n, a);
    case _ =>
      TickFrame(env, s, t, supplyOk);
      OwesNothingElsewhere(env, s, t, supplyOk);
      FramedAccounted(s, Next(env, s, Tick(t, supplyOk)), t, start, n, a);
  }

  lemma FramedAccounted(s: State, after: State, t: Tid, start: Ledger, n: nat, a: Address)
    requires Accounted(s, start, n, a) && t in s.calls && Framed(s, after, t) && Owed(after.calls[t]) == 0
    requires s.calls[t].pc !in {LoadBalance, CreditReceiver, BumpNonce} && !s.calls[t].pc.SwapBalance?
    ensures Accounted(after, start, n, a)
  {
    QuietAccounted(s, after, t, after.calls[t], start, n, a);
  }

  /** Between any two steps of any interleaving, every balance is the starting one plus what the
      history since then has moved, less the credits still on their way. */
  lemma {:induction false} BalancesAccounted(env: Env, ops: seq<Op>, events: seq<Event>, a: Address)
    requires Execute(env, ops).minted < TWO64
    ensures var start := Execute(env, ops);
            Accounted(Interleave(env, ops, events), start.dag.ledger, |start.past|, a)
  {
    var start := Execute(env, ops);
    if events == [] {
      assert FlightTo(map[], a) == map[];
    } else {
      var s, e := Interleave(env, ops, events[..|events| - 1]), events[|events| - 1];
      BalancesAccounted(env, ops, events[..|events| - 1], a);
      InterleaveKeepsInv(env, ops, events[..|events| - 1]);
      if e.Tick? && e.t in s.calls {
        TickAccounted(env, s, e.t, e.supplyOk, start.dag.ledger, |start.past|, a);
      } else if e.Begin? && e.t !in s.calls {
        FlightToUpdate(s.calls, e.t, Next(env, s, e).calls[e.t], a);
      }
    }
  }

  /** Once every call has returned, balances are exactly what the history accounts for. */
  lemma ReturnedBalances(env: Env, ops: seq<Op>, events: seq<Event>, a: Address)
    requires Execute(env, ops).minted < TWO64 && AllReturned(Interleave(env, ops, events).calls)
    ensures var start, s := Execute(env, ops), Interleave(env, ops, events);
            && |start.past| <= |s.run.past|
            && s.Dag().ledger.Balance(a) == start.dag.ledger.Balance(a) + Moved(s.run.past, |start.past|, a)
  {
    BalancesAccounted(env, ops, events, a);
    SumOfZeros(FlightTo(Interleave(env, ops, events).calls, a));
  }

  // ---- Results -----------------------------------------------------------------------------------

  /** The call has debited its sender, or has finished reporting that it did. */
  ghost predicate Debited(c: Call) { CountPending(c.pc) || (Done(c.pc) && c.result.Ok?) }

  ghost predicate CallHonest(env: Env, past: seq<Past>, n: nat, c: Call) {
    && (Debited(c) ==> Joined(past, n, c.tx))
    && (Undebited(c.pc) ==> c.result.Err?)
    && (Done(c.pc) && c.result.Ok? ==> c.result == Ok(env.hash(c.tx)))
  }

  ghost predicate ByCall(calls: Calls, tx: Transaction) {
    exists t :: t in calls && Debited(calls[t]) && calls[t].tx == tx
  }

  /** Calls report success exactly for what they put into the history, and nothing else got there. */
  ghost predicate Honest(env: Env, past: seq<Past>, calls: Calls, n: nat) {
    && n <= |past|
    && (forall t :: t in calls ==> CallHonest(env, past, n, calls[t]))
    && (forall i :: n <= i < |past| ==> ByCall(calls, past[i].tx))
  }

  lemma HonestStep(env: Env, past: seq<Past>, calls: Calls, n: nat, t: Tid, c: Call, past': seq<Past>)
    requires Honest(env, past, calls, n) && t in calls && c.tx == calls[t].tx && CallHonest(env, past', n, c)
    requires Debited(calls[t]) ==> Debited(c)
    requires past' == past || (past' == past + [Past(c.tx, false)] && Debited(c))
    ensures Honest(env, past', calls[t := c], n)
  {
    var after := calls[t := c];
    forall u | u in calls && u != t
      ensures CallHonest(env, past', n, calls[u])
    {
      JoinedSnoc(past, Past(c.tx, false), n, calls[u].tx);
    }
    forall i | n <= i < |past'|
      ensures ByCall(after, past'[i].tx)
    {
      if i < |past| {
        assert ByCall(calls, past[i].tx);
        var u :| u in calls && Debited(calls[u]) && calls[u].tx == past[i].tx;
        assert Debited(after[u]) && after[u].tx == past[i].tx;
      } else {
        assert Debited(after[t]) && after[t].tx == past'[i].tx;
      }
    }
  }

  lemma CheckHonest(env: Env, d: Dag, locked: bool, c: Call, supplyOk: bool)
    requires Checking(c.pc) && c.result.Err?
    ensures var c' := CheckCall(env, d, locked, c, supplyOk);
            c'.tx == c.tx && c'.result.Err? && !CountPending(c'.pc)
  {}

  lemma PayHonest(l: Ledger, c: Call)
    requires Paying(c.pc) && (Undebited(c.pc) ==> c.result.Err?)
    ensures var c' := PayCall(l, c);
            && c'.tx == c.tx && (Undebited(c'.pc) || Done(c'.pc) ==> c'.result.Err?)
            && (CommitPending(c.pc) ==> CountPending(c'.pc))
            && (CountPending(c'.pc) && Undebited(c.pc) ==> c.pc.SwapBalance? && l.Balance(c.tx.sender) == c.pc.seen)
  {}

  lemma LinkHonest(env: Env, nodes: Nodes, maxDepth: nat, c: Call)
    requires Linking(c.pc)
    ensures var c' := LinkCall(env, nodes, maxDepth, c);
            && c'.tx == c.tx && Linking(c'.pc) && (Debited(c) <==> Debited(c'))
            && (Done(c'.pc) ==> c'.result == if !Done(c.pc) then Ok(env.hash(c.tx)) else c.result)
  {
    LinkAdvances(env, nodes, maxDepth, c);
  }

  lemma TickHonest(env: Env, s: State, t: Tid, supplyOk: bool, n: nat)
    requires Honest(env, s.run.past, s.calls, n) && t in s.calls
    ensures var after := Next(env, s, Tick(t, supplyOk)); Honest(env, after.run.past, after.calls, n)
  {
    var c, d, after := s.calls[t], s.Dag(), Next(env, s, Tick(t, supplyOk));
    assert CallHonest(env, s.run.past, n, c);
    TickFrame(env, s, t, supplyOk);
    if Checking(c.pc) {
      CheckHonest(env, d, c.tx.sender in s.locks, c, supplyOk);
    } else if Paying(c.pc) {
      PayHonest(d.ledger, c);
      JoinedSnoc(s.run.past, Past(c.tx, false), n, c.tx);
    } else {
      LinkHonest(env, d.nodes, d.maxDepth, c);
    }
    HonestStep(env, s.run.past, s.calls, n, t, after.calls[t], after.run.past);
  }

  lemma {:induction false} ResultsMatch(env: Env, ops: seq<Op>, events: seq<Event>)
    ensures var s := Interleave(env, ops, events); Honest(env, s.run.past, s.calls, |Execute(env, ops).past|)
  {
    if events != [] {
      var s, e := Interleave(env, ops, events[..|events| - 1]), events[|events| - 1];
      ResultsMatch(env, ops, events[..|events| - 1]);
      if e.Tick? && e.t in s.calls {
        TickHonest(env, s, e.t, e.supplyOk, |Execute(env, ops).past|);
      } else if e.Begin? && e.t !in s.calls {
        BeginHonest(env, s.run.past, s.calls, |Execute(env, ops).past|, e.t, Next(env, s, e).calls[e.t]);
      }
    }
  }

  lemma BeginHonest(env: Env, past: seq<Past>, calls: Calls, n: nat, t: Tid, c: Call)
    requires Honest(env, past, calls, n) && t !in calls && c.pc.PreCheck? && c.result.Err?
    ensures Honest(env, past, calls[t := c], n)
  {
    var after := calls[t := c];
    forall i | n <= i < |past|
      ensures ByCall(after, past[i].tx)
    {
      var u :| u in calls && Debited(calls[u]) && calls[u].tx == past[i].tx;
      assert Debited(after[u]) && after[u].tx == past[i].tx;
    }
  }

  // ---- One call for each history entry -----------------------------------------------------------

  /** No two calls have debited for the same transaction, and what joins the history is not minted. */
  ghost predicate OneEach(past: seq<Past>, calls: Calls, n: nat) {
    && (forall i :: n <= i < |past| ==> !past[i].minted)
    && (forall t, u :: t in calls && u in calls && t != u && Debited(calls[t]) && Debited(calls[u]) ==>
          calls[t].tx != calls[u].tx)
  }

  /** A transaction about to be debited carries the nonce after all that its sender's history holds. */
  lemma NextNonce(env: Env, s: State, t: Tid)
    requires t in s.calls && CallOk(env, s, t) && s.calls[t].pc.SwapBalance?
    requires IndexedSoFar(env, s, s.calls[t].tx.sender)
    ensures s.calls[t].tx !in SentBy(s.run.past, s.calls[t].tx.sender)
  {
    assert HolderAt(s, s.calls[t].tx.sender) == s.calls[t].pc;
  }

  lemma JoinedIsSent(past: seq<Past>, n: nat, tx: Transaction)
    requires Joined(past, n, tx) && forall i :: n <= i < |past| ==> !past[i].minted
    ensures tx in SentBy(past, tx.sender)
  {
    var i :| n <= i < |past| && past[i].tx == tx;
    var k := SentByPosition(past, i);
  }

  lemma DebitIsNew(env: Env, s: State, t: Tid, u: Tid, n: nat)
    requires t in s.calls && u in s.calls && s.calls[t].pc.SwapBalance? && Debited(s.calls[u])
    requires CallOk(env, s, t) && IndexedSoFar(env, s, s.calls[t].tx.sender)
    requires CallHonest(env, s.run.past, n, s.calls[u]) && OneEach(s.run.past, s.calls, n)
    ensures s.calls[t].tx != s.calls[u].tx
  {
    NextNonce(env, s, t);
    JoinedIsSent(s.run.past, n, s.calls[u].tx);
  }

  lemma StepOneEach(past: seq<Past>, calls: Calls, n: nat, t: Tid, c: Call, past': seq<Past>)
    requires OneEach(past, calls, n) && t in calls && c.tx == calls[t].tx
    requires past' == past || past' == past + [Past(c.tx, false)]
    requires Debited(c) && !Debited(calls[t]) ==> forall u :: u in calls && Debited(calls[u]) ==> calls[u].tx != c.tx
    ensures OneEach(past', calls[t := c], n)
  {}

  /** Only the compare-exchange turns a call into one that has debited. */
  lemma TickDebits(env: Env, s: State, t: Tid, supplyOk: bool, n: nat)
    requires Honest(env, s.run.past, s.calls, n) && t in s.calls
    ensures var after := Next(env, s, Tick(t, supplyOk));
            && t in after.calls && after.calls == s.calls[t := after.calls[t]] && after.calls[t].tx == s.calls[t].tx
            && (after.run.past == s.run.past || after.run.past == s.run.past + [Past(s.calls[t].tx, false)])
            && (Debited(after.calls[t]) && !Debited(s.calls[t]) ==> s.calls[t].pc.SwapBalance?)
  {
    var c, d := s.calls[t], s.Dag();
    assert CallHonest(env, s.run.past, n, c);
    TickFrame(env, s, t, supplyOk);
    if Checking(c.pc) {
      CheckHonest(env, d, c.tx.sender in s.locks, c, supplyOk);
    } else if Paying(c.pc) {
      PayHonest(d.ledger, c);
    } else {
      LinkHonest(env, d.nodes, d.maxDepth, c);
    }
  }

  lemma TickOneEach(env: Env, s: State, t: Tid, supplyOk: bool, n: nat)
    requires Inv(env, s) && Honest(env, s.run.past, s.calls, n) && OneEach(s.run.past, s.calls, n) && t in s.calls
    ensures var after := Next(env, s, Tick(t, supplyOk)); OneEach(after.run.past, after.calls, n)
  {
    var after := Next(env, s, Tick(t, supplyOk));
    TickDebits(env, s, t, supplyOk, n);
    if s.calls[t].pc.SwapBalance? {
      forall u | u in s.calls && Debited(s.calls[u])
        ensures s.calls[u].tx != s.calls[t].tx
      {
        DebitIsNew(env, s, t, u, n);
      }
    }
    StepOneEach(s.run.past, s.calls, n, t, after.calls[t], after.run.past);
  }

  lemma {:induction false} DebitsDiffer(env: Env, ops: seq<Op>, events: seq<Event>)
    requires Execute(env, ops).minted < TWO64
    ensures var s := Interleave(env, ops, events); OneEach(s.run.past, s.calls, |Execute(env, ops).past|)
  {
    if events != [] {
      var init, e := events[..|events| - 1], events[|events| - 1];
      DebitsDiffer(env, ops, init);
      InterleaveKeepsInv(env, ops, init);
      ResultsMatch(env, ops, init);
      if e.Tick? && e.t in Interleave(env, ops, init).calls {
        TickOneEach(env, Interleave(env, ops, init), e.t, e.supplyOk, |Execute(env, ops).past|);
      }
    }
  }

  lemma EntriesDiffer(env: Env, ops: seq<Op>, events: seq<Event>, i: nat, j: nat)
    requires Execute(env, ops).minted < TWO64
    requires |Execute(env, ops).past| <= i < j < |Interleave(env, ops, events).run.past|
    ensures Interleave(env, ops, events).run.past[i].tx != Interleave(env, ops, events).run.past[j].tx
  {
    var past := Interleave(env, ops, events).run.past;
    DebitsDiffer(env, ops, events);
    NoncesConsumedOnce(env, ops, events);
    assert past[i].tx == past[j].tx ==> SameSender(past, i, j);
  }

  /** New history entries hold different transactions, and no two calls have debited for the same one. */
  ghost predicate OneToOne(past: seq<Past>, calls: Calls, n: nat) {
    && (forall i, j :: n <= i < j < |past| ==> past[i].tx != past[j].tx)
    && (forall t, u :: t in calls && u in calls && t != u && Debited(calls[t]) && Debited(calls[u]) ==>
          calls[t].tx != calls[u].tx)
  }

  /** In every reachable state the calls that have debited and the new history entries correspond one to
      one, each success reports the hash of its own entry, and all other results are errors. */
  lemma ResultsHonest(env: Env, ops: seq<Op>, events: seq<Event>)
    ensures var s, n := Interleave(env, ops, events), |Execute(env, ops).past|;
            && Honest(env, s.run.past, s.calls, n)
            && (Execute(env, ops).minted < TWO64 ==> OneToOne(s.run.past, s.calls, n))
  {
    var s, n := Interleave(env, ops, events), |Execute(env, ops).past|;
    ResultsMatch(env, ops, events);
    if Execute(env, ops).minted < TWO64 {
      DebitsDiffer(env, ops, events);
      forall i, j | n <= i < j < |s.run.past|
        ensures s.run.past[i].tx != s.run.past[j].tx
      {
        EntriesDiffer(env, ops, events, i, j);
      }
    }
  }

  ghost predicate Succeeded(env: Env, calls: Calls, t: Tid, tx: Transaction) {
    t in calls && calls[t].tx == tx && calls[t].result == Ok(env.hash(tx))
  }

  ghost predicate OneSuccess(calls: Calls, tx: Transaction) {
    forall t, u :: t in calls && u in calls && calls[t].tx == tx == calls[u].tx ==>
      calls[t].result.Err? || calls[u].result.Err? || t == u
  }

  /** Once every call has returned, a transaction has joined the history if and only if a call on it
      returned its hash. It joined once, and that call is the only one that succeeded, however many
      submissions of the same transaction raced. */
  lemma ReturnedResults(env: Env, ops: seq<Op>, events: seq<Event>, tx: Transaction)
    requires AllReturned(Interleave(env, ops, events).calls)
    ensures var s, n := Interleave(env, ops, events), |Execute(env, ops).past|;
            && (Joined(s.run.past, n, tx) <==> exists t :: Succeeded(env, s.calls, t, tx))
            && (Execute(env, ops).minted < TWO64 ==>
                  OneSuccess(s.calls, tx) && OneToOne(s.run.past, s.calls, n))
  {
    ResultsHonest(env, ops, events);
    var s, n := Interleave(env, ops, events), |Execute(env, ops).past|;
    HonestResults(env, s.run.past, s.calls, n, tx);
  }

  lemma HonestResults(env: Env, past: seq<Past>, calls: Calls, n: nat, tx: Transaction)
    requires Honest(env, past, calls, n) && AllReturned(calls)
    ensures Joined(past, n, tx) <==> exists t :: Succeeded(env, calls, t, tx)
  {
    if i :| n <= i < |past| && past[i].tx == tx {
      assert ByCall(calls, past[i].tx);
      var t :| t in calls && Debited(calls[t]) && calls[t].tx == tx;
      assert CallHonest(env, past, n, calls[t]) && Succeeded(env, calls, t, tx);
    }
    if t :| Succeeded(env, calls, t, tx) {
      assert CallHonest(env, past, n, calls[t]);
    }
  }
}
