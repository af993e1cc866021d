/** What insert asks of a transaction, rule by rule, and what every transaction it ever accepted meets. */
module Rules {
  import opened Core
  import opened Ledgers
  import opened Conflicts
  import opened Dags
  import opened History
  import opened Concurrent
  import opened Alongside

  // ---- The rules -----------------------------------------------------------------------------------

  predicate IsZero(h: TxHash) { |h.bytes| == 32 && forall i :: 0 <= i < 32 ==> h.bytes[i] == 0 }

  predicate GenesisForm(tx: Transaction) { tx.txType == Genesis && IsZero(tx.parent1) && IsZero(tx.parent2) }

  /** The sender owns the key, the signature is right, a transfer moves something to somebody else, and the
      fee is at least 0.01 RLY but for genesis transactions. */
  ghost predicate Proper(env: Env, tx: Transaction) {
    && env.derived(tx) == tx.sender && env.verify(tx) == Verified
    && (tx.txType == Transfer ==> tx.amount > 0 && tx.sender != tx.receiver)
    && (tx.fee >= 1_000_000 || GenesisForm(tx))
  }

  /** A rule and the error for breaking it. */
  datatype Rule = Rule(holds: bool, error: Error)

  ghost function FirstBroken(rules: seq<Rule>): Option<Error> {
    if rules == [] then None else if !rules[0].holds then Some(rules[0].error) else FirstBroken(rules[1..])
  }

  ghost function TransactionRules(env: Env, tx: Transaction): seq<Rule> {
    [Rule(env.derived(tx) == tx.sender, InvalidTransaction),
     Rule(env.verify(tx) != BadKey, Crypto),
     Rule(env.verify(tx) != BadSignature, InvalidSignature),
     Rule(tx.txType == Transfer ==> tx.amount > 0, InvalidTransaction),
     Rule(tx.txType == Transfer ==> tx.sender != tx.receiver, InvalidTransaction),
     Rule(tx.fee >= 1_000_000 || GenesisForm(tx), InvalidTransaction)]
  }

  /** The rules about the state a run has reached: balance, nodes, the supply as what was minted and not
      burned, and the nonce as the number of transactions the sender has in the history. */
  ghost function StateRules(env: Env, r: Run, tx: Transaction): seq<Rule> {
    var balance, nodes, cost := r.dag.ledger.Balance(tx.sender), r.dag.nodes, tx.amount + tx.fee;
    [Rule(cost <= 0xFFFF_FFFF_FFFF_FFFF, InvalidTransaction),
     Rule(cost <= balance, if cost < TWO64 then InsufficientBalance(balance, cost) else InvalidTransaction),
     Rule(env.hash(tx) !in nodes, InvalidTransaction),
     Rule(GenesisForm(tx) || tx.parent1 in nodes, InvalidParent(tx.parent1)),
     Rule(GenesisForm(tx) || tx.parent2 in nodes, InvalidParent(tx.parent2)),
     Rule(r.minted - r.burned + tx.amount <= 2_500_000_000_000_000_000, SupplyCapExceeded),
     Rule(tx.nonce == |SentBy(r.past, tx.sender)| + 1, DuplicateNonce(tx.nonce))]
  }

  lemma ZeroIs(h: TxHash)
    ensures h == ZERO_HASH <==> IsZero(h)
  {
    if IsZero(h) {
      assert h.bytes == Zeros(32);
    }
  }

  lemma GenesisIs(tx: Transaction)
    ensures tx.IsGenesis() <==> GenesisForm(tx)
  {
    ZeroIs(tx.parent1);
    ZeroIs(tx.parent2);
  }

  lemma Unbroken(rules: seq<Rule>)
    requires rules != []
    ensures FirstBroken(rules) == if rules[0].holds then FirstBroken(rules[1..]) else Some(rules[0].error)
  {}

  /** The guard of insert reports the first of these rules that is broken, and passes proper transactions. */
  lemma ValidationIsFirstBroken(env: Env, tx: Transaction)
    ensures env.Validation(tx) == FirstBroken(TransactionRules(env, tx))
    ensures env.Validation(tx) == None <==> Proper(env, tx)
  {
    GenesisIs(tx);
    var rules := TransactionRules(env, tx);
    forall k | 0 <= k < 6 {
      Unbroken(rules[k..]);
    }
    assert rules[0..] == rules && rules[6..] == [];
    assert forall k :: 0 <= k < 6 ==> rules[k..][1..] == rules[k + 1..];
  }

  lemma {:induction false} FirstBrokenOf(a: seq<Rule>, b: seq<Rule>)
    ensures FirstBroken(a + b) == if FirstBroken(a).Some? then FirstBroken(a) else FirstBroken(b)
  {
    if a == [] {
      assert a + b == b;
    } else {
      FirstBrokenOf(a[1..], b);
      assert (a + b)[1..] == a[1..] + b;
    }
  }

  lemma StateRulesOne(env: Env, r: Run, tx: Transaction)
    ensures var s := StateRules(env, r, tx);
            FirstBroken(s) == if !s[0].holds then Some(s[0].error) else if !s[1].holds then Some(s[1].error)
              else if !s[2].holds then Some(s[2].error) else if !s[3].holds then Some(s[3].error)
              else if !s[4].holds then Some(s[4].error) else if !s[5].holds then Some(s[5].error)
              else if !s[6].holds then Some(s[6].error) else None
  {
    var rules := StateRules(env, r, tx);
    forall k | 0 <= k < 7 {
      Unbroken(rules[k..]);
    }
    assert rules[0..] == rules && rules[7..] == [];
    assert forall k :: 0 <= k < 7 ==> rules[k..][1..] == rules[k + 1..];
  }

  /** The supply check sees what was minted and not burned. */
  lemma SupplyIs(r: Run, amount: u64)
    requires Balanced(r) && r.minted < TWO64
    ensures SaturatingAdd(r.dag.ledger.Circulating() % TWO64, amount) > TOTAL_SUPPLY
       <==> r.minted - r.burned + amount > 2_500_000_000_000_000_000
  {}

  lemma ConflictIs(env: Env, r: Run, tx: Transaction)
    requires Indexed(env, r, tx.sender) && tx.amount + tx.fee <= r.dag.ledger.Balance(tx.sender)
    ensures tx.nonce == |SentBy(r.past, tx.sender)| + 1 ==>
              && Check(r.dag.committed, tx, r.dag.ledger.Balance(tx.sender), 0).NoConflict?
              && tx.nonce == r.dag.ledger.Nonce(tx.sender) + 1
    ensures tx.nonce != |SentBy(r.past, tx.sender)| + 1 ==> tx.nonce != r.dag.ledger.Nonce(tx.sender) + 1
    ensures !Check(r.dag.committed, tx, r.dag.ledger.Balance(tx.sender), 0).OverSpend?
  {}

  lemma RefusalIs(env: Env, r: Run, tx: Transaction)
    requires Balanced(r) && Indexed(env, r, tx.sender) && r.minted < TWO64
    ensures Refusal(env, r.dag, tx) == FirstBroken(TransactionRules(env, tx) + StateRules(env, r, tx))
  {
    FirstBrokenOf(TransactionRules(env, tx), StateRules(env, r, tx));
    ValidationIsFirstBroken(env, tx);
    StateRulesOne(env, r, tx);
    GenesisIs(tx);
    SupplyIs(r, tx.amount);
    if tx.amount + tx.fee <= r.dag.ledger.Balance(tx.sender) {
      ConflictIs(env, r, tx);
    }
  }

  /** Over every run insert refuses a transaction with the error of the first rule it breaks, and accepts it
      if it breaks none. */
  lemma RefusedByFirstBroken(env: Env, ops: seq<Op>, tx: Transaction)
    requires Execute(env, ops).minted < TWO64
    ensures var r := Execute(env, ops);
            Refusal(env, r.dag, tx) == FirstBroken(TransactionRules(env, tx) + StateRules(env, r, tx))
  {
    RunBalanced(env, ops);
    RunIndexed(env, ops, tx.sender);
    RefusalIs(env, Execute(env, ops), tx);
  }

  // ---- Everything ever accepted ------------------------------------------------------------------

  /** Whatever came into the history through insert is proper. */
  ghost predicate AllProper(env: Env, past: seq<Past>) {
    forall i :: 0 <= i < |past| && !past[i].minted ==> Proper(env, past[i].tx)
  }

  lemma {:induction false} RunIsProper(env: Env, ops: seq<Op>)
    ensures AllProper(env, Execute(env, ops).past)
  {
    if ops != [] {
      var op := ops[|ops| - 1];
      RunIsProper(env, ops[..|ops| - 1]);
      if op.Submit? {
        ValidationIsFirstBroken(env, op.tx);
      }
    }
  }

  ghost predicate CallProper(env: Env, c: Call) { Priced(c.pc) ==> Proper(env, c.tx) }

  ghost predicate WorldProper(env: Env, w: World) {
    AllProper(env, w.base.run.past) && forall t :: t in w.base.calls ==> CallProper(env, w.base.calls[t])
  }

  lemma CheckKeepsProper(env: Env, d: Dag, locked: bool, c: Call, supplyOk: bool)
    requires Checking(c.pc) && CallProper(env, c)
    ensures CallProper(env, CheckCall(env, d, locked, c, supplyOk))
  {
    ValidationIsFirstBroken(env, c.tx);
    assert CheckCall(env, d, locked, c, supplyOk).tx == c.tx;
  }

  lemma PayKeepsProper(env: Env, l: Ledger, c: Call)
    requires Paying(c.pc) && CallProper(env, c)
    ensures CallProper(env, PayCall(l, c))
  {}

  lemma TickKeepsProper(env: Env, w: World, t: Tid, supplyOk: bool)
    requires WorldProper(env, w) && t in w.base.calls
    ensures WorldProper(env, Act(env, w, Insert(Tick(t, supplyOk))))
  {
    var s, c := w.base, w.base.calls[t];
    TickFrame(env, s, t, supplyOk);
    if Checking(c.pc) {
      CheckKeepsProper(env, s.Dag(), c.tx.sender in s.locks, c, supplyOk);
    } else if Paying(c.pc) {
      PayKeepsProper(env, s.Dag().ledger, c);
    } else {
      LinkAdvances(env, s.Dag().nodes, s.Dag().maxDepth, c);
    }
  }

  lemma OtherKeepsProper(env: Env, w: World, b: Turn)
    requires WorldProper(env, w) && !b.Insert?
    ensures WorldProper(env, Act(env, w, b))
  {
    var after := Act(env, w, b);
    assert after.base.calls == w.base.calls;
    assert after.base.run.past == w.base.run.past
        || (b.Issue? && after.base.run.past == w.base.run.past + [Past(b.tx, true)]);
  }

  /** Also when inserts interleave with each other and with everything else. */
  lemma {:induction false} UnfoldIsProper(env: Env, ops: seq<Op>, turns: seq<Turn>)
    ensures WorldProper(env, Unfold(env, ops, turns))
  {
    if turns == [] {
      RunIsProper(env, ops);
    } else {
      var w, b := Unfold(env, ops, turns[..|turns| - 1]), turns[|turns| - 1];
      UnfoldIsProper(env, ops, turns[..|turns| - 1]);
      if !b.Insert? {
        OtherKeepsProper(env, w, b);
      } else if b.e.Tick? && b.e.t in w.base.calls {
        TickKeepsProper(env, w, b.e.t, b.e.supplyOk);
      }
    }
  }

  ghost function Inserts(events: seq<Event>): seq<Turn> {
    if events == [] then [] else Inserts(events[..|events| - 1]) + [Insert(events[|events| - 1])]
  }

  /** Interleavings of inserts alone are among those of everything. */
  lemma {:induction false} InsertsUnfold(env: Env, ops: seq<Op>, events: seq<Event>)
    ensures Unfold(env, ops, Inserts(events)) == World(Interleave(env, ops, events), map[])
  {
    if events != [] {
      var init, turns := events[..|events| - 1], Inserts(events);
      InsertsUnfold(env, ops, init);
      assert turns[..|turns| - 1] == Inserts(init);
    }
  }

  lemma InterleaveIsProper(env: Env, ops: seq<Op>, events: seq<Event>)
    ensures AllProper(env, Interleave(env, ops, events).run.past)
  {
    UnfoldIsProper(env, ops, Inserts(events));
    InsertsUnfold(env, ops, events);
  }
}
