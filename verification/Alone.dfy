/** The interleaving model against the sequential one: a call that runs without interruption does
    exactly what `insert` does. */
module Alone {
  import opened Core
  import opened Ledgers
  import opened Conflicts
  import opened Dags
  import opened History
  import opened Concurrent

  /** Repeated ticks of one call. */
  ghost function Repeat(tick: State -> State, s: State, k: nat): State {
    if k == 0 then s else tick(Repeat(tick, s, k - 1))
  }

  ghost predicate Reaches(tick: State -> State, s: State, after: State) {
    exists k: nat :: Repeat(tick, s, k) == after
  }

  lemma {:induction false} RepeatAdd(tick: State -> State, s: State, j: nat, k: nat)
    ensures Repeat(tick, s, j + k) == Repeat(tick, Repeat(tick, s, j), k)
  {
    if k > 0 {
      RepeatAdd(tick, s, j, k - 1);
    }
  }

  lemma ReachesOne(tick: State -> State, s: State)
    ensures Reaches(tick, s, tick(s)) && Reaches(tick, s, s)
  {
    assert Repeat(tick, s, 0) == s;
    assert Repeat(tick, s, 1) == tick(s);
  }

  lemma ReachesTrans(tick: State -> State, a: State, b: State, c: State)
    requires Reaches(tick, a, b) && Reaches(tick, b, c)
    ensures Reaches(tick, a, c)
  {
    var j: nat :| Repeat(tick, a, j) == b;
    var k: nat :| Repeat(tick, b, k) == c;
    RepeatAdd(tick, a, j, k);
  }

  ghost function TickOf(env: Env, t: Tid, ok: bool): State -> State {
    (s: State) => Next(env, s, Tick(t, ok))
  }

  // ---- Between taking the lock and releasing it ----------------------------------------------------

  /** One step of a call that holds its lock: the new run and the new call. */
  ghost function Advance(env: Env, r: Run, c: Call, ok: bool): (Run, Call)
    requires Working(c.pc)
  {
    if Checking(c.pc) then (r, CheckCall(env, r.dag, true, c, ok))
    else if Paying(c.pc) then (PayRun(env, r, c), PayCall(r.dag.ledger, c))
    else (r.(dag := LinkDag(env, r.dag, c)), LinkCall(env, r.dag.nodes, r.dag.maxDepth, c))
  }

  /** `s` with call `t` at `c` and the run at `r`. */
  ghost function At(s: State, t: Tid, r: Run, c: Call): State { State(r, s.locks, s.calls[t := c]) }

  ghost predicate Leads(env: Env, s: State, t: Tid, ok: bool, r: Run, c: Call, r': Run, c': Call) {
    Reaches(TickOf(env, t, ok), At(s, t, r, c), At(s, t, r', c'))
  }

  lemma Advances(env: Env, s: State, t: Tid, ok: bool, r: Run, c: Call)
    requires Working(c.pc)
    ensures var (r', c') := Advance(env, r, c, ok); Next(env, At(s, t, r, c), Tick(t, ok)) == At(s, t, r', c')
  {
    var (r', c') := Advance(env, r, c, ok);
    assert s.calls[t := c][t := c'] == s.calls[t := c'];
  }

  lemma LeadsOne(env: Env, s: State, t: Tid, ok: bool, r: Run, c: Call)
    requires Working(c.pc)
    ensures var (r', c') := Advance(env, r, c, ok); Leads(env, s, t, ok, r, c, r', c')
  {
    Advances(env, s, t, ok, r, c);
    ReachesOne(TickOf(env, t, ok), At(s, t, r, c));
  }

  lemma LeadsTrans(env: Env, s: State, t: Tid, ok: bool, r: Run, c: Call, r1: Run, c1: Call, r2: Run, c2: Call)
    requires Leads(env, s, t, ok, r, c, r1, c1) && Leads(env, s, t, ok, r1, c1, r2, c2)
    ensures Leads(env, s, t, ok, r, c, r2, c2)
  {
    ReachesTrans(TickOf(env, t, ok), At(s, t, r, c), At(s, t, r1, c1), At(s, t, r2, c2));
  }

  lemma LeadsNext(env: Env, s: State, t: Tid, ok: bool, r: Run, c: Call, r1: Run, c1: Call, r2: Run, c2: Call)
    requires Leads(env, s, t, ok, r, c, r1, c1) && Working(c1.pc) && Advance(env, r1, c1, ok) == (r2, c2)
    ensures Leads(env, s, t, ok, r, c, r2, c2)
  {
    LeadsOne(env, s, t, ok, r1, c1);
    LeadsTrans(env, s, t, ok, r, c, r1, c1, r2, c2);
  }

  // ---- The checks ----------------------------------------------------------------------------------

  lemma ChecksOne(env: Env, s: State, t: Tid, ok: bool, r: Run, c: Call)
    requires Checking(c.pc) && Holding(c.pc)
    ensures Leads(env, s, t, ok, r, c, r, CheckCall(env, r.dag, true, c, ok))
  {
    LeadsOne(env, s, t, ok, r, c);
  }

  lemma LeadsCheck(env: Env, s: State, t: Tid, ok: bool, r: Run, c: Call, c1: Call)
    requires Leads(env, s, t, ok, r, c, r, c1) && Checking(c1.pc) && Holding(c1.pc)
    ensures Leads(env, s, t, ok, r, c, r, CheckCall(env, r.dag, true, c1, ok))
  {
    LeadsNext(env, s, t, ok, r, c, r, c1, r, CheckCall(env, r.dag, true, c1, ok));
  }

  ghost function AfterParents(env: Env, nodes: Nodes, c: Call): Call {
    var tx := c.tx;
    if env.hash(tx) in nodes then Fail(c, InvalidTransaction)
    else if !tx.IsGenesis() && tx.parent1 !in nodes then Fail(c, InvalidParent(tx.parent1))
    else if !tx.IsGenesis() && tx.parent2 !in nodes then Fail(c, InvalidParent(tx.parent2))
    else c.(pc := ReadSupply)
  }

  lemma ChecksParents(env: Env, s: State, t: Tid, ok: bool, r: Run, c: Call)
    requires c.pc.FindDuplicate?
    ensures Leads(env, s, t, ok, r, c, r, AfterParents(env, r.dag.nodes, c))
  {
    var tx, nodes := c.tx, r.dag.nodes;
    ChecksOne(env, s, t, ok, r, c);
    if env.hash(tx) !in nodes && !tx.IsGenesis() {
      var c1, c2 := c.(pc := FindParent1), c.(pc := FindParent2);
      LeadsCheck(env, s, t, ok, r, c, c1);
      if tx.parent1 in nodes {
        LeadsCheck(env, s, t, ok, r, c, c2);
      }
    }
  }

  ghost function AfterFunds(env: Env, d: Dag, c: Call, ok: bool): Call {
    var balance := d.ledger.Balance(c.tx.sender);
    if !ok then Fail(c, SupplyCapExceeded)
    else if balance < c.need then Fail(c, InsufficientBalance(balance, c.need))
    else c.(pc := CheckConflict, balance := balance)
  }

  lemma ChecksFunds(env: Env, s: State, t: Tid, ok: bool, r: Run, c: Call)
    requires c.pc.ReadSupply?
    ensures Leads(env, s, t, ok, r, c, r, AfterFunds(env, r.dag, c, ok))
  {
    ChecksOne(env, s, t, ok, r, c);
    if ok {
      var c1 := c.(pc := ReadBalance);
      LeadsCheck(env, s, t, ok, r, c, c1);
    }
  }

  ghost function AfterNonces(env: Env, d: Dag, c: Call): Call {
    var tx := c.tx;
    match Check(d.committed, tx, c.balance, 0)
    case NonceConflict(_) => Fail(c, DuplicateNonce(tx.nonce))
    case OverSpend(_, _) => Fail(c, Core.DoubleSpend(env.hash(tx)))
    case NoConflict =>
      if tx.nonce != d.ledger.Nonce(tx.sender) + 1 then Fail(c, DuplicateNonce(tx.nonce)) else c.(pc := LoadBalance)
  }

  lemma ChecksNonces(env: Env, s: State, t: Tid, ok: bool, r: Run, c: Call)
    requires c.pc.CheckConflict?
    ensures Leads(env, s, t, ok, r, c, r, AfterNonces(env, r.dag, c))
  {
    ChecksOne(env, s, t, ok, r, c);
    if Check(r.dag.committed, c.tx, c.balance, 0) == NoConflict {
      var c1 := c.(pc := CheckNonce);
      LeadsCheck(env, s, t, ok, r, c, c1);
    }
  }

  // ---- The payment ---------------------------------------------------------------------------------

  ghost function Paid(env: Env, r: Run, tx: Transaction): Run
    requires tx.amount + tx.fee < TWO64
  {
    var d := r.dag;
    Run(d.(ledger := Pay(d.ledger, tx), committed := d.committed[(tx.sender, tx.nonce) := env.hash(tx)]),
        r.past + [Past(tx, false)], r.minted, r.burned + tx.fee)
  }

  lemma LeadsPay(env: Env, s: State, t: Tid, ok: bool, r: Run, c: Call, r1: Run, c1: Call, r2: Run, c2: Call)
    requires Leads(env, s, t, ok, r, c, r1, c1) && Paying(c1.pc)
    requires r2 == PayRun(env, r1, c1) && c2 == PayCall(r1.dag.ledger, c1)
    ensures Leads(env, s, t, ok, r, c, r2, c2)
  {
    LeadsNext(env, s, t, ok, r, c, r1, c1, r2, c2);
  }

  lemma PaysOne(env: Env, s: State, t: Tid, ok: bool, r: Run, c: Call, r1: Run, c1: Call)
    requires Paying(c.pc) && r1 == PayRun(env, r, c) && c1 == PayCall(r.dag.ledger, c)
    ensures Leads(env, s, t, ok, r, c, r1, c1)
  {
    LeadsOne(env, s, t, ok, r, c);
  }

  ghost function AfterDebit(r: Run, tx: Transaction, left: u64): Run {
    Run(r.dag.(ledger := Store(r.dag.ledger, tx.sender, left)), r.past + [Past(tx, false)], r.minted, r.burned + tx.fee)
  }

  /** The compare-exchange succeeds: nobody has touched the balance since. */
  lemma DebitAlone(env: Env, s: State, t: Tid, ok: bool, r: Run, c: Call, left: u64)
    requires c.pc.LoadBalance? && c.need == Need(c.tx) && left == r.dag.ledger.Balance(c.tx.sender) - Need(c.tx)
    ensures Leads(env, s, t, ok, r, c, AfterDebit(r, c.tx, left), c.(pc := CreditReceiver))
  {
    var d, a, balance := r.dag, c.tx.sender, r.dag.ledger.Balance(c.tx.sender);
    var r1 := r.(dag := d.(ledger := Store(d.ledger, a, balance)));
    LoadAlone(env, r, c, balance);
    PaysOne(env, s, t, ok, r, c, r1, c.(pc := SwapBalance(balance, left)));
    SwapAlone(env, r, r1, c, balance, left);
    LeadsPay(env, s, t, ok, r, c, r1, c.(pc := SwapBalance(balance, left)), AfterDebit(r, c.tx, left),
             c.(pc := CreditReceiver));
  }

  lemma LoadAlone(env: Env, r: Run, c: Call, balance: u64)
    requires c.pc.LoadBalance? && c.need <= balance == r.dag.ledger.Balance(c.tx.sender)
    ensures PayRun(env, r, c) == r.(dag := r.dag.(ledger := Store(r.dag.ledger, c.tx.sender, balance)))
    ensures PayCall(r.dag.ledger, c) == c.(pc := SwapBalance(balance, balance - c.need))
  {}

  lemma SwapAlone(env: Env, r: Run, r1: Run, c: Call, balance: u64, left: u64)
    requires r1 == r.(dag := r.dag.(ledger := Store(r.dag.ledger, c.tx.sender, balance)))
    ensures var swap := c.(pc := SwapBalance(balance, left));
            && PayRun(env, r1, swap) == AfterDebit(r, c.tx, left)
            && PayCall(r1.dag.ledger, swap) == c.(pc := CreditReceiver)
  {
    var l, a := r.dag.ledger, c.tx.sender;
    assert l.balances[a := balance][a := left] == l.balances[a := left];
  }

  ghost function AfterCredit(r: Run, tx: Transaction): Run {
    r.(dag := r.dag.(ledger := r.dag.ledger.Credit(tx.receiver, tx.amount).BumpNonce(tx.sender)))
  }

  lemma CreditAlone(env: Env, s: State, t: Tid, ok: bool, r: Run, c: Call)
    requires c.pc.CreditReceiver?
    ensures Leads(env, s, t, ok, r, c, AfterCredit(r, c.tx), c.(pc := CommitNonce))
  {
    var r1 := r.(dag := r.dag.(ledger := r.dag.ledger.Credit(c.tx.receiver, c.tx.amount)));
    PaysOne(env, s, t, ok, r, c, r1, c.(pc := Concurrent.BumpNonce));
    LeadsPay(env, s, t, ok, r, c, r1, c.(pc := Concurrent.BumpNonce), AfterCredit(r, c.tx), c.(pc := CommitNonce));
  }

  lemma CommitAlone(env: Env, s: State, t: Tid, ok: bool, r: Run, c: Call)
    requires c.pc.CommitNonce?
    ensures Leads(env, s, t, ok, r, c,
                  r.(dag := r.dag.(committed := r.dag.committed[(c.tx.sender, c.tx.nonce) := env.hash(c.tx)])),
                  c.(pc := if c.tx.IsGenesis() then LoadMax else ReadDepth1, depth := 0))
  {
    LeadsOne(env, s, t, ok, r, c);
  }

  lemma PayAlone(env: Env, s: State, t: Tid, ok: bool, r: Run, c: Call)
    requires c.pc.LoadBalance? && c.need == Need(c.tx) <= r.dag.ledger.Balance(c.tx.sender)
    ensures Leads(env, s, t, ok, r, c, Paid(env, r, c.tx),
                  c.(pc := if c.tx.IsGenesis() then LoadMax else ReadDepth1, depth := 0))
  {
    var left: u64 := r.dag.ledger.Balance(c.tx.sender) - Need(c.tx);
    var r1 := AfterDebit(r, c.tx, left);
    var r2 := AfterCredit(r1, c.tx);
    DebitAlone(env, s, t, ok, r, c, left);
    CreditAlone(env, s, t, ok, r1, c.(pc := CreditReceiver));
    LeadsTrans(env, s, t, ok, r, c, r1, c.(pc := CreditReceiver), r2, c.(pc := CommitNonce));
    CommitAlone(env, s, t, ok, r2, c.(pc := CommitNonce));
    PaidIs(env, r, c.tx, left);
    LeadsTrans(env, s, t, ok, r, c, r2, c.(pc := CommitNonce), Paid(env, r, c.tx),
               c.(pc := if c.tx.IsGenesis() then LoadMax else ReadDepth1, depth := 0));
  }

  lemma PaidIs(env: Env, r: Run, tx: Transaction, left: u64)
    requires Need(tx) <= r.dag.ledger.Balance(tx.sender) && left == r.dag.ledger.Balance(tx.sender) - Need(tx)
    ensures var r2 := AfterCredit(AfterDebit(r, tx, left), tx);
            r2.(dag := r2.dag.(committed := r2.dag.committed[(tx.sender, tx.nonce) := env.hash(tx)]))
            == Paid(env, r, tx)
  {}

  // ---- The graph -----------------------------------------------------------------------------------

  lemma LinksOne(env: Env, s: State, t: Tid, ok: bool, r: Run, c: Call, d: Dag, c1: Call)
    requires Linking(c.pc) && !Done(c.pc) && d == LinkDag(env, r.dag, c)
    requires c1 == LinkCall(env, r.dag.nodes, r.dag.maxDepth, c)
    ensures Leads(env, s, t, ok, r, c, r.(dag := d), c1)
  {
    LeadsOne(env, s, t, ok, r, c);
  }

  lemma LeadsLink(env: Env, s: State, t: Tid, ok: bool, r: Run, c: Call, r1: Run, c1: Call, d: Dag, c2: Call)
    requires Leads(env, s, t, ok, r, c, r1, c1) && Linking(c1.pc) && !Done(c1.pc)
    requires d == LinkDag(env, r1.dag, c1) && c2 == LinkCall(env, r1.dag.nodes, r1.dag.maxDepth, c1)
    ensures Leads(env, s, t, ok, r, c, r1.(dag := d), c2)
  {
    LeadsNext(env, s, t, ok, r, c, r1, c1, r1.(dag := d), c2);
  }

  lemma ReadDepthAlone(env: Env, s: State, t: Tid, ok: bool, r: Run, c: Call)
    requires c.pc == (if c.tx.IsGenesis() then LoadMax else ReadDepth1) && c.depth == 0
    ensures Leads(env, s, t, ok, r, c, r, c.(pc := LoadMax, depth := NewDepth(r.dag.nodes, c.tx)))
  {
    if c.tx.IsGenesis() {
      ReachesOne(TickOf(env, t, ok), At(s, t, r, c));
    } else {
      var c1 := c.(pc := ReadDepth2, depth := DepthOf(r.dag.nodes, c.tx.parent1));
      LinksOne(env, s, t, ok, r, c, r.dag, c1);
      LeadsLink(env, s, t, ok, r, c, r, c1, r.dag, c.(pc := LoadMax, depth := NewDepth(r.dag.nodes, c.tx)));
    }
  }

  lemma RaiseMaxAlone(env: Env, s: State, t: Tid, ok: bool, r: Run, c: Call)
    requires c.pc.LoadMax?
    ensures Leads(env, s, t, ok, r, c, r.(dag := r.dag.(maxDepth := Max(r.dag.maxDepth, c.depth))),
                  c.(pc := AfterMax(c.tx)))
  {
    if c.depth <= r.dag.maxDepth {
      LinksOne(env, s, t, ok, r, c, r.dag, c.(pc := AfterMax(c.tx)));
    } else {
      var c1, raised := c.(pc := SwapMax(r.dag.maxDepth)), r.dag.(maxDepth := c.depth);
      LinksOne(env, s, t, ok, r, c, r.dag, c1);
      LeadsLink(env, s, t, ok, r, c, r, c1, raised, c.(pc := AfterMax(c.tx)));
    }
  }

  lemma HangBothAlone(env: Env, s: State, t: Tid, ok: bool, r: Run, c: Call)
    requires c.pc.Child1?
    ensures var tx, d := c.tx, r.dag;
            Leads(env, s, t, ok, r, c,
                  r.(dag := d.(nodes :=
                    AddChild(AddChild(d.nodes, tx.parent1, env.hash(tx)), tx.parent2, env.hash(tx)))),
                  c.(pc := Weight1))
  {
    var tx, h, d := c.tx, env.hash(c.tx), r.dag;
    var d1 := d.(nodes := AddChild(d.nodes, tx.parent1, h));
    LinksOne(env, s, t, ok, r, c, d1, c.(pc := Child2));
    LeadsLink(env, s, t, ok, r, c, r.(dag := d1), c.(pc := Child2), d.(nodes := AddChild(d1.nodes, tx.parent2, h)),
              c.(pc := Weight1));
  }

  lemma WeighBothAlone(env: Env, s: State, t: Tid, ok: bool, r: Run, c: Call)
    requires c.pc.Weight1?
    ensures var tx, d := c.tx, r.dag;
            Leads(env, s, t, ok, r, c,
                  r.(dag := d.(nodes := PropagateWeight(PropagateWeight(d.nodes, tx.parent1), tx.parent2))),
                  c.(pc := DropTip1))
  {
    var tx, d := c.tx, r.dag;
    var d1 := d.(nodes := PropagateWeight(d.nodes, tx.parent1));
    LinksOne(env, s, t, ok, r, c, d1, c.(pc := Weight2));
    LeadsLink(env, s, t, ok, r, c, r.(dag := d1), c.(pc := Weight2),
              d.(nodes := PropagateWeight(d1.nodes, tx.parent2)), c.(pc := DropTip1));
  }

  lemma AttachAlone(env: Env, s: State, t: Tid, ok: bool, r: Run, c: Call)
    requires c.pc == AfterMax(c.tx)
    ensures Leads(env, s, t, ok, r, c, r.(dag := r.dag.(nodes := Attach(r.dag.nodes, c.tx, env.hash(c.tx)))),
                  c.(pc := DropTip1))
  {
    if c.tx.IsGenesis() {
      ReachesOne(TickOf(env, t, ok), At(s, t, r, c));
    } else {
      var tx, h, d := c.tx, env.hash(c.tx), r.dag;
      var r1 := r.(dag := d.(nodes := AddChild(AddChild(d.nodes, tx.parent1, h), tx.parent2, h)));
      var r2 := r.(dag := d.(nodes := Attach(d.nodes, tx, h)));
      HangBothAlone(env, s, t, ok, r, c);
      WeighBothAlone(env, s, t, ok, r1, c.(pc := Weight1));
      LeadsTrans(env, s, t, ok, r, c, r1, c.(pc := Weight1), r2, c.(pc := DropTip1));
    }
  }

  lemma DropBothAlone(env: Env, s: State, t: Tid, ok: bool, r: Run, c: Call)
    requires c.pc.DropTip1?
    ensures var tx, d := c.tx, r.dag;
            Leads(env, s, t, ok, r, c, r.(dag := d.(tips := d.tips - {tx.parent1} - {tx.parent2})), c.(pc := AddTip))
  {
    var tx, d := c.tx, r.dag;
    var d1 := d.(tips := d.tips - {tx.parent1});
    LinksOne(env, s, t, ok, r, c, d1, c.(pc := DropTip2));
    LeadsLink(env, s, t, ok, r, c, r.(dag := d1), c.(pc := DropTip2), d.(tips := d.tips - {tx.parent1} - {tx.parent2}),
              c.(pc := AddTip));
  }

  lemma AddNodeAlone(env: Env, s: State, t: Tid, ok: bool, r: Run, c: Call)
    requires c.pc.AddTip?
    ensures var h, d := env.hash(c.tx), r.dag;
            Leads(env, s, t, ok, r, c,
                  r.(dag := d.(nodes := d.nodes[h := Node(c.tx, h, Pending, [], 1, c.depth)], tips := d.tips + {h})),
                  c.(pc := Count))
  {
    var h, d := env.hash(c.tx), r.dag;
    var d1 := d.(tips := d.tips + {h});
    LinksOne(env, s, t, ok, r, c, d1, c.(pc := PutNode));
    LeadsLink(env, s, t, ok, r, c, r.(dag := d1), c.(pc := PutNode),
              d1.(nodes := d.nodes[h := Node(c.tx, h, Pending, [], 1, c.depth)]), c.(pc := Count));
  }

  lemma CountAlone(env: Env, s: State, t: Tid, ok: bool, r: Run, c: Call)
    requires c.pc.Count?
    ensures Leads(env, s, t, ok, r, c, r.(dag := r.dag.(totalCount := r.dag.totalCount + 1)),
                  c.(pc := Release, result := Ok(env.hash(c.tx))))
  {
    LeadsOne(env, s, t, ok, r, c);
  }

  lemma FinishAlone(env: Env, s: State, t: Tid, ok: bool, r: Run, c: Call)
    requires c.pc.DropTip1?
    ensures var tx, h, d := c.tx, env.hash(c.tx), r.dag;
            Leads(env, s, t, ok, r, c,
                  r.(dag := d.(nodes := d.nodes[h := Node(tx, h, Pending, [], 1, c.depth)],
                               tips := d.tips - {tx.parent1} - {tx.parent2} + {h}, totalCount := d.totalCount + 1)),
                  c.(pc := Release, result := Ok(h)))
  {
    var tx, h, d := c.tx, env.hash(c.tx), r.dag;
    var d1 := d.(tips := d.tips - {tx.parent1} - {tx.parent2});
    var d2 := d1.(nodes := d.nodes[h := Node(tx, h, Pending, [], 1, c.depth)], tips := d1.tips + {h});
    DropBothAlone(env, s, t, ok, r, c);
    AddNodeAlone(env, s, t, ok, r.(dag := d1), c.(pc := AddTip));
    LeadsTrans(env, s, t, ok, r, c, r.(dag := d1), c.(pc := AddTip), r.(dag := d2), c.(pc := Count));
    CountAlone(env, s, t, ok, r.(dag := d2), c.(pc := Count));
    LeadsTrans(env, s, t, ok, r, c, r.(dag := d2), c.(pc := Count), r.(dag := d2.(totalCount := d.totalCount + 1)),
               c.(pc := Release, result := Ok(h)));
  }

  // ---- The whole call ------------------------------------------------------------------------------

  ghost function SupplyAllows(d: Dag, tx: Transaction): bool {
    SaturatingAdd(d.ledger.Circulating() % TWO64, tx.amount) <= TOTAL_SUPPLY
  }

  ghost predicate PreChecked(env: Env, d: Dag, tx: Transaction) {
    env.Validates(tx) && Need(tx) < TWO64 && Need(tx) <= d.ledger.Balance(tx.sender)
  }

  ghost function AfterChecks(env: Env, d: Dag, c: Call, ok: bool): Call {
    var c1 := AfterParents(env, d.nodes, c);
    if !c1.pc.ReadSupply? then c1 else
      var c2 := AfterFunds(env, d, c1, ok);
      if !c2.pc.CheckConflict? then c2 else AfterNonces(env, d, c2)
  }

  lemma ChecksAlone(env: Env, s: State, t: Tid, ok: bool, r: Run, c: Call)
    requires c.pc.FindDuplicate?
    ensures Leads(env, s, t, ok, r, c, r, AfterChecks(env, r.dag, c, ok))
  {
    var c1 := AfterParents(env, r.dag.nodes, c);
    ChecksParents(env, s, t, ok, r, c);
    if c1.pc.ReadSupply? {
      var c2 := AfterFunds(env, r.dag, c1, ok);
      ChecksFunds(env, s, t, ok, r, c1);
      LeadsTrans(env, s, t, ok, r, c, r, c1, r, c2);
      if c2.pc.CheckConflict? {
        ChecksNonces(env, s, t, ok, r, c2);
        LeadsTrans(env, s, t, ok, r, c, r, c2, r, AfterNonces(env, r.dag, c2));
      }
    }
  }

  /** Under the lock the checks refuse what `insert` refuses, for the same reason. */
  lemma ChecksAgree(env: Env, d: Dag, c: Call, ok: bool)
    requires c.pc.FindDuplicate? && c.need == Need(c.tx) && ok == SupplyAllows(d, c.tx) && PreChecked(env, d, c.tx)
    ensures var c' := AfterChecks(env, d, c, ok);
            && c'.tx == c.tx && c'.need == c.need
            && match Refusal(env, d, c.tx)
               case Some(e) => c'.pc.Release? && c'.result == Err(e)
               case None => c'.pc.LoadBalance?
  {}

  /** The part of `insert` that comes after the payment. */
  ghost function Linked(env: Env, d: Dag, tx: Transaction): Dag {
    var h, depth := env.hash(tx), NewDepth(d.nodes, tx);
    Dag(d.ledger, d.committed, Attach(d.nodes, tx, h)[h := Node(tx, h, Pending, [], 1, depth)],
        d.tips - {tx.parent1} - {tx.parent2} + {h}, d.totalCount + 1, Max(d.maxDepth, depth))
  }

  lemma PaidThenLinked(env: Env, r: Run, tx: Transaction)
    requires tx.amount + tx.fee < TWO64
    ensures Linked(env, Paid(env, r, tx).dag, tx) == Apply(env, r.dag, tx)
  {}

  /** After the payment, the graph gets what `insert` gives it. */
  lemma LinkAlone(env: Env, s: State, t: Tid, ok: bool, r: Run, c: Call) returns (c': Call)
    requires c.pc == (if c.tx.IsGenesis() then LoadMax else ReadDepth1) && c.depth == 0
    ensures Leads(env, s, t, ok, r, c, r.(dag := Linked(env, r.dag, c.tx)), c')
    ensures c'.tx == c.tx && c'.pc.Release? && c'.result == Ok(env.hash(c.tx))
  {
    var tx, h, d := c.tx, env.hash(c.tx), r.dag;
    var c1 := c.(pc := LoadMax, depth := NewDepth(d.nodes, tx));
    ReadDepthAlone(env, s, t, ok, r, c);
    var r2, c2 := r.(dag := d.(maxDepth := Max(d.maxDepth, c1.depth))), c1.(pc := AfterMax(tx));
    RaiseMaxAlone(env, s, t, ok, r, c1);
    LeadsTrans(env, s, t, ok, r, c, r, c1, r2, c2);
    var r3, c3 := r2.(dag := r2.dag.(nodes := Attach(d.nodes, tx, h))), c2.(pc := DropTip1);
    AttachAlone(env, s, t, ok, r2, c2);
    LeadsTrans(env, s, t, ok, r, c, r2, c2, r3, c3);
    FinishAlone(env, s, t, ok, r3, c3);
    c' := c3.(pc := Release, result := Ok(h));
    LeadsTrans(env, s, t, ok, r, c, r3, c3, r.(dag := Linked(env, d, tx)), c');
  }

  /** A call past its checks pays and links: the DAG becomes what `insert` makes of it. */
  lemma AcceptAlone(env: Env, s: State, t: Tid, ok: bool, r: Run, c: Call) returns (r': Run, c': Call)
    requires c.pc.LoadBalance? && c.need == Need(c.tx) <= r.dag.ledger.Balance(c.tx.sender)
    ensures Leads(env, s, t, ok, r, c, r', c') && r'.dag == Apply(env, r.dag, c.tx)
    ensures c'.tx == c.tx && c'.pc.Release? && c'.result == Ok(env.hash(c.tx))
  {
    var r1, c1 := Paid(env, r, c.tx), c.(pc := if c.tx.IsGenesis() then LoadMax else ReadDepth1, depth := 0);
    PayAlone(env, s, t, ok, r, c);
    c' := LinkAlone(env, s, t, ok, r1, c1);
    r' := r1.(dag := Linked(env, r1.dag, c.tx));
    LeadsTrans(env, s, t, ok, r, c, r1, c1, r', c');
    PaidThenLinked(env, r, c.tx);
  }

  /** From the duplicate check to the release: the DAG and the answer are those of `insert`. */
  lemma UnderLockAlone(env: Env, s: State, t: Tid, ok: bool, r: Run, c: Call) returns (r': Run, c': Call)
    requires c.pc.FindDuplicate? && c.need == Need(c.tx) && ok == SupplyAllows(r.dag, c.tx)
    requires PreChecked(env, r.dag, c.tx)
    ensures Leads(env, s, t, ok, r, c, r', c') && r'.dag == AfterInsert(env, r.dag, c.tx)
    ensures c'.tx == c.tx && c'.pc.Release?
    ensures c'.result == match Refusal(env, r.dag, c.tx) case Some(e) => Err(e) case None => Ok(env.hash(c.tx))
  {
    var c1 := AfterChecks(env, r.dag, c, ok);
    ChecksAlone(env, s, t, ok, r, c);
    ChecksAgree(env, r.dag, c, ok);
    match Refusal(env, r.dag, c.tx)
    case Some(_) => r', c' := r, c1;
    case None =>
      r', c' := AcceptAlone(env, s, t, ok, r, c1);
      LeadsTrans(env, s, t, ok, r, c, r, c1, r', c');
  }

  /** The check before the lock sends the rest of the transactions away. */
  lemma TurnedAway(env: Env, s: State, t: Tid, tx: Transaction, ok: bool)
    requires t !in s.calls && !PreChecked(env, s.Dag(), tx)
    ensures var after := Next(env, Next(env, s, Begin(t, tx)), Tick(t, ok));
            && after.run == s.run && after.locks == s.locks
            && t in after.calls && after.calls == s.calls[t := after.calls[t]] && after.calls[t].pc.Returned?
            && Refusal(env, s.Dag(), tx).Some? && after.calls[t].result == Err(Refusal(env, s.Dag(), tx).value)
  {}

  ghost function AtDuplicateCheck(tx: Transaction): Call
    requires Need(tx) < TWO64
  {
    Call(tx, FindDuplicate, Need(tx), 0, 0, Err(InvalidTransaction))
  }

  lemma AcquireAlone(env: Env, s: State, t: Tid, tx: Transaction, ok: bool)
    requires t !in s.calls && tx.sender !in s.locks && PreChecked(env, s.Dag(), tx)
    ensures Reaches(TickOf(env, t, ok), Next(env, s, Begin(t, tx)),
                    At(s.(locks := s.locks[tx.sender := t]), t, s.run, AtDuplicateCheck(tx)))
  {
    var begun, waiting := Next(env, s, Begin(t, tx)), At(s, t, s.run, AtDuplicateCheck(tx).(pc := Acquire));
    assert Next(env, begun, Tick(t, ok)) == waiting;
    ReachesOne(TickOf(env, t, ok), begun);
    TakesLock(env, s, t, tx, ok);
    ReachesOne(TickOf(env, t, ok), waiting);
    ReachesTrans(TickOf(env, t, ok), begun, waiting,
                 At(s.(locks := s.locks[tx.sender := t]), t, s.run, AtDuplicateCheck(tx)));
  }

  lemma TakesLock(env: Env, s: State, t: Tid, tx: Transaction, ok: bool)
    requires tx.sender !in s.locks && Need(tx) < TWO64
    ensures Next(env, At(s, t, s.run, AtDuplicateCheck(tx).(pc := Acquire)), Tick(t, ok))
         == At(s.(locks := s.locks[tx.sender := t]), t, s.run, AtDuplicateCheck(tx))
  {}

  lemma ReleaseAlone(env: Env, s: State, t: Tid, ok: bool, r: Run, c: Call)
    requires c.pc.Release?
    ensures Next(env, At(s, t, r, c), Tick(t, ok))
         == State(r, s.locks - {c.tx.sender}, s.calls[t := c.(pc := Returned)])
  {}

  /** A call that starts when nobody holds its sender's lock and runs without interruption leaves the
      DAG as `insert` does, gives its answer, and leaves locks and other calls alone. */
  lemma UninterruptedIsInsert(env: Env, s: State, t: Tid, tx: Transaction) returns (k: nat)
    requires t !in s.calls && tx.sender !in s.locks
    ensures var tick := TickOf(env, t, SupplyAllows(s.Dag(), tx));
            var after := Repeat(tick, Next(env, s, Begin(t, tx)), k);
            && after.Dag() == AfterInsert(env, s.Dag(), tx) && after.locks == s.locks
            && t in after.calls && after.calls == s.calls[t := after.calls[t]] && after.calls[t].pc.Returned?
            && after.calls[t].result
               == match Refusal(env, s.Dag(), tx) case Some(e) => Err(e) case None => Ok(env.hash(tx))
  {
    var tick, begun := TickOf(env, t, SupplyAllows(s.Dag(), tx)), Next(env, s, Begin(t, tx));
    if PreChecked(env, s.Dag(), tx) {
      var after, c := RunsThrough(env, s, t, tx);
      k :| Repeat(tick, begun, k) == after;
    } else {
      TurnedAway(env, s, t, tx, SupplyAllows(s.Dag(), tx));
      ReachesOne(tick, begun);
      k :| Repeat(tick, begun, k) == tick(begun);
    }
  }

  lemma RunsThrough(env: Env, s: State, t: Tid, tx: Transaction) returns (after: State, c: Call)
    requires t !in s.calls && tx.sender !in s.locks && PreChecked(env, s.Dag(), tx)
    ensures Reaches(TickOf(env, t, SupplyAllows(s.Dag(), tx)), Next(env, s, Begin(t, tx)), after)
    ensures after == State(after.run, s.locks, s.calls[t := c]) && after.Dag() == AfterInsert(env, s.Dag(), tx)
    ensures c.pc.Returned?
    ensures c.result == match Refusal(env, s.Dag(), tx) case Some(e) => Err(e) case None => Ok(env.hash(tx))
  {
    var ok, base := SupplyAllows(s.Dag(), tx), s.(locks := s.locks[tx.sender := t]);
    var tick, begun := TickOf(env, t, ok), Next(env, s, Begin(t, tx));
    AcquireAlone(env, s, t, tx, ok);
    var r', c' := UnderLockAlone(env, base, t, ok, s.run, AtDuplicateCheck(tx));
    ReachesTrans(tick, begun, At(base, t, s.run, AtDuplicateCheck(tx)), At(base, t, r', c'));
    c := c'.(pc := Returned);
    after := State(r', s.locks, s.calls[t := c]);
    ReleaseAlone(env, base, t, ok, r', c');
    assert base.locks - {tx.sender} == s.locks;
    ReachesOne(tick, At(base, t, r', c'));
    ReachesTrans(tick, begun, At(base, t, r', c'), after);
  }
}
