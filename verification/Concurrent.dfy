/** Concurrent inserts as a state machine: any number of calls, each advancing by one access to shared
    state at a time, in any order. A call holds the lock of its sender from the duplicate check on. */
module Concurrent {
  import opened Core
  import opened Sums
  import opened Ledgers
  import opened Conflicts
  import opened Dags
  import opened History

  type Tid = nat

  /** The next access of a call. */
  datatype Pc =
    | PreCheck | Acquire | FindDuplicate | FindParent1 | FindParent2
    | ReadSupply | ReadBalance | CheckConflict | CheckNonce
    | LoadBalance | SwapBalance(seen: u64, left: u64) | CreditReceiver | BumpNonce | CommitNonce
    | ReadDepth1 | ReadDepth2 | LoadMax | SwapMax(seenMax: nat)
    | Child1 | Child2 | Weight1 | Weight2 | DropTip1 | DropTip2 | AddTip | PutNode | Count
    | Release | Returned

  datatype Call = Call(tx: Transaction, pc: Pc, need: u64, balance: u64, depth: nat, result: Result<TxHash>)

  /** The shared state with its history, the sender locks, and every call ever started. */
  datatype State = State(run: Run, locks: map<Address, Tid>, calls: map<Tid, Call>)
  {
    function Dag(): Dag { run.dag }

    function Go(t: Tid, c: Call): State { this.(calls := calls[t := c]) }
  }

  /** A call begins, or call `t` takes one step. The supply total is read entry by entry while others
      write, so whether the cap check passes is left open. */
  datatype Event = Begin(t: Tid, tx: Transaction) | Tick(t: Tid, supplyOk: bool)

  function Need(tx: Transaction): nat { tx.amount + tx.fee }

  function Store(l: Ledger, a: Address, balance: u64): Ledger { l.(balances := l.balances[a := balance]) }

  function Fail(c: Call, e: Error): Call { c.(pc := Release, result := Err(e)) }

  // Each step is given by what the call becomes and what the shared DAG becomes.

  /** The checks, from the one before the lock to the last one before the debit. */
  function CheckCall(env: Env, d: Dag, locked: bool, c: Call, supplyOk: bool): Call
    requires Checking(c.pc)
  {
    var tx := c.tx;
    match c.pc
    case PreCheck =>
      var balance := d.ledger.Balance(tx.sender);
      if !env.Validates(tx) then c.(pc := Returned, result := Err(env.Validation(tx).value))
      else if Need(tx) >= TWO64 then c.(pc := Returned, result := Err(InvalidTransaction))
      else if balance < Need(tx) then c.(pc := Returned, result := Err(InsufficientBalance(balance, Need(tx))))
      else c.(pc := Acquire, need := Need(tx))
    case Acquire => if locked then c else c.(pc := FindDuplicate)
    case FindDuplicate =>
      if env.hash(tx) in d.nodes then Fail(c, InvalidTransaction)
      else c.(pc := if tx.IsGenesis() then ReadSupply else FindParent1)
    case FindParent1 => if tx.parent1 !in d.nodes then Fail(c, InvalidParent(tx.parent1)) else c.(pc := FindParent2)
    case FindParent2 => if tx.parent2 !in d.nodes then Fail(c, InvalidParent(tx.parent2)) else c.(pc := ReadSupply)
    case ReadSupply => if !supplyOk then Fail(c, SupplyCapExceeded) else c.(pc := ReadBalance)
    case ReadBalance =>
      var balance := d.ledger.Balance(tx.sender);
      if balance < c.need then Fail(c, InsufficientBalance(balance, c.need))
      else c.(pc := CheckConflict, balance := balance)
    case CheckConflict =>
      (match Check(d.committed, tx, c.balance, 0)
       case NonceConflict(_) => Fail(c, DuplicateNonce(tx.nonce))
       case OverSpend(_, _) => Fail(c, Core.DoubleSpend(env.hash(tx)))
       case NoConflict => c.(pc := CheckNonce))
    case CheckNonce =>
      if tx.nonce != d.ledger.Nonce(tx.sender) + 1 then Fail(c, DuplicateNonce(tx.nonce)) else c.(pc := LoadBalance)
  }

  function CheckStep(env: Env, s: State, t: Tid, supplyOk: bool): State
    requires t in s.calls && Checking(s.calls[t].pc)
  {
    var c := s.calls[t];
    var locked := c.tx.sender in s.locks;
    State(s.run, if c.pc.Acquire? && !locked then s.locks[c.tx.sender := t] else s.locks,
          s.calls[t := CheckCall(env, s.Dag(), locked, c, supplyOk)])
  }

  /** The payment: a compare-exchange loop on the sender's balance, then three separate updates. */
  function PayCall(l: Ledger, c: Call): Call
    requires Paying(c.pc)
  {
    var seen := l.Balance(c.tx.sender);
    match c.pc
    case LoadBalance =>
      if seen < c.need then Fail(c, InsufficientBalance(seen, c.need)) else c.(pc := SwapBalance(seen, seen - c.need))
    case SwapBalance(expected, _) => c.(pc := if seen == expected then CreditReceiver else LoadBalance)
    case CreditReceiver => c.(pc := BumpNonce)
    case BumpNonce => c.(pc := CommitNonce)
    case CommitNonce => c.(pc := if c.tx.IsGenesis() then LoadMax else ReadDepth1, depth := 0)
  }

  function PayLedger(l: Ledger, c: Call): Ledger {
    var seen := l.Balance(c.tx.sender);
    match c.pc
    case LoadBalance => Store(l, c.tx.sender, seen)
    case SwapBalance(expected, left) => if seen == expected then Store(l, c.tx.sender, left) else l
    case CreditReceiver => l.Credit(c.tx.receiver, c.tx.amount)
    case BumpNonce => l.BumpNonce(c.tx.sender)
    case _ => l
  }

  /** The transaction joins the history when its debit succeeds. */
  function PayRun(env: Env, r: Run, c: Call): Run {
    var d := r.dag;
    var committed := if c.pc.CommitNonce? then d.committed[(c.tx.sender, c.tx.nonce) := env.hash(c.tx)]
                     else d.committed;
    var debited := c.pc.SwapBalance? && d.ledger.Balance(c.tx.sender) == c.pc.seen;
    Run(d.(ledger := PayLedger(d.ledger, c), committed := committed),
        if debited then r.past + [Past(c.tx, false)] else r.past,
        r.minted, if debited then r.burned + c.tx.fee else r.burned)
  }

  function PayStep(env: Env, s: State, t: Tid): State
    requires t in s.calls && Paying(s.calls[t].pc)
  {
    var c := s.calls[t];
    State(PayRun(env, s.run, c), s.locks, s.calls[t := PayCall(s.Dag().ledger, c)])
  }

  /** The graph updates, and the release of the lock. */
  function LinkCall(env: Env, nodes: Nodes, maxDepth: nat, c: Call): Call
    requires Linking(c.pc)
  {
    var tx := c.tx;
    match c.pc
    case ReadDepth1 => c.(pc := ReadDepth2, depth := DepthOf(nodes, tx.parent1))
    case ReadDepth2 => c.(pc := LoadMax, depth := Max(c.depth, DepthOf(nodes, tx.parent2)) + 1)
    case LoadMax => c.(pc := if c.depth <= maxDepth then AfterMax(tx) else SwapMax(maxDepth))
    case SwapMax(seen) => c.(pc := if maxDepth != seen then LoadMax else AfterMax(tx))
    case Child1 => c.(pc := Child2)
    case Child2 => c.(pc := Weight1)
    case Weight1 => c.(pc := Weight2)
    case Weight2 => c.(pc := DropTip1)
    case DropTip1 => c.(pc := DropTip2)
    case DropTip2 => c.(pc := AddTip)
    case AddTip => c.(pc := PutNode)
    case PutNode => c.(pc := Count)
    case Count => c.(pc := Release, result := Ok(env.hash(tx)))
    case Release => c.(pc := Returned)
    case Returned => c
  }

  function LinkNodes(env: Env, nodes: Nodes, c: Call): Nodes {
    var tx, h := c.tx, env.hash(c.tx);
    match c.pc
    case Child1 => AddChild(nodes, tx.parent1, h)
    case Child2 => AddChild(nodes, tx.parent2, h)
    case Weight1 => PropagateWeight(nodes, tx.parent1)
    case Weight2 => PropagateWeight(nodes, tx.parent2)
    case PutNode => nodes[h := Node(tx, h, Pending, [], 1, c.depth)]
    case _ => nodes
  }

  function LinkTips(env: Env, tips: set<TxHash>, c: Call): set<TxHash> {
    match c.pc
    case DropTip1 => tips - {c.tx.parent1}
    case DropTip2 => tips - {c.tx.parent2}
    case AddTip => tips + {env.hash(c.tx)}
    case _ => tips
  }

  function LinkDag(env: Env, d: Dag, c: Call): Dag {
    var raised := if c.pc.SwapMax? && d.maxDepth == c.pc.seenMax then c.depth else d.maxDepth;
    var counted := if c.pc.Count? then d.totalCount + 1 else d.totalCount;
    Dag(d.ledger, d.committed, LinkNodes(env, d.nodes, c), LinkTips(env, d.tips, c), counted, raised)
  }

  function LinkStep(env: Env, s: State, t: Tid): State
    requires t in s.calls && Linking(s.calls[t].pc)
  {
    var c, d := s.calls[t], s.Dag();
    State(s.run.(dag := LinkDag(env, d, c)), if c.pc.Release? then s.locks - {c.tx.sender} else s.locks,
          s.calls[t := LinkCall(env, d.nodes, d.maxDepth, c)])
  }

  function AfterMax(tx: Transaction): Pc { if tx.IsGenesis() then DropTip1 else Child1 }

  function Rank(pc: Pc): nat {
    match pc
    case PreCheck => 0 case Acquire => 1 case FindDuplicate => 2 case FindParent1 => 3 case FindParent2 => 4
    case ReadSupply => 5 case ReadBalance => 6 case CheckConflict => 7 case CheckNonce => 8
    case LoadBalance => 9 case SwapBalance(_, _) => 10 case CreditReceiver => 11 case BumpNonce => 12
    case CommitNonce => 13
    case ReadDepth1 => 14 case ReadDepth2 => 15 case LoadMax => 16 case SwapMax(_) => 17
    case Child1 => 18 case Child2 => 19 case Weight1 => 20 case Weight2 => 21
    case DropTip1 => 22 case DropTip2 => 23 case AddTip => 24 case PutNode => 25 case Count => 26
    case Release => 27 case Returned => 28
  }

  // The phases of a call. A call that is pending a step has joined the history and not taken it yet.

  predicate Checking(pc: Pc) { Rank(pc) <= 8 }
  predicate Paying(pc: Pc) { 9 <= Rank(pc) <= 13 }
  predicate Linking(pc: Pc) { 14 <= Rank(pc) }
  predicate Done(pc: Pc) { 27 <= Rank(pc) }

  predicate Undebited(pc: Pc) { Rank(pc) <= 10 }
  predicate Debiting(pc: Pc) { 9 <= Rank(pc) <= 10 }
  predicate ReadingDepths(pc: Pc) { 14 <= Rank(pc) <= 15 }
  predicate RaisingMax(pc: Pc) { 16 <= Rank(pc) <= 17 }
  predicate Hanging(pc: Pc) { 18 <= Rank(pc) <= 21 }
  predicate DroppingTips(pc: Pc) { 22 <= Rank(pc) <= 23 }
  predicate MovingTips(pc: Pc) { 22 <= Rank(pc) <= 24 }

  predicate Holding(pc: Pc) { 2 <= Rank(pc) <= 27 }
  predicate Working(pc: Pc) { 2 <= Rank(pc) <= 26 }
  predicate Priced(pc: Pc) { 1 <= Rank(pc) <= 26 }
  predicate Funded(pc: Pc) { 7 <= Rank(pc) <= 10 }
  predicate NonceNext(pc: Pc) { 9 <= Rank(pc) <= 12 }
  predicate Parent1Found(pc: Pc) { 4 <= Rank(pc) <= 26 }
  predicate Parent2Found(pc: Pc) { 5 <= Rank(pc) <= 26 }
  predicate DepthKnown(pc: Pc) { 16 <= Rank(pc) <= 25 }

  predicate BumpPending(pc: Pc) { 11 <= Rank(pc) <= 12 }
  predicate CommitPending(pc: Pc) { 11 <= Rank(pc) <= 13 }
  predicate MaxPending(pc: Pc) { 11 <= Rank(pc) <= 17 }
  predicate Child1Pending(pc: Pc) { 11 <= Rank(pc) <= 18 }
  predicate Child2Pending(pc: Pc) { 11 <= Rank(pc) <= 19 }
  predicate Drop1Pending(pc: Pc) { 11 <= Rank(pc) <= 22 }
  predicate TipPending(pc: Pc) { 11 <= Rank(pc) <= 24 }
  predicate NodePending(pc: Pc) { 11 <= Rank(pc) <= 25 }
  predicate CountPending(pc: Pc) { 11 <= Rank(pc) <= 26 }

  /** The child entry is pushed and its weight not yet added. */
  predicate Weight1Due(pc: Pc) { 19 <= Rank(pc) <= 20 }
  predicate Weight2Due(pc: Pc) { 20 <= Rank(pc) <= 21 }

  predicate Follows(next: Pc, pc: Pc) { Rank(next) == Rank(pc) + 1 }

  /** The members of the short phases. */
  lemma PhaseMembers(pc: Pc)
    ensures ReadingDepths(pc) <==> pc.ReadDepth1? || pc.ReadDepth2?
    ensures RaisingMax(pc) <==> pc.LoadMax? || pc.SwapMax?
    ensures Hanging(pc) <==> pc.Child1? || pc.Child2? || pc.Weight1? || pc.Weight2?
    ensures DroppingTips(pc) <==> pc.DropTip1? || pc.DropTip2?
    ensures MovingTips(pc) <==> DroppingTips(pc) || pc.AddTip?
    ensures Undebited(pc) || Done(pc) || CommitPending(pc) || ReadingDepths(pc) || RaisingMax(pc) || Hanging(pc)
         || MovingTips(pc) || pc.PutNode? || pc.Count?
  {}

  function Next(env: Env, s: State, e: Event): State {
    match e
    case Begin(t, tx) => if t in s.calls then s else s.Go(t, Call(tx, PreCheck, 0, 0, 0, Err(InvalidTransaction)))
    case Tick(t, supplyOk) =>
      if t !in s.calls then s
      else if Checking(s.calls[t].pc) then CheckStep(env, s, t, supplyOk)
      else if Paying(s.calls[t].pc) then PayStep(env, s, t)
      else LinkStep(env, s, t)
  }

  /** Any interleaving, starting where a sequential run left off. */
  ghost function Interleave(env: Env, ops: seq<Op>, events: seq<Event>): State {
    if events == [] then State(Execute(env, ops), map[], map[])
    else Next(env, Interleave(env, ops, events[..|events| - 1]), events[|events| - 1])
  }

  // ---- What every step keeps -----------------------------------------------------------------

  ghost predicate Holds(c: Call) { Holding(c.pc) }

  /** A call that has passed the balance check finds the money still there; one that has passed the
      nonce check finds the nonce still the next one. */
  ghost predicate CallOk(env: Env, s: State, t: Tid)
    requires t in s.calls
  {
    Sound(s.calls[t], t, s.locks, s.Dag().ledger)
  }

  ghost predicate Sound(c: Call, t: Tid, locks: map<Address, Tid>, l: Ledger) {
    && (Priced(c.pc) ==> c.need == Need(c.tx))
    && (c.pc.SwapBalance? ==> c.pc.left == c.pc.seen - c.need)
    && (Holds(c) ==> c.tx.sender in locks && locks[c.tx.sender] == t)
    && (Funded(c.pc) ==> Need(c.tx) <= l.Balance(c.tx.sender))
    && (NonceNext(c.pc) ==> c.tx.nonce == l.Nonce(c.tx.sender) + 1)
    && (c.pc.CommitNonce? ==> c.tx.nonce == l.Nonce(c.tx.sender))
  }

  ghost predicate CallsOk(env: Env, s: State) {
    forall t :: t in s.calls ==> CallOk(env, s, t)
  }

  /** What a call has debited but not yet credited. */
  ghost function Owed(c: Call): nat { if c.pc.CreditReceiver? then c.tx.amount else 0 }

  ghost function InFlight(calls: map<Tid, Call>): map<Tid, nat> {
    map t | t in calls :: Owed(calls[t])
  }

  /** Balances, stakes, money in flight and burned fees add up to what was minted. */
  ghost predicate Conserved(s: State) {
    s.run.minted < TWO64 && s.Dag().ledger.Circulating() + Sum(InFlight(s.calls)) + s.run.burned == s.run.minted
  }

  lemma FlightUpdate(calls: map<Tid, Call>, t: Tid, c: Call)
    ensures Sum(InFlight(calls[t := c])) == Sum(InFlight(calls)) - (if t in calls then Owed(calls[t]) else 0) + Owed(c)
  {
    assert InFlight(calls[t := c]) == InFlight(calls)[t := Owed(c)];
    SumUpdate(InFlight(calls), t, Owed(c));
  }

  lemma StoreShifts(l: Ledger, a: Address, balance: u64)
    ensures Store(l, a, balance).Circulating() == l.Circulating() - l.Balance(a) + balance
  {
    SumUpdate(l.balances, a, balance);
  }

  lemma DebitConserves(env: Env, s: State, t: Tid)
    requires Conserved(s) && t in s.calls && s.calls[t].pc.SwapBalance? && CallOk(env, s, t)
    ensures Conserved(PayStep(env, s, t))
  {
    var c, after := s.calls[t], PayStep(env, s, t);
    FlightUpdate(s.calls, t, after.calls[t]);
    StoreShifts(s.Dag().ledger, c.tx.sender, c.pc.left);
  }

  lemma CreditConserves(env: Env, s: State, t: Tid)
    requires Conserved(s) && t in s.calls && s.calls[t].pc.CreditReceiver?
    ensures Conserved(PayStep(env, s, t))
    ensures s.Dag().ledger.Circulating() + s.calls[t].tx.amount < TWO64
  {
    var c, after := s.calls[t], PayStep(env, s, t);
    FlightUpdate(s.calls, t, after.calls[t]);
    SumBounds(InFlight(s.calls), t);
    CreditAdds(s.Dag().ledger, c.tx.receiver, c.tx.amount);
  }

  lemma LoadConserves(env: Env, s: State, t: Tid)
    requires Conserved(s) && t in s.calls && s.calls[t].pc.LoadBalance?
    ensures Conserved(PayStep(env, s, t))
  {
    var c, after := s.calls[t], PayStep(env, s, t);
    FlightUpdate(s.calls, t, after.calls[t]);
    StoreShifts(s.Dag().ledger, c.tx.sender, s.Dag().ledger.Balance(c.tx.sender));
  }

  /** A step that moves no money. */
  lemma QuietConserves(s: State, after: State, t: Tid, c: Call)
    requires Conserved(s) && t in s.calls && after.calls == s.calls[t := c] && Owed(c) == Owed(s.calls[t])
    requires after.run.minted == s.run.minted && after.run.burned == s.run.burned
    requires after.Dag().ledger == s.Dag().ledger.(nonces := after.Dag().ledger.nonces)
    ensures Conserved(after)
  {
    FlightUpdate(s.calls, t, c);
  }

  /** What a step leaves alone: every other call, and every part of the state it does not name. */
  ghost predicate Framed(s: State, after: State, t: Tid)
    requires t in s.calls
  {
    var c := s.calls[t];
    && t in after.calls && after.calls == s.calls[t := after.calls[t]] && after.calls[t].tx == c.tx
    && after.run.minted == s.run.minted
    && (c.pc in {LoadBalance, CreditReceiver, BumpNonce} || c.pc.SwapBalance? || after.Dag().ledger == s.Dag().ledger)
    && (c.pc.SwapBalance? || (after.run.past == s.run.past && after.run.burned == s.run.burned))
    && (c.pc.CommitNonce? || after.Dag().committed == s.Dag().committed)
    && (c.pc in {Acquire, Release} || after.locks == s.locks)
    && (Linking(c.pc) || (after.Dag().nodes == s.Dag().nodes && after.Dag().tips == s.Dag().tips
          && after.Dag().maxDepth == s.Dag().maxDepth && after.Dag().totalCount == s.Dag().totalCount))
  }

  lemma CheckFrame(env: Env, s: State, t: Tid, supplyOk: bool)
    requires t in s.calls && Checking(s.calls[t].pc)
    ensures Framed(s, CheckStep(env, s, t, supplyOk), t) && CheckStep(env, s, t, supplyOk).run == s.run
  {
    assert s.calls == s.calls[t := s.calls[t]];
  }

  lemma PayFrame(env: Env, s: State, t: Tid)
    requires t in s.calls && Paying(s.calls[t].pc)
    ensures Framed(s, PayStep(env, s, t), t)
  {}

  lemma LinkFrame(env: Env, s: State, t: Tid)
    requires t in s.calls && Linking(s.calls[t].pc)
    ensures Framed(s, LinkStep(env, s, t), t)
  {
    assert s.calls == s.calls[t := s.calls[t]];
  }

  lemma TickFrame(env: Env, s: State, t: Tid, supplyOk: bool)
    requires t in s.calls
    ensures Framed(s, Next(env, s, Tick(t, supplyOk)), t)
  {
    if Checking(s.calls[t].pc) {
      CheckFrame(env, s, t, supplyOk);
    } else if Paying(s.calls[t].pc) {
      PayFrame(env, s, t);
    } else {
      LinkFrame(env, s, t);
    }
  }

  lemma BumpConserves(env: Env, s: State, t: Tid)
    requires Conserved(s) && t in s.calls && s.calls[t].pc.BumpNonce?
    ensures Conserved(PayStep(env, s, t))
  {
    QuietConserves(s, PayStep(env, s, t), t, s.calls[t].(pc := CommitNonce));
  }

  lemma OwesNothingElsewhere(env: Env, s: State, t: Tid, supplyOk: bool)
    requires t in s.calls && !s.calls[t].pc.SwapBalance? && !s.calls[t].pc.CreditReceiver?
    ensures Owed(Next(env, s, Tick(t, supplyOk)).calls[t]) == 0
  {
    if Checking(s.calls[t].pc) {
      CheckAdvances(env, s.Dag(), s.calls[t].tx.sender in s.locks, s.calls[t], supplyOk);
    } else if Linking(s.calls[t].pc) {
      LinkAdvances(env, s.Dag().nodes, s.Dag().maxDepth, s.calls[t]);
    } else {
      PayOwes(s.Dag().ledger, s.calls[t]);
    }
  }

  lemma PayOwes(l: Ledger, c: Call)
    requires Paying(c.pc) && !c.pc.SwapBalance?
    ensures Owed(PayCall(l, c)) == 0
  {}

  lemma QuietTickConserves(s: State, after: State, t: Tid)
    requires Conserved(s) && t in s.calls && Framed(s, after, t)
    requires Owed(s.calls[t]) == 0 == Owed(after.calls[t])
    requires !s.calls[t].pc.SwapBalance? && after.Dag().ledger == s.Dag().ledger
    ensures Conserved(after)
  {
    QuietConserves(s, after, t, after.calls[t]);
  }

  lemma TickConserves(env: Env, s: State, t: Tid, supplyOk: bool)
    requires Conserved(s) && t in s.calls && CallOk(env, s, t)
    ensures Conserved(Next(env, s, Tick(t, supplyOk)))
  {
    match s.calls[t].pc
    case LoadBalance => LoadConserves(env, s, t);
    case SwapBalance(_, _) => DebitConserves(env, s, t);
    case CreditReceiver => CreditConserves(env, s, t);
    case BumpNonce => BumpConserves(env, s, t);
    case _ =>
      TickFrame(env, s, t, supplyOk);
      OwesNothingElsewhere(env, s, t, supplyOk);
      QuietTickConserves(s, Next(env, s, Tick(t, supplyOk)), t);
  }

  // ---- Mutual exclusion, funds and nonces ------------------------------------------------------

  /** Steps of other calls never take a lock away, never lower a balance whose lock is held by
      somebody else, and never touch its nonce. */
  lemma OtherCallKept(env: Env, s: State, t: Tid, supplyOk: bool, u: Tid)
    requires CallsOk(env, s) && Conserved(s) && t in s.calls && u in s.calls && u != t
    ensures u in Next(env, s, Tick(t, supplyOk)).calls && CallOk(env, Next(env, s, Tick(t, supplyOk)), u)
  {
    var after := Next(env, s, Tick(t, supplyOk));
    assert CallOk(env, s, t) && CallOk(env, s, u);
    TickFrame(env, s, t, supplyOk);
    if Holds(s.calls[u]) {
      LocksKept(env, s, t, supplyOk, s.calls[u].tx.sender, u);
      if !Holds(s.calls[t]) || s.calls[t].tx.sender != s.calls[u].tx.sender {
        LedgerKept(env, s, t, supplyOk, s.calls[u].tx.sender);
      }
    }
  }

  lemma LocksKept(env: Env, s: State, t: Tid, supplyOk: bool, a: Address, u: Tid)
    requires t in s.calls && CallOk(env, s, t) && u != t && a in s.locks && s.locks[a] == u
    ensures var after := Next(env, s, Tick(t, supplyOk)); a in after.locks && after.locks[a] == u
  {}

  lemma LedgerKept(env: Env, s: State, t: Tid, supplyOk: bool, a: Address)
    requires t in s.calls && CallOk(env, s, t) && Conserved(s) && (!Holds(s.calls[t]) || s.calls[t].tx.sender != a)
    ensures Next(env, s, Tick(t, supplyOk)).Dag().ledger.Balance(a) >= s.Dag().ledger.Balance(a)
    ensures Next(env, s, Tick(t, supplyOk)).Dag().ledger.Nonce(a) == s.Dag().ledger.Nonce(a)
  {
    TickFrame(env, s, t, supplyOk);
    if s.calls[t].pc.CreditReceiver? {
      CreditConserves(env, s, t);
      CreditAdds(s.Dag().ledger, s.calls[t].tx.receiver, s.calls[t].tx.amount);
    }
  }

  lemma OwnCheckKept(env: Env, d: Dag, locks: map<Address, Tid>, c: Call, t: Tid, supplyOk: bool)
    requires Sound(c, t, locks, d.ledger) && Checking(c.pc)
    ensures var locked := c.tx.sender in locks;
            var taken := if c.pc.Acquire? && !locked then locks[c.tx.sender := t] else locks;
            Sound(CheckCall(env, d, locked, c, supplyOk), t, taken, d.ledger)
  {
    if Holding(c.pc) {
      OwnLockedCheckKept(env, d, locks, c, t, supplyOk);
    } else {
      OwnEntryKept(env, d, locks, c, t, supplyOk);
    }
  }

  lemma OwnEntryKept(env: Env, d: Dag, locks: map<Address, Tid>, c: Call, t: Tid, supplyOk: bool)
    requires Sound(c, t, locks, d.ledger) && Checking(c.pc) && !Holding(c.pc)
    ensures var locked := c.tx.sender in locks;
            var taken := if c.pc.Acquire? && !locked then locks[c.tx.sender := t] else locks;
            Sound(CheckCall(env, d, locked, c, supplyOk), t, taken, d.ledger)
  {}

  lemma OwnLockedCheckKept(env: Env, d: Dag, locks: map<Address, Tid>, c: Call, t: Tid, supplyOk: bool)
    requires Sound(c, t, locks, d.ledger) && Checking(c.pc) && Holding(c.pc)
    ensures Sound(CheckCall(env, d, true, c, supplyOk), t, locks, d.ledger)
  {
    var c' := CheckCall(env, d, true, c, supplyOk);
    assert c'.tx == c.tx && c'.need == c.need;
    assert c'.pc.Release? || Rank(c.pc) < Rank(c'.pc) <= Rank(LoadBalance);
  }

  lemma OwnPayKept(l: Ledger, locks: map<Address, Tid>, c: Call, t: Tid)
    requires Sound(c, t, locks, l) && Paying(c.pc)
    ensures Sound(PayCall(l, c), t, locks, PayLedger(l, c))
  {}

  lemma OwnLinkKept(env: Env, nodes: Nodes, maxDepth: nat, l: Ledger, locks: map<Address, Tid>, c: Call, t: Tid)
    requires Sound(c, t, locks, l) && Linking(c.pc)
    ensures Sound(LinkCall(env, nodes, maxDepth, c), t, if c.pc.Release? then locks - {c.tx.sender} else locks, l)
  {
    LinkAdvances(env, nodes, maxDepth, c);
  }

  lemma LinkAdvances(env: Env, nodes: Nodes, maxDepth: nat, c: Call)
    requires Linking(c.pc)
    ensures var c' := LinkCall(env, nodes, maxDepth, c);
            && Linking(c'.pc) && c'.tx == c.tx && c'.need == c.need
            && (c'.pc.Returned? <==> Done(c.pc)) && (!Done(c'.pc) ==> !Done(c.pc) && !c.pc.Count?)
  {}

  /** A call's own step keeps what its later steps rely on. */
  lemma OwnCallKept(env: Env, s: State, t: Tid, supplyOk: bool, after: State)
    requires t in s.calls && CallOk(env, s, t) && after == Next(env, s, Tick(t, supplyOk))
    ensures t in after.calls && CallOk(env, after, t)
  {
    if Checking(s.calls[t].pc) {
      OwnCheckKept(env, s.Dag(), s.locks, s.calls[t], t, supplyOk);
    } else if Paying(s.calls[t].pc) {
      OwnPayKept(s.Dag().ledger, s.locks, s.calls[t], t);
    } else {
      OwnLinkKept(env, s.Dag().nodes, s.Dag().maxDepth, s.Dag().ledger, s.locks, s.calls[t], t);
    }
  }

  /** A lock is held by a call of its own sender that has not returned. */
  ghost predicate LocksOk(s: State) {
    forall a :: a in s.locks ==>
      s.locks[a] in s.calls && Holds(s.calls[s.locks[a]]) && s.calls[s.locks[a]].tx.sender == a
  }

  lemma TickKeepsLocks(s: State, after: State, t: Tid)
    requires LocksOk(s) && t in s.calls && HoldsOwn(s, t) && Framed(s, after, t) && LocksMove(s, after, t)
    ensures LocksOk(after)
  {}

  ghost predicate HoldsOwn(s: State, t: Tid)
    requires t in s.calls
  {
    var a := s.calls[t].tx.sender;
    Holds(s.calls[t]) ==> a in s.locks && s.locks[a] == t
  }

  /** How a step of call `t` changes the locks, and whether the call holds one after it. */
  ghost predicate LocksMove(s: State, after: State, t: Tid)
    requires t in s.calls && t in after.calls
  {
    var c := s.calls[t];
    && (c.pc.Release? ==> after.locks == s.locks - {c.tx.sender})
    && (c.pc.Acquire? ==>
          || after == s
          || (c.tx.sender !in s.locks && after.calls[t].pc.FindDuplicate?
              && after.locks == s.locks[c.tx.sender := t]))
    && (Holds(c) && !c.pc.Release? ==> Holds(after.calls[t]))
  }

  lemma HoldsUntilRelease(env: Env, s: State, t: Tid, supplyOk: bool)
    requires t in s.calls
    ensures t in Next(env, s, Tick(t, supplyOk)).calls && LocksMove(s, Next(env, s, Tick(t, supplyOk)), t)
  {
    if Checking(s.calls[t].pc) {
      ChecksHold(env, s, t, supplyOk);
    } else if Paying(s.calls[t].pc) {
      PaysHold(env, s, t);
    } else {
      LinksHold(env, s, t);
    }
  }

  lemma ChecksHold(env: Env, s: State, t: Tid, supplyOk: bool)
    requires t in s.calls && Checking(s.calls[t].pc)
    ensures t in CheckStep(env, s, t, supplyOk).calls && LocksMove(s, CheckStep(env, s, t, supplyOk), t)
  {
    CheckAdvances(env, s.Dag(), s.calls[t].tx.sender in s.locks, s.calls[t], supplyOk);
    assert s.calls == s.calls[t := s.calls[t]];
  }

  lemma PaysHold(env: Env, s: State, t: Tid)
    requires t in s.calls && Paying(s.calls[t].pc)
    ensures t in PayStep(env, s, t).calls && LocksMove(s, PayStep(env, s, t), t)
  {}

  lemma LinksHold(env: Env, s: State, t: Tid)
    requires t in s.calls && Linking(s.calls[t].pc)
    ensures t in LinkStep(env, s, t).calls && LocksMove(s, LinkStep(env, s, t), t)
  {}

  // ---- The nonce index ------------------------------------------------------------------------

  /** Where the call that holds the lock of `a` is. */
  ghost function HolderAt(s: State, a: Address): Pc {
    if a in s.locks && s.locks[a] in s.calls then s.calls[s.locks[a]].pc else Returned
  }

  /** The nonce index while at most one transaction of the sender is between its debit and its
      commit: `bumped` says whether the counter has counted it, `indexed` whether the index has. */
  ghost predicate Lagging(env: Env, nonce: nat, committed: map<(Address, u64), TxHash>, sent: seq<Transaction>,
                          a: Address, bumped: bool, indexed: bool)
  {
    var done := if indexed then |sent| else |sent| - 1;
    && nonce == (if bumped then |sent| else |sent| - 1) && |sent| < TWO64
    && (forall n: u64 :: (a, n) in committed <==> 1 <= n <= done)
    && (forall k :: 0 <= k < |sent| ==> sent[k].nonce == k + 1)
    && (forall k :: 0 <= k < done ==> committed[(a, k + 1)] == env.hash(sent[k]))
  }

  ghost predicate IndexedSoFar(env: Env, s: State, a: Address) {
    var sent := SentBy(s.run.past, a);
    && Lagging(env, s.Dag().ledger.Nonce(a), s.Dag().committed, sent, a,
               !BumpPending(HolderAt(s, a)), !CommitPending(HolderAt(s, a)))
    && (CommitPending(HolderAt(s, a)) ==> sent != [] && sent[|sent| - 1] == s.calls[s.locks[a]].tx)
  }

  lemma LagDebited(env: Env, nonce: nat, committed: map<(Address, u64), TxHash>, sent: seq<Transaction>,
                   tx: Transaction)
    requires Lagging(env, nonce, committed, sent, tx.sender, true, true) && tx.nonce == nonce + 1
    ensures Lagging(env, nonce, committed, sent + [tx], tx.sender, false, false)
  {}

  lemma LagCommitted(env: Env, nonce: nat, committed: map<(Address, u64), TxHash>, sent: seq<Transaction>,
                     tx: Transaction)
    requires Lagging(env, nonce, committed, sent, tx.sender, true, false) && tx.nonce == nonce
    requires sent != [] && sent[|sent| - 1] == tx
    ensures Lagging(env, nonce, committed[(tx.sender, tx.nonce) := env.hash(tx)], sent, tx.sender, true, true)
  {}

  lemma DebitIndexes(env: Env, s: State, t: Tid)
    requires t in s.calls && CallOk(env, s, t) && s.calls[t].pc.SwapBalance?
    requires IndexedSoFar(env, s, s.calls[t].tx.sender)
    ensures IndexedSoFar(env, PayStep(env, s, t), s.calls[t].tx.sender)
  {
    var c, after := s.calls[t], PayStep(env, s, t);
    assert after.Dag().ledger.nonces == s.Dag().ledger.nonces;
    DebitedIndexes(env, s, after, t, c.tx.sender);
  }

  lemma DebitedIndexes(env: Env, s: State, after: State, t: Tid, a: Address)
    requires t in s.calls && HoldsOwn(s, t) && s.calls[t].pc.SwapBalance? && s.calls[t].tx.sender == a
    requires IndexedSoFar(env, s, a) && s.calls[t].tx.nonce == s.Dag().ledger.Nonce(a) + 1
    requires t in after.calls && after.locks == s.locks && after.calls[t].tx == s.calls[t].tx
    requires after.Dag().ledger.nonces == s.Dag().ledger.nonces && after.Dag().committed == s.Dag().committed
    requires if after.calls[t].pc.CreditReceiver? then after.run.past == s.run.past + [Past(s.calls[t].tx, false)]
             else after.calls[t].pc.LoadBalance? && after.run.past == s.run.past
    ensures IndexedSoFar(env, after, a)
  {
    SentBySnoc(s.run.past, Past(s.calls[t].tx, false), a);
    assert HolderAt(s, a) == s.calls[t].pc && HolderAt(after, a) == after.calls[t].pc;
    LagDebited(env, s.Dag().ledger.Nonce(a), s.Dag().committed, SentBy(s.run.past, a), s.calls[t].tx);
  }

  lemma BumpIndexes(env: Env, s: State, t: Tid)
    requires t in s.calls && CallOk(env, s, t) && s.calls[t].pc.BumpNonce?
    requires IndexedSoFar(env, s, s.calls[t].tx.sender)
    ensures IndexedSoFar(env, PayStep(env, s, t), s.calls[t].tx.sender)
  {
    var a := s.calls[t].tx.sender;
    assert HolderAt(s, a) == BumpNonce && HolderAt(PayStep(env, s, t), a) == CommitNonce;
  }

  lemma CommitIndexes(env: Env, s: State, t: Tid)
    requires t in s.calls && CallOk(env, s, t) && s.calls[t].pc.CommitNonce?
    requires IndexedSoFar(env, s, s.calls[t].tx.sender)
    ensures IndexedSoFar(env, PayStep(env, s, t), s.calls[t].tx.sender)
  {
    CommitEffect(env, s, t);
    CommittedIndexes(env, s, PayStep(env, s, t), t, s.calls[t].tx);
  }

  lemma CommitEffect(env: Env, s: State, t: Tid)
    requires t in s.calls && s.calls[t].pc.CommitNonce?
    ensures var tx, after := s.calls[t].tx, PayStep(env, s, t);
            && t in after.calls && after.locks == s.locks && !CommitPending(after.calls[t].pc)
            && after.Dag().ledger == s.Dag().ledger && after.run.past == s.run.past
            && after.Dag().committed == s.Dag().committed[(tx.sender, tx.nonce) := env.hash(tx)]
  {}

  lemma CommittedIndexes(env: Env, s: State, after: State, t: Tid, tx: Transaction)
    requires t in s.calls && HoldsOwn(s, t) && s.calls[t].pc.CommitNonce? && s.calls[t].tx == tx
    requires IndexedSoFar(env, s, tx.sender) && tx.nonce == s.Dag().ledger.Nonce(tx.sender)
    requires t in after.calls && after.locks == s.locks && !CommitPending(after.calls[t].pc)
    requires after.Dag().ledger == s.Dag().ledger && after.run.past == s.run.past
    requires after.Dag().committed == s.Dag().committed[(tx.sender, tx.nonce) := env.hash(tx)]
    ensures IndexedSoFar(env, after, tx.sender)
  {
    assert HolderAt(s, tx.sender) == CommitNonce && HolderAt(after, tx.sender) == after.calls[t].pc;
    LagCommitted(env, s.Dag().ledger.Nonce(tx.sender), s.Dag().committed, SentBy(s.run.past, tx.sender), tx);
  }

  /** The other steps of a call leave the nonces of its sender as they are. */
  lemma QuietIndexes(env: Env, s: State, after: State, t: Tid)
    requires t in s.calls && HoldsOwn(s, t) && LocksOk(s) && Framed(s, after, t) && LocksMove(s, after, t)
    requires !s.calls[t].pc.SwapBalance? && !s.calls[t].pc.CommitNonce?
    requires Holds(s.calls[t]) ==> SameStage(s.calls[t], after.calls[t])
    requires IndexedSoFar(env, s, s.calls[t].tx.sender) && after.Dag().ledger.nonces == s.Dag().ledger.nonces
    ensures IndexedSoFar(env, after, s.calls[t].tx.sender)
  {
    HolderAfter(s, after, t);
  }

  lemma NonceQuiet(env: Env, s: State, t: Tid, supplyOk: bool)
    requires t in s.calls && !s.calls[t].pc.BumpNonce?
    ensures Next(env, s, Tick(t, supplyOk)).Dag().ledger.nonces == s.Dag().ledger.nonces
  {
    TickFrame(env, s, t, supplyOk);
    if Paying(s.calls[t].pc) {
      assert PayLedger(s.Dag().ledger, s.calls[t]).nonces == s.Dag().ledger.nonces;
    }
  }

  lemma HolderAfter(s: State, after: State, t: Tid)
    requires t in s.calls && HoldsOwn(s, t) && LocksOk(s) && Framed(s, after, t) && LocksMove(s, after, t)
    requires Holds(s.calls[t]) ==> SameStage(s.calls[t], after.calls[t])
    ensures var a := s.calls[t].tx.sender;
            && (BumpPending(HolderAt(after, a)) <==> BumpPending(HolderAt(s, a)))
            && (CommitPending(HolderAt(after, a)) <==> CommitPending(HolderAt(s, a)))
            && (CommitPending(HolderAt(after, a)) ==> after.calls[after.locks[a]].tx == s.calls[s.locks[a]].tx)
  {
    if s.calls[t].pc.Acquire? {
      HolderAfterAcquire(s, after, t);
    }
  }

  lemma HolderAfterAcquire(s: State, after: State, t: Tid)
    requires t in s.calls && s.calls[t].pc.Acquire? && Framed(s, after, t) && LocksMove(s, after, t)
    ensures var a := s.calls[t].tx.sender;
            after == s || (HolderAt(s, a) == Returned && HolderAt(after, a) == FindDuplicate)
  {}

  /** Neither state, or both, of a call that has debited but not yet bumped or indexed its nonce. */
  ghost predicate SameStage(c: Call, c': Call) {
    (BumpPending(c.pc) <==> BumpPending(c'.pc)) && (c.pc.CommitNonce? <==> c'.pc.CommitNonce?)
  }

  lemma SameStageAfter(env: Env, s: State, t: Tid, supplyOk: bool)
    requires t in s.calls && Holds(s.calls[t])
    requires !s.calls[t].pc.SwapBalance? && !s.calls[t].pc.BumpNonce? && !s.calls[t].pc.CommitNonce?
    ensures SameStage(s.calls[t], Next(env, s, Tick(t, supplyOk)).calls[t])
  {
    if Checking(s.calls[t].pc) {
      CheckAdvances(env, s.Dag(), s.calls[t].tx.sender in s.locks, s.calls[t], supplyOk);
    } else if Linking(s.calls[t].pc) {
      LinkAdvances(env, s.Dag().nodes, s.Dag().maxDepth, s.calls[t]);
    }
  }

  lemma CheckAdvances(env: Env, d: Dag, locked: bool, c: Call, supplyOk: bool)
    requires Checking(c.pc)
    ensures var c' := CheckCall(env, d, locked, c, supplyOk);
            && !c'.pc.SwapBalance? && !CountPending(c'.pc) && (Holding(c.pc) ==> Holding(c'.pc))
            && (c.pc.Acquire? ==> c' == if locked then c else c.(pc := FindDuplicate))
  {}

  /** A step of a call says nothing about the nonces of other senders. */
  lemma OtherSenderIndexed(env: Env, s: State, after: State, t: Tid, a: Address)
    requires t in s.calls && s.calls[t].tx.sender != a && IndexedSoFar(env, s, a)
    requires HolderAt(after, a) == HolderAt(s, a)
    requires CommitPending(HolderAt(s, a)) ==> after.calls[after.locks[a]].tx == s.calls[s.locks[a]].tx
    requires QuietFor(env, s, after, t, a)
    ensures IndexedSoFar(env, after, a)
  {
    SentBySnoc(s.run.past, Past(s.calls[t].tx, false), a);
  }

  lemma OtherHolder(s: State, after: State, t: Tid, a: Address)
    requires t in s.calls && LocksOk(s) && s.calls[t].tx.sender != a && Framed(s, after, t) && LocksMove(s, after, t)
    ensures HolderAt(after, a) == HolderAt(s, a)
    ensures CommitPending(HolderAt(s, a)) ==> after.calls[after.locks[a]].tx == s.calls[s.locks[a]].tx
  {}

  lemma OtherSenderPaysQuietly(env: Env, s: State, t: Tid, a: Address)
    requires t in s.calls && s.calls[t].tx.sender != a && Paying(s.calls[t].pc)
    ensures QuietFor(env, s, PayStep(env, s, t), t, a)
  {}

  ghost predicate QuietFor(env: Env, s: State, after: State, t: Tid, a: Address)
    requires t in s.calls
  {
    var tx := s.calls[t].tx;
    && after.Dag().ledger.Nonce(a) == s.Dag().ledger.Nonce(a)
    && (after.Dag().committed == s.Dag().committed
        || after.Dag().committed == s.Dag().committed[(tx.sender, tx.nonce) := env.hash(tx)])
    && (after.run.past == s.run.past || after.run.past == s.run.past + [Past(tx, false)])
  }

  lemma OtherSenderQuiet(env: Env, s: State, t: Tid, supplyOk: bool, a: Address)
    requires t in s.calls && s.calls[t].tx.sender != a
    ensures QuietFor(env, s, Next(env, s, Tick(t, supplyOk)), t, a)
  {
    if Paying(s.calls[t].pc) {
      OtherSenderPaysQuietly(env, s, t, a);
    } else {
      TickFrame(env, s, t, supplyOk);
    }
  }

  lemma TickIndexes(env: Env, s: State, t: Tid, supplyOk: bool, a: Address)
    requires t in s.calls && CallOk(env, s, t) && LocksOk(s) && IndexedSoFar(env, s, a)
    ensures IndexedSoFar(env, Next(env, s, Tick(t, supplyOk)), a)
  {
    if s.calls[t].tx.sender != a {
      var after := Next(env, s, Tick(t, supplyOk));
      TickFrame(env, s, t, supplyOk);
      HoldsUntilRelease(env, s, t, supplyOk);
      OtherSenderQuiet(env, s, t, supplyOk, a);
      OtherHolder(s, after, t, a);
      OtherSenderIndexed(env, s, after, t, a);
    } else {
      match s.calls[t].pc
      case SwapBalance(_, _) => DebitIndexes(env, s, t);
      case BumpNonce => BumpIndexes(env, s, t);
      case CommitNonce => CommitIndexes(env, s, t);
      case _ => QuietTickIndexes(env, s, t, supplyOk);
    }
  }

  lemma QuietTickIndexes(env: Env, s: State, t: Tid, supplyOk: bool)
    requires t in s.calls && CallOk(env, s, t) && LocksOk(s) && IndexedSoFar(env, s, s.calls[t].tx.sender)
    requires !s.calls[t].pc.SwapBalance? && !s.calls[t].pc.BumpNonce? && !s.calls[t].pc.CommitNonce?
    ensures IndexedSoFar(env, Next(env, s, Tick(t, supplyOk)), s.calls[t].tx.sender)
  {
    TickFrame(env, s, t, supplyOk);
    HoldsUntilRelease(env, s, t, supplyOk);
    NonceQuiet(env, s, t, supplyOk);
    if Holds(s.calls[t]) {
      SameStageAfter(env, s, t, supplyOk);
    }
    QuietIndexes(env, s, Next(env, s, Tick(t, supplyOk)), t);
  }

  // ---- Every interleaving ---------------------------------------------------------------------

  ghost predicate Inv(env: Env, s: State) {
    Conserved(s) && CallsOk(env, s) && LocksOk(s) && forall a :: IndexedSoFar(env, s, a)
  }

  lemma TickKeepsInv(env: Env, s: State, t: Tid, supplyOk: bool)
    requires Inv(env, s) && t in s.calls
    ensures Inv(env, Next(env, s, Tick(t, supplyOk)))
  {
    var after := Next(env, s, Tick(t, supplyOk));
    TickFrame(env, s, t, supplyOk);
    TickConserves(env, s, t, supplyOk);
    HoldsUntilRelease(env, s, t, supplyOk);
    TickKeepsLocks(s, after, t);
    forall u | u in after.calls
      ensures CallOk(env, after, u)
    {
      if u == t {
        OwnCallKept(env, s, t, supplyOk, after);
      } else {
        OtherCallKept(env, s, t, supplyOk, u);
      }
    }
    forall a {
      TickIndexes(env, s, t, supplyOk, a);
    }
  }

  lemma BeginIndexes(env: Env, s: State, t: Tid, tx: Transaction, a: Address)
    requires LocksOk(s) && t !in s.calls && IndexedSoFar(env, s, a)
    ensures IndexedSoFar(env, Next(env, s, Begin(t, tx)), a)
  {
    var after := Next(env, s, Begin(t, tx));
    assert after.run == s.run && after.locks == s.locks;
    assert HolderAt(after, a) == HolderAt(s, a);
  }

  lemma BeginKeepsInv(env: Env, s: State, t: Tid, tx: Transaction)
    requires Inv(env, s) && t !in s.calls
    ensures Inv(env, Next(env, s, Begin(t, tx)))
  {
    var after := Next(env, s, Begin(t, tx));
    FlightUpdate(s.calls, t, after.calls[t]);
    forall u | u in after.calls
      ensures CallOk(env, after, u)
    {
      assert u != t ==> CallOk(env, s, u);
    }
    forall a {
      BeginIndexes(env, s, t, tx, a);
    }
  }

  lemma StartInv(env: Env, ops: seq<Op>)
    requires Execute(env, ops).minted < TWO64
    ensures Inv(env, State(Execute(env, ops), map[], map[]))
  {
    RunBalanced(env, ops);
    StartConserved(Execute(env, ops));
    forall a {
      StartIndexed(env, ops, a);
    }
  }

  lemma StartConserved(r: Run)
    requires Balanced(r) && r.minted < TWO64
    ensures Conserved(State(r, map[], map[]))
  {
    assert InFlight(map[]) == map[];
  }

  lemma StartIndexed(env: Env, ops: seq<Op>, a: Address)
    ensures IndexedSoFar(env, State(Execute(env, ops), map[], map[]), a)
  {
    RunIndexed(env, ops, a);
    NobodyBetween(env, Execute(env, ops), a);
  }

  lemma NobodyBetween(env: Env, r: Run, a: Address)
    requires Indexed(env, r, a)
    ensures IndexedSoFar(env, State(r, map[], map[]), a)
  {}

  /** Every state any interleaving reaches satisfies the invariant. */
  lemma {:induction false} InterleaveKeepsInv(env: Env, ops: seq<Op>, events: seq<Event>)
    requires Execute(env, ops).minted < TWO64
    ensures Inv(env, Interleave(env, ops, events))
  {
    if events == [] {
      StartInv(env, ops);
    } else {
      var init, e := events[..|events| - 1], events[|events| - 1];
      InterleaveKeepsInv(env, ops, init);
      NextKeepsInv(env, Interleave(env, ops, init), e);
    }
  }

  lemma NextKeepsInv(env: Env, s: State, e: Event)
    requires Inv(env, s)
    ensures Inv(env, Next(env, s, e))
  {
    if e.Tick? && e.t in s.calls {
      TickKeepsInv(env, s, e.t, e.supplyOk);
    } else if e.Begin? && e.t !in s.calls {
      BeginKeepsInv(env, s, e.t, e.tx);
    }
  }

  /** The debit after the balance check never fails, whatever the others do in between. */
  lemma DebitNeverFails(env: Env, ops: seq<Op>, events: seq<Event>, t: Tid)
    requires Execute(env, ops).minted < TWO64 && t in Interleave(env, ops, events).calls
    ensures var s := Interleave(env, ops, events);
            s.calls[t].pc.LoadBalance? ==> PayStep(env, s, t).calls[t].pc.SwapBalance?
  {
    InterleaveKeepsInv(env, ops, events);
    LoadFinds(env, Interleave(env, ops, events), t);
  }

  lemma LoadFinds(env: Env, s: State, t: Tid)
    requires t in s.calls && CallOk(env, s, t)
    ensures s.calls[t].pc.LoadBalance? ==> PayStep(env, s, t).calls[t].pc.SwapBalance?
  {}

  /** Both history entries came through insert, from one sender. */
  ghost predicate SameSender(past: seq<Past>, i: nat, j: nat)
    requires i < |past| && j < |past|
  {
    !past[i].minted && !past[j].minted && past[i].tx.sender == past[j].tx.sender
  }

  /** Each sender's history entries carry strictly increasing nonces. */
  ghost predicate NoncesRise(past: seq<Past>) {
    forall i, j :: 0 <= i < j < |past| && SameSender(past, i, j) ==> past[i].tx.nonce < past[j].tx.nonce
  }

  lemma EntriesOrdered(env: Env, s: State, i: nat, j: nat)
    requires i < j < |s.run.past| && SameSender(s.run.past, i, j) && IndexedSoFar(env, s, s.run.past[i].tx.sender)
    ensures s.run.past[i].tx.nonce < s.run.past[j].tx.nonce
  {
    var m := SentByPosition(s.run.past, i);
    var n := SentByPosition(s.run.past, j);
    SentByGrows(s.run.past, i, j);
  }

  lemma IndexedRises(env: Env, s: State)
    requires forall a :: IndexedSoFar(env, s, a)
    ensures NoncesRise(s.run.past)
  {
    forall i, j | 0 <= i < j < |s.run.past| && SameSender(s.run.past, i, j)
      ensures s.run.past[i].tx.nonce < s.run.past[j].tx.nonce
    {
      EntriesOrdered(env, s, i, j);
    }
  }

  /** No sender's nonce is consumed twice. */
  lemma NoncesConsumedOnce(env: Env, ops: seq<Op>, events: seq<Event>)
    requires Execute(env, ops).minted < TWO64
    ensures NoncesRise(Interleave(env, ops, events).run.past)
  {
    InterleaveKeepsInv(env, ops, events);
    IndexedRises(env, Interleave(env, ops, events));
  }

  /** Between any two steps, balances and stakes plus what is debited but not yet credited plus the
      fees burned equal what was minted before the inserts began. */
  lemma ValueConserved(env: Env, ops: seq<Op>, events: seq<Event>)
    requires Execute(env, ops).minted < TWO64
    ensures var s := Interleave(env, ops, events);
            s.Dag().ledger.Circulating() + Sum(InFlight(s.calls)) + s.run.burned == Execute(env, ops).minted
  {
    InterleaveKeepsInv(env, ops, events);
    MintedUnchanged(env, ops, events);
  }

  lemma {:induction false} MintedUnchanged(env: Env, ops: seq<Op>, events: seq<Event>)
    ensures Interleave(env, ops, events).run.minted == Execute(env, ops).minted
  {
    if events != [] {
      var init, e := events[..|events| - 1], events[|events| - 1];
      MintedUnchanged(env, ops, init);
      if e.Tick? && e.t in Interleave(env, ops, init).calls {
        TickFrame(env, Interleave(env, ops, init), e.t, e.supplyOk);
      }
    }
  }
}
