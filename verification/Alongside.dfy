/** Concurrent inserts with everything else the node does beside them: genesis transactions, status
    changes, pruning and the calls of the staking ledger, each taken access by access as well. */
module Alongside {
  import opened Core
  import opened Sums
  import opened Ledgers
  import opened Dags
  import opened History
  import opened Concurrent

  /** A call between two of its accesses: a request whose stake is taken and not yet queued, a payout
      collected from the queue and not yet credited, or a genesis transaction credited whose node, tip
      and count are still to come. */
  datatype Hand =
    | Queueing(a: Address, amount: u64, time: u64, epoch: u64)
    | Owing(a: Address, amount: u64)
    | Minting(tx: Transaction, left: nat)
  {
    function Coins(): nat { if Minting? then 0 else amount }
  }

  datatype World = World(base: State, hands: map<nat, Hand>)
  {
    function Ledger(): Ledger { base.Dag().ledger }

    function WithDag(d: Dag): World { this.(base := base.(run := base.run.(dag := d))) }

    function WithLedger(l: Ledger): World { WithDag(base.Dag().(ledger := l)) }
  }

  /** A step of an insert, or a step of something else. `Evict` drops one entry in the retain loop of
      prune_confirmed, which read the maximum depth earlier. */
  datatype Turn =
    | Insert(e: Event)
    | Issue(k: nat, tx: Transaction)
    | SetStatus(h: TxHash, status: Status)
    | Evict(h: TxHash, seenMax: nat, confirmations: nat)
    | PutStake(a: Address, amount: u64)
    | TakeStake(k: nat, a: Address, amount: u64, time: u64, epoch: u64)
    | Collect(k: nat, a: Address, time: u64, epoch: u64)
    | Continue(k: nat)

  ghost function Act(env: Env, w: World, b: Turn): World {
    var d, l := w.base.Dag(), w.Ledger();
    match b
    case Insert(e) => w.(base := Next(env, w.base, e))
    case Issue(k, tx) =>
      if k in w.hands || !tx.IsGenesis() then w
      else World(w.base.(run := Minted(w.base.run, tx)), w.hands[k := Minting(tx, 3)])
    case SetStatus(h, s) => w.WithDag(AfterStatus(d, h, s))
    case Evict(h, seen, c) =>
      if h in d.nodes && Prunable(d.nodes[h], seen, c) then w.WithDag(d.(nodes := d.nodes - {h})) else w
    case PutStake(a, n) =>
      w.(base := w.base.(run := w.base.run.(dag := d.(ledger := l.AddStake(a, n)), minted := w.base.run.minted + n)))
    case TakeStake(k, a, n, time, epoch) =>
      if k in w.hands then w
      else if l.StakeOf(a) < n then w.WithLedger(l.RemoveStake(a, n))
      else w.WithLedger(l.RemoveStake(a, n)).(hands := w.hands[k := Queueing(a, n, time, epoch)])
    case Collect(k, a, time, epoch) =>
      if k in w.hands || a !in l.unstakes then w
      else w.WithLedger(Collected(l, a, time, epoch)).(hands := w.hands[k := Owing(a, l.Payout(a, time, epoch))])
    case Continue(k) => if k in w.hands then Continued(env, w, k) else w
  }

  /** The credit of insert_genesis, with which the transaction joins the history. */
  ghost function Minted(r: Run, tx: Transaction): Run {
    Run(r.dag.(ledger := r.dag.ledger.Credit(tx.receiver, tx.amount)), r.past + [Past(tx, true)],
        r.minted + tx.amount, r.burned)
  }

  function Collected(l: Ledger, a: Address, time: u64, epoch: u64): Ledger {
    l.(unstakes := l.unstakes[a := Kept(l.Queue(a), time, epoch)])
  }

  function Queued(l: Ledger, a: Address, amount: u64, time: u64, epoch: u64): Ledger {
    var req := UnstakeRequest(amount, WrappingAdd(time, LOCK_MS), WrappingAdd(epoch, LOCK_EPOCHS));
    l.(unstakes := l.unstakes[a := l.Queue(a) + [req]])
  }

  ghost function Continued(env: Env, w: World, k: nat): World
    requires k in w.hands
  {
    var d, l, rest := w.base.Dag(), w.Ledger(), w.hands - {k};
    match w.hands[k]
    case Queueing(a, n, time, epoch) => w.WithLedger(Queued(l, a, n, time, epoch)).(hands := rest)
    case Owing(a, n) => (if n > 0 then w.WithLedger(l.Credit(a, n)) else w).(hands := rest)
    case Minting(tx, left) =>
      var hands := if left <= 1 then rest else w.hands[k := Minting(tx, left - 1)];
      w.WithDag(GenesisStep(env, d, tx, left)).(hands := hands)
  }

  /** The node, the tip and the count of a genesis transaction, in this order. */
  function GenesisStep(env: Env, d: Dag, tx: Transaction, left: nat): Dag {
    var h := env.hash(tx);
    if left == 3 then d.(nodes := d.nodes[h := Node(tx, h, Confirmed, [], 1, 0)])
    else if left == 2 then d.(tips := d.tips + {h})
    else d.(totalCount := d.totalCount + 1)
  }

  ghost function Unfold(env: Env, ops: seq<Op>, turns: seq<Turn>): World {
    if turns == [] then World(State(Execute(env, ops), map[], map[]), map[])
    else Act(env, Unfold(env, ops, turns[..|turns| - 1]), turns[|turns| - 1])
  }

  // ---- The invariant -------------------------------------------------------------------------

  ghost function Coins(hands: map<nat, Hand>): map<nat, nat> {
    map k | k in hands :: hands[k].Coins()
  }

  ghost function InHand(w: World): nat { Sum(Coins(w.hands)) }

  /** Everything minted is in circulation, in flight, in hand or burned. */
  ghost predicate Books(w: World) {
    w.Ledger().Circulating() + Sum(InFlight(w.base.calls)) + InHand(w) + w.base.run.burned == w.base.run.minted
  }

  /** The parts of the invariant of the inserts that are about calls, locks and nonces. */
  ghost predicate CallsInv(env: Env, s: State) {
    CallsOk(env, s) && LocksOk(s) && forall a :: IndexedSoFar(env, s, a)
  }

  ghost predicate WorldInv(env: Env, w: World) {
    CallsInv(env, w.base) && Books(w) && w.base.run.minted < TWO64
  }

  /** The state of the inserts as if the coins in hand had never been minted. */
  ghost function Less(s: State, n: nat): State
    requires n <= s.run.minted
  {
    s.(run := s.run.(minted := s.run.minted - n))
  }

  lemma HandsUpdate(hands: map<nat, Hand>, k: nat, hand: Hand)
    ensures Sum(Coins(hands[k := hand]))
         == Sum(Coins(hands)) - (if k in hands then hands[k].Coins() else 0) + hand.Coins()
  {
    assert Coins(hands[k := hand]) == Coins(hands)[k := hand.Coins()];
    SumUpdate(Coins(hands), k, hand.Coins());
  }

  lemma HandsRemove(hands: map<nat, Hand>, k: nat)
    requires k in hands
    ensures Sum(Coins(hands - {k})) == Sum(Coins(hands)) - hands[k].Coins()
  {
    assert Coins(hands - {k}) == Coins(hands) - {k};
    SumRemove(Coins(hands), k);
  }

  /** No step of an insert looks at what was minted. */
  lemma NextLess(env: Env, s: State, e: Event, n: nat)
    requires n <= s.run.minted
    ensures Next(env, s, e).run.minted == s.run.minted
    ensures Next(env, Less(s, n), e) == Less(Next(env, s, e), n)
  {}

  lemma LessInv(env: Env, w: World)
    requires WorldInv(env, w)
    ensures Inv(env, Less(w.base, InHand(w)))
  {
    LessCalls(env, w.base, Less(w.base, InHand(w)));
  }

  lemma LessCalls(env: Env, s: State, s': State)
    requires CallsInv(env, s) && s' == s.(run := s.run.(minted := s'.run.minted))
    ensures CallsInv(env, s')
  {
    forall t | t in s'.calls
      ensures CallOk(env, s', t)
    {
      assert CallOk(env, s, t);
    }
    forall a
      ensures IndexedSoFar(env, s', a)
    {
      assert IndexedSoFar(env, s, a) && HolderAt(s', a) == HolderAt(s, a);
    }
  }

  lemma InsertKeeps(env: Env, w: World, e: Event)
    requires WorldInv(env, w)
    ensures WorldInv(env, Act(env, w, Insert(e)))
  {
    var n := InHand(w);
    LessInv(env, w);
    NextKeepsInv(env, Less(w.base, n), e);
    NextLess(env, w.base, e, n);
    LessCalls(env, Next(env, Less(w.base, n), e), Next(env, w.base, e));
  }

  /** What the other calls do to the state leaves nonces and index alone and takes from no balance. */
  ghost predicate Gentle(s: State, r: Run) {
    var l, l' := s.Dag().ledger, r.dag.ledger;
    && l'.nonces == l.nonces && r.dag.committed == s.Dag().committed
    && (forall a :: l'.Balance(a) >= l.Balance(a))
    && (r.past == s.run.past || exists p: Past :: p.minted && r.past == s.run.past + [p])
  }

  lemma GentleIndexed(env: Env, s: State, r: Run, a: Address)
    requires Gentle(s, r) && IndexedSoFar(env, s, a)
    ensures IndexedSoFar(env, s.(run := r), a)
  {
    if r.past != s.run.past {
      var p: Past :| p.minted && r.past == s.run.past + [p];
      SentBySnoc(s.run.past, p, a);
    }
    assert HolderAt(s.(run := r), a) == HolderAt(s, a);
  }

  lemma GentleKeeps(env: Env, s: State, r: Run)
    requires CallsInv(env, s) && Gentle(s, r)
    ensures CallsInv(env, s.(run := r))
  {
    var after := s.(run := r);
    forall t | t in after.calls
      ensures CallOk(env, after, t)
    {
      assert CallOk(env, s, t);
    }
    forall a {
      GentleIndexed(env, s, r, a);
    }
  }

  // ---- The other calls ---------------------------------------------------------------------------

  lemma TakesStake(l: Ledger, a: Address, n: u64)
    ensures l.RemoveStake(a, n).Circulating() == l.Circulating() - if l.StakeOf(a) < n then 0 else n
  {
    SumUpdate(l.stakes, a, if l.StakeOf(a) < n then l.StakeOf(a) else l.StakeOf(a) - n);
  }

  lemma QueueingAdds(l: Ledger, a: Address, n: u64, time: u64, epoch: u64)
    ensures Queued(l, a, n, time, epoch).Circulating() == l.Circulating() + n
  {
    JoinsQueue(l, a, UnstakeRequest(n, WrappingAdd(time, LOCK_MS), WrappingAdd(epoch, LOCK_EPOCHS)));
  }

  lemma CollectingTakes(l: Ledger, a: Address, time: u64, epoch: u64)
    requires a in l.unstakes && l.Circulating() < TWO64
    ensures Collected(l, a, time, epoch).Circulating() == l.Circulating() - l.Payout(a, time, epoch)
  {
    SumBounds(Totals(l.unstakes), a);
    KeptPlusReleased(l.unstakes[a], time, epoch);
    QueueUpdate(l, a, Kept(l.Queue(a), time, epoch));
  }

  lemma IssueBooks(env: Env, w: World, k: nat, tx: Transaction)
    requires Books(w) && Act(env, w, Issue(k, tx)).base.run.minted < TWO64
    ensures Books(Act(env, w, Issue(k, tx)))
  {
    if k !in w.hands && tx.IsGenesis() {
      CreditAdds(w.Ledger(), tx.receiver, tx.amount);
      HandsUpdate(w.hands, k, Minting(tx, 3));
    }
  }

  lemma CollectBooks(env: Env, w: World, k: nat, a: Address, time: u64, epoch: u64)
    requires Books(w) && w.base.run.minted < TWO64
    ensures Books(Act(env, w, Collect(k, a, time, epoch)))
  {
    if k !in w.hands && a in w.Ledger().unstakes {
      CollectingTakes(w.Ledger(), a, time, epoch);
      HandsUpdate(w.hands, k, Owing(a, w.Ledger().Payout(a, time, epoch)));
    }
  }

  lemma TakeBooks(env: Env, w: World, k: nat, a: Address, n: u64, time: u64, epoch: u64)
    requires Books(w)
    ensures Books(Act(env, w, TakeStake(k, a, n, time, epoch)))
  {
    TakesStake(w.Ledger(), a, n);
    HandsUpdate(w.hands, k, Queueing(a, n, time, epoch));
  }

  /** A turn that is no step of an insert: it moves coins between ledger and hands, or mints them. */
  lemma OtherBooks(env: Env, w: World, b: Turn)
    requires Books(w) && !b.Insert? && Act(env, w, b).base.run.minted < TWO64
    ensures Books(Act(env, w, b))
  {
    match b
    case Issue(k, tx) => IssueBooks(env, w, k, tx);
    case SetStatus(_, _) =>
    case Evict(_, _, _) =>
    case PutStake(a, n) => AddStakeAdds(w.Ledger(), a, n);
    case TakeStake(k, a, n, time, epoch) => TakeBooks(env, w, k, a, n, time, epoch);
    case Collect(k, a, time, epoch) => CollectBooks(env, w, k, a, time, epoch);
    case Continue(k) =>
      if k in w.hands {
        ContinueBooks(env, w, k);
      }
  }

  lemma ContinueBooks(env: Env, w: World, k: nat)
    requires Books(w) && k in w.hands && w.base.run.minted < TWO64
    ensures Books(Continued(env, w, k))
  {
    HandsRemove(w.hands, k);
    match w.hands[k]
    case Queueing(a, n, time, epoch) => QueueingAdds(w.Ledger(), a, n, time, epoch);
    case Owing(a, n) =>
      if n > 0 {
        CreditAdds(w.Ledger(), a, n);
      }
    case Minting(tx, left) =>
      if left > 1 {
        HandsUpdate(w.hands, k, Minting(tx, left - 1));
      }
  }

  lemma CreditGentle(s: State, r: Run, a: Address, n: u64)
    requires s.Dag().ledger.Circulating() + n < TWO64 && r.dag.ledger == s.Dag().ledger.Credit(a, n)
    requires r.dag.committed == s.Dag().committed
    requires r.past == s.run.past || exists p: Past :: p.minted && r.past == s.run.past + [p]
    ensures Gentle(s, r)
  {
    CreditAdds(s.Dag().ledger, a, n);
  }

  lemma IssueGentle(s: State, tx: Transaction)
    requires s.Dag().ledger.Circulating() + tx.amount < TWO64
    ensures Gentle(s, Minted(s.run, tx))
  {
    assert Past(tx, true).minted;
    CreditGentle(s, Minted(s.run, tx), tx.receiver, tx.amount);
  }

  /** The turns that touch no balance. */
  lemma PlainGentle(env: Env, w: World, b: Turn)
    requires !b.Insert? && !b.Issue? && !b.Continue?
    ensures var after := Act(env, w, b); after.base == w.base.(run := after.base.run) && Gentle(w.base, after.base.run)
  {}

  lemma ContinueGentle(env: Env, w: World, k: nat)
    requires Books(w) && k in w.hands && w.base.run.minted < TWO64
    ensures var after := Continued(env, w, k);
            after.base == w.base.(run := after.base.run) && Gentle(w.base, after.base.run)
  {
    if w.hands[k].Owing? {
      HandsRemove(w.hands, k);
      CreditGentle(w.base, w.WithLedger(w.Ledger().Credit(w.hands[k].a, w.hands[k].amount)).base.run, w.hands[k].a,
                   w.hands[k].amount);
    }
  }

  lemma OtherGentle(env: Env, w: World, b: Turn)
    requires Books(w) && !b.Insert? && Act(env, w, b).base.run.minted < TWO64
    ensures var after := Act(env, w, b); after.base == w.base.(run := after.base.run) && Gentle(w.base, after.base.run)
  {
    match b
    case Issue(k, tx) =>
      if k !in w.hands && tx.IsGenesis() {
        IssueGentle(w.base, tx);
      }
    case Continue(k) =>
      if k in w.hands {
        ContinueGentle(env, w, k);
      }
    case _ => PlainGentle(env, w, b);
  }

  lemma ActKeeps(env: Env, w: World, b: Turn)
    requires WorldInv(env, w) && Act(env, w, b).base.run.minted < TWO64
    ensures WorldInv(env, Act(env, w, b))
  {
    if b.Insert? {
      InsertKeeps(env, w, b.e);
    } else {
      OtherBooks(env, w, b);
      OtherGentle(env, w, b);
      GentleKeeps(env, w.base, Act(env, w, b).base.run);
    }
  }

  lemma MintedGrows(env: Env, w: World, b: Turn)
    ensures w.base.run.minted <= Act(env, w, b).base.run.minted
  {
    if b.Insert? {
      NextLess(env, w.base, b.e, 0);
    }
  }

  /** Every state that inserts and all these other calls can reach together keeps the books, the locks, the
      funds checked and the nonce index, as long as what is minted fits a u64. */
  lemma {:induction false} UnfoldKeepsInv(env: Env, ops: seq<Op>, turns: seq<Turn>)
    requires Unfold(env, ops, turns).base.run.minted < TWO64
    ensures WorldInv(env, Unfold(env, ops, turns))
  {
    if turns == [] {
      StartInv(env, ops);
      assert Coins(map[]) == map[];
    } else {
      var init, b := turns[..|turns| - 1], turns[|turns| - 1];
      MintedGrows(env, Unfold(env, ops, init), b);
      UnfoldKeepsInv(env, ops, init);
      ActKeeps(env, Unfold(env, ops, init), b);
    }
  }

  /** Balances, stakes and queued unstakes, coins in flight or in hand, and burned fees are together
      exactly what was minted, between any two steps. */
  lemma WorldConserved(env: Env, ops: seq<Op>, turns: seq<Turn>)
    requires Unfold(env, ops, turns).base.run.minted < TWO64
    ensures var w := Unfold(env, ops, turns);
            w.Ledger().Circulating() + Sum(InFlight(w.base.calls)) + InHand(w) + w.base.run.burned == w.base.run.minted
  {
    UnfoldKeepsInv(env, ops, turns);
  }

  /** The debit after the balance check finds the money, and nonces are consumed once, whatever the other
      calls do. */
  lemma InsertsUndisturbed(env: Env, ops: seq<Op>, turns: seq<Turn>)
    requires Unfold(env, ops, turns).base.run.minted < TWO64
    ensures var s := Unfold(env, ops, turns).base;
            && (forall t :: t in s.calls && s.calls[t].pc.LoadBalance? ==>
                  PayStep(env, s, t).calls[t].pc.SwapBalance?)
            && NoncesRise(s.run.past)
  {
    UnfoldKeepsInv(env, ops, turns);
    var s := Unfold(env, ops, turns).base;
    IndexedRises(env, s);
    forall t | t in s.calls {
      LoadFinds(env, s, t);
    }
  }

  // ---- Left alone, the steps are the calls ---------------------------------------------------------

  /** A genesis transaction whose four steps nobody interrupts is the sequential one: credit, history, a
      confirmed node of depth 0, tip and count. */
  lemma GenesisAlone(env: Env, w: World, k: nat, tx: Transaction)
    requires k !in w.hands && tx.IsGenesis()
    ensures var c := Continue(k);
            var after := Act(env, Act(env, Act(env, Act(env, w, Issue(k, tx)), c), c), c);
            && after == w.(base := w.base.(run := Step(env, w.base.run, Mint(tx))))
            && env.hash(tx) in after.base.Dag().nodes
            && after.base.Dag().nodes[env.hash(tx)] == Node(tx, env.hash(tx), Confirmed, [], 1, 0)
  {
    var w1 := Act(env, w, Issue(k, tx));
    var w2 := Act(env, w1, Continue(k));
    var w3 := Act(env, w2, Continue(k));
    assert w1.hands[k] == Minting(tx, 3) && w2.hands[k] == Minting(tx, 2) && w3.hands[k] == Minting(tx, 1);
    assert w3.hands - {k} == w.hands;
  }

  /** A request for unstaking left alone is the sequential one, granted or refused. */
  lemma RequestAlone(env: Env, w: World, k: nat, a: Address, n: u64, time: u64, epoch: u64)
    requires k !in w.hands
    ensures var after := Act(env, Act(env, w, TakeStake(k, a, n, time, epoch)), Continue(k));
            after == w.(base := w.base.(run := Step(env, w.base.run, RequestUnstake(a, n, time, epoch))))
  {
    var taken := Act(env, w, TakeStake(k, a, n, time, epoch));
    if n <= w.Ledger().StakeOf(a) {
      assert taken.hands - {k} == w.hands;
    }
  }

  /** So is a payout. */
  lemma PayoutAlone(env: Env, w: World, k: nat, a: Address, time: u64, epoch: u64)
    requires k !in w.hands
    ensures var after := Act(env, Act(env, w, Collect(k, a, time, epoch)), Continue(k));
            after == w.(base := w.base.(run := Step(env, w.base.run, ProcessUnstakes(a, time, epoch))))
  {
    var collected := Act(env, w, Collect(k, a, time, epoch));
    if a in w.Ledger().unstakes {
      assert collected.hands - {k} == w.hands;
    }
  }

  /** Pruning takes an entry only if it is confirmed and deep enough. */
  lemma EvictTakesRipe(env: Env, w: World, h: TxHash, seen: nat, confirmations: nat)
    ensures var nodes, after := w.base.Dag().nodes, Act(env, w, Evict(h, seen, confirmations));
            var ripe := h in nodes && nodes[h].status == Confirmed && nodes[h].depth + confirmations < seen;
            after == if ripe then w.WithDag(w.base.Dag().(nodes := nodes - {h})) else w
  {}
}
