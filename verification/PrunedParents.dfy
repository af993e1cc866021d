/** Pruning beside an insert can cost the new transaction its depth: how, and one run in which it does. */
module PrunedParents {
  import opened Core
  import opened Ledgers
  import opened Conflicts
  import opened Dags
  import opened History
  import opened Structure
  import opened Concurrent
  import opened Alone
  import opened Alongside

  // ---- From an acceptable transaction to its first read --------------------------------------------

  function Ticks(t: Tid, ok: bool, k: nat): seq<Turn> {
    if k == 0 then [] else Ticks(t, ok, k - 1) + [Insert(Tick(t, ok))]
  }

  lemma UnfoldSnoc(env: Env, ops: seq<Op>, turns: seq<Turn>, b: Turn)
    ensures Unfold(env, ops, turns + [b]) == Act(env, Unfold(env, ops, turns), b)
  {
    assert (turns + [b])[..|turns|] == turns;
  }

  lemma {:induction false} UnfoldTicks(env: Env, ops: seq<Op>, turns: seq<Turn>, t: Tid, ok: bool, k: nat)
    ensures var w := Unfold(env, ops, turns);
            Unfold(env, ops, turns + Ticks(t, ok, k)) == w.(base := Repeat(TickOf(env, t, ok), w.base, k))
  {
    if k > 0 {
      UnfoldTicks(env, ops, turns, t, ok, k - 1);
      UnfoldSnoc(env, ops, turns + Ticks(t, ok, k - 1), Insert(Tick(t, ok)));
      Reassociate(turns, Ticks(t, ok, k - 1), [Insert(Tick(t, ok))]);
    } else {
      assert turns + [] == turns;
    }
  }

  /** The call of an acceptable transaction, checked and paid for, with the graph still as it was. */
  ghost predicate AboutToRead(s: State, t: Tid, tx: Transaction, d: Dag) {
    && t in s.calls && s.calls[t].tx == tx && s.calls[t].pc.ReadDepth1?
    && s.Dag().nodes == d.nodes && s.Dag().maxDepth == d.maxDepth
  }

  lemma ReadyAlone(env: Env, s: State, t: Tid, tx: Transaction) returns (after: State)
    requires t !in s.calls && tx.sender !in s.locks && Refusal(env, s.Dag(), tx).None? && !tx.IsGenesis()
    ensures Reaches(TickOf(env, t, SupplyAllows(s.Dag(), tx)), Next(env, s, Begin(t, tx)), after)
    ensures AboutToRead(after, t, tx, s.Dag())
  {
    var d := s.Dag();
    var ok, locked := SupplyAllows(d, tx), s.(locks := s.locks[tx.sender := t]);
    var tick, begun, c := TickOf(env, t, ok), Next(env, s, Begin(t, tx)), AtDuplicateCheck(tx);
    AcquireAlone(env, s, t, tx, ok);
    ChecksAlone(env, locked, t, ok, s.run, c);
    ChecksAgree(env, d, c, ok);
    var c1 := AfterChecks(env, d, c, ok);
    ReachesTrans(tick, begun, At(locked, t, s.run, c), At(locked, t, s.run, c1));
    PayAlone(env, locked, t, ok, s.run, c1);
    after := At(locked, t, Paid(env, s.run, tx), c1.(pc := ReadDepth1, depth := 0));
    ReachesTrans(tick, begun, At(locked, t, s.run, c1), after);
  }

  lemma ReadyTurns(env: Env, ops: seq<Op>, tx: Transaction) returns (turns: seq<Turn>)
    requires Refusal(env, Execute(env, ops).dag, tx).None? && !tx.IsGenesis()
    ensures AboutToRead(Unfold(env, ops, turns).base, 0, tx, Execute(env, ops).dag)
  {
    var start := State(Execute(env, ops), map[], map[]);
    var ok, begin := SupplyAllows(start.Dag(), tx), [Insert(Begin(0, tx))];
    var ready := ReadyAlone(env, start, 0, tx);
    var k: nat :| Repeat(TickOf(env, 0, ok), Next(env, start, Begin(0, tx)), k) == ready;
    UnfoldSnoc(env, ops, [], Insert(Begin(0, tx)));
    assert [] + begin == begin;
    UnfoldTicks(env, ops, begin, 0, ok, k);
    turns := begin + Ticks(0, ok, k);
  }

  // ---- Both parents go before they are read --------------------------------------------------------

  ghost predicate PrunableAt(d: Dag, h: TxHash, confirmations: nat) {
    h in d.nodes && Prunable(d.nodes[h], d.maxDepth, confirmations)
  }

  lemma EvictBoth(env: Env, w: World, t: Tid, tx: Transaction, d: Dag, confirmations: nat) returns (after: World)
    requires AboutToRead(w.base, t, tx, d)
    requires PrunableAt(d, tx.parent1, confirmations) && PrunableAt(d, tx.parent2, confirmations)
    ensures after == Act(env, Act(env, w, Evict(tx.parent1, d.maxDepth, confirmations)),
                         Evict(tx.parent2, d.maxDepth, confirmations))
    ensures after.base.calls == w.base.calls
    ensures tx.parent1 !in after.base.Dag().nodes && tx.parent2 !in after.base.Dag().nodes
  {
    after := Act(env, Act(env, w, Evict(tx.parent1, d.maxDepth, confirmations)),
                 Evict(tx.parent2, d.maxDepth, confirmations));
  }

  lemma ReadNothing(env: Env, s: State, t: Tid, tx: Transaction)
    requires t in s.calls && s.calls[t].tx == tx && s.calls[t].pc.ReadDepth1?
    requires tx.parent1 !in s.Dag().nodes && tx.parent2 !in s.Dag().nodes
    ensures var after := Next(env, Next(env, s, Tick(t, true)), Tick(t, true));
            t in after.calls && after.calls[t].tx == tx && after.calls[t].pc.LoadMax? && after.calls[t].depth == 1
  {}

  /** Any transaction that insert would accept while both its parents are ripe for pruning can get depth 1:
      pruning drops them after they were found and before they are read. Run alone, insert would have given
      it one more than the depth of the deeper parent. */
  lemma PruningMisleads(env: Env, ops: seq<Op>, tx: Transaction, confirmations: nat) returns (turns: seq<Turn>)
    requires var d := Execute(env, ops).dag;
             && Refusal(env, d, tx).None? && !tx.IsGenesis()
             && PrunableAt(d, tx.parent1, confirmations) && PrunableAt(d, tx.parent2, confirmations)
    ensures var calls := Unfold(env, ops, turns).base.calls;
            0 in calls && calls[0].tx == tx && calls[0].pc.LoadMax? && calls[0].depth == 1
  {
    var d := Execute(env, ops).dag;
    var ready := ReadyTurns(env, ops, tx);
    var one, two := Evict(tx.parent1, d.maxDepth, confirmations), Evict(tx.parent2, d.maxDepth, confirmations);
    UnfoldSnoc(env, ops, ready, one);
    UnfoldSnoc(env, ops, ready + [one], two);
    var evicted := EvictBoth(env, Unfold(env, ops, ready), 0, tx, d, confirmations);
    ReadNothing(env, evicted.base, 0, tx);
    var tick := Insert(Tick(0, true));
    UnfoldSnoc(env, ops, ready + [one] + [two], tick);
    UnfoldSnoc(env, ops, ready + [one] + [two] + [tick], tick);
    turns := ready + [one] + [two] + [tick] + [tick];
  }

  // ---- A run in which it happens -------------------------------------------------------------------

  const SENDER := Address("s")
  const FUNDS: u64 := 10 * RLY_UNIT
  const ENV := Env((tx: Transaction) => TxHash([tx.nonce % 256]), (tx: Transaction) => tx.sender,
                   (tx: Transaction) => Verified)

  function Name(n: nat): TxHash
    requires n < 256
  {
    TxHash([n])
  }

  const GENESIS := Transaction(Genesis, Address("r"), SENDER, FUNDS, 0, 0, 0, ZERO_HASH, ZERO_HASH, [], [])

  /** The sender's transaction number `n`, hung under its number `p` twice. */
  function Spend(n: nat, p: nat): Transaction
    requires n < 256 && p < 256
  {
    Transaction(Transfer, SENDER, Address("r"), 1, BASE_FEE, 0, n, Name(p), Name(p), [], [])
  }

  /** After the genesis and `k` transactions, each hung under the one before. */
  ghost predicate Chain(r: Run, k: nat) {
    && k < 100 && r.dag.maxDepth == k && r.minted == FUNDS
    && r.dag.ledger.Nonce(SENDER) == k && r.dag.ledger.Balance(SENDER) + 2_000_000 * k >= FUNDS
    && NodeChain(r.dag.nodes, k)
  }

  ghost predicate NodeChain(nodes: Nodes, k: nat) {
    forall i :: 0 <= i < 256 ==> if i <= k then Name(i) in nodes && nodes[Name(i)].depth == i else Name(i) !in nodes
  }

  lemma ChainStart()
    ensures Chain(Execute(ENV, [Mint(GENESIS)]), 0)
  {
    assert Execute(ENV, [Mint(GENESIS)][..0]) == START;
  }

  lemma SpendValid(n: nat, p: nat)
    requires n < 256 && p < 256
    ensures ENV.Validates(Spend(n, p)) && ENV.hash(Spend(n, p)) == Name(n) && !Spend(n, p).IsGenesis()
  {}

  lemma SpendAccepted(d: Dag, n: nat, p: nat)
    requires n < 256 && p < 256 && d.ledger.Circulating() <= FUNDS && 1 + BASE_FEE <= d.ledger.Balance(SENDER)
    requires d.ledger.Nonce(SENDER) + 1 == n && (SENDER, n) !in d.committed
    requires Name(n) !in d.nodes && Name(p) in d.nodes
    ensures Refusal(ENV, d, Spend(n, p)).None?
  {
    SpendValid(n, p);
    assert Check(d.committed, Spend(n, p), d.ledger.Balance(SENDER), 0).NoConflict?;
  }

  /** What every run keeps, for the sender at hand. */
  ghost predicate RunSound(r: Run) { Balanced(r) && Indexed(ENV, r, SENDER) }

  lemma NextNonceFree(r: Run)
    requires RunSound(r) && r.minted == FUNDS && r.dag.ledger.Nonce(SENDER) < 100
    ensures r.dag.ledger.Circulating() <= FUNDS
    ensures (SENDER, r.dag.ledger.Nonce(SENDER) + 1) !in r.dag.committed
  {}

  lemma ChainAccepts(r: Run, k: nat, p: nat)
    requires RunSound(r) && Chain(r, k) && p <= k < 99
    ensures Refusal(ENV, r.dag, Spend(k + 1, p)).None?
  {
    NextNonceFree(r);
    SpendAccepted(r.dag, k + 1, p);
  }

  lemma AllSound(ops: seq<Op>)
    ensures RunSound(Execute(ENV, ops))
  {
    RunBalanced(ENV, ops);
    RunIndexed(ENV, ops, SENDER);
  }

  lemma SpendPays(l: Ledger, n: nat, p: nat)
    requires n < 256 && p < 256 && 1 + BASE_FEE <= l.Balance(SENDER)
    ensures Pay(l, Spend(n, p)).Balance(SENDER) == l.Balance(SENDER) - (1 + BASE_FEE)
    ensures Pay(l, Spend(n, p)).Nonce(SENDER) == l.Nonce(SENDER) + 1
  {}

  lemma SpendAttaches(nodes: Nodes, n: nat, p: nat, i: nat)
    requires n < 256 && p < 256 && i < 256 && Name(p) in nodes
    ensures Name(i) in Attach(nodes, Spend(n, p), Name(n)) <==> Name(i) in nodes
    ensures Name(i) in nodes ==> Attach(nodes, Spend(n, p), Name(n))[Name(i)].depth == nodes[Name(i)].depth
  {
    SpendValid(n, p);
    AttachAt(ENV, nodes, Spend(n, p), Name(i));
  }

  lemma ChainGrows(ops: seq<Op>, k: nat)
    requires Chain(Execute(ENV, ops), k) && k < 99
    ensures Chain(Execute(ENV, ops + [Submit(Spend(k + 1, k))]), k + 1)
  {
    AllSound(ops);
    ChainSubmit(Execute(ENV, ops), k);
    assert (ops + [Submit(Spend(k + 1, k))])[..|ops|] == ops;
  }

  lemma ChainSubmit(r: Run, k: nat)
    requires RunSound(r) && Chain(r, k) && k < 99
    ensures Chain(Step(ENV, r, Submit(Spend(k + 1, k))), k + 1)
  {
    ChainAccepts(r, k, k);
    SubmitFields(r, Spend(k + 1, k));
    SpendValid(k + 1, k);
    ChainDepth(r.dag.nodes, k);
    ChainStep(r, Step(ENV, r, Submit(Spend(k + 1, k))), k);
  }

  lemma SubmitFields(r: Run, tx: Transaction)
    requires Refusal(ENV, r.dag, tx).None?
    ensures var after, h, depth := Step(ENV, r, Submit(tx)), ENV.hash(tx), NewDepth(r.dag.nodes, tx);
            && after.dag.ledger == Pay(r.dag.ledger, tx) && after.minted == r.minted
            && after.dag.nodes == Attach(r.dag.nodes, tx, h)[h := Node(tx, h, Pending, [], 1, depth)]
            && after.dag.maxDepth == Max(r.dag.maxDepth, depth)
  {}

  lemma ChainStep(r: Run, after: Run, k: nat)
    requires Chain(r, k) && k < 99
    requires var tx := Spend(k + 1, k);
             && after.dag.ledger == Pay(r.dag.ledger, tx) && after.minted == r.minted
             && after.dag.nodes
                == Attach(r.dag.nodes, tx, Name(k + 1))[Name(k + 1) := Node(tx, Name(k + 1), Pending, [], 1, k + 1)]
             && after.dag.maxDepth == k + 1
    ensures Chain(after, k + 1)
  {
    SpendPays(r.dag.ledger, k + 1, k);
    ChainNodes(r.dag.nodes, after.dag.nodes, k);
  }

  lemma ChainDepth(nodes: Nodes, k: nat)
    requires NodeChain(nodes, k) && k < 99
    ensures NewDepth(nodes, Spend(k + 1, k)) == k + 1
  {}

  lemma ChainNodes(nodes: Nodes, after: Nodes, k: nat)
    requires NodeChain(nodes, k) && k < 99
    requires var tx := Spend(k + 1, k);
             after == Attach(nodes, tx, Name(k + 1))[Name(k + 1) := Node(tx, Name(k + 1), Pending, [], 1, k + 1)]
    ensures NodeChain(after, k + 1)
  {
    forall i | 0 <= i < 256
      ensures if i <= k + 1 then Name(i) in after && after[Name(i)].depth == i else Name(i) !in after
    {
      SpendAttaches(nodes, k + 1, k, i);
    }
  }

  lemma ConfirmKeepsChain(r: Run, after: Run, k: nat, i: nat)
    requires Chain(r, k) && i <= k && after == Step(ENV, r, Mark(Name(i), Confirmed))
    ensures Chain(after, k) && (PrunableAt(after.dag, Name(i), 0) <==> i < k)
  {}

  lemma ChainOfTwo() returns (ops: seq<Op>)
    ensures Chain(Execute(ENV, ops), 2)
  {
    ChainStart();
    var one := [Mint(GENESIS)] + [Submit(Spend(1, 0))];
    ChainGrows([Mint(GENESIS)], 0);
    ops := one + [Submit(Spend(2, 1))];
    ChainGrows(one, 1);
  }

  /** Two transactions above the genesis, the first of them confirmed and, with a bound of 0, ripe for
      pruning: a third one hung under it belongs at depth 2 and can get depth 1. */
  lemma PrunedParentRun() returns (ops: seq<Op>, turns: seq<Turn>)
    ensures NewDepth(Execute(ENV, ops).dag.nodes, Spend(3, 1)) == 2
    ensures var calls := Unfold(ENV, ops, turns).base.calls;
            0 in calls && calls[0].tx == Spend(3, 1) && calls[0].pc.LoadMax? && calls[0].depth == 1
  {
    var two := ChainOfTwo();
    ops := two + [Mark(Name(1), Confirmed)];
    assert ops[..|two|] == two;
    ConfirmKeepsChain(Execute(ENV, two), Execute(ENV, ops), 2, 1);
    AllSound(ops);
    ChainAccepts(Execute(ENV, ops), 2, 1);
    SpendValid(3, 1);
    turns := PruningMisleads(ENV, ops, Spend(3, 1), 0);
  }
}
