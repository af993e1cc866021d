/** The shape of the DAG over every run: children, weights, tips and depths against the history. */
module Structure {
  import opened Core
  import opened Ledgers
  import opened Dags
  import opened Bfs
  import opened History

  /** No two transactions of the history share a hash and none hashes to the zero sentinel. */
  ghost predicate Clean(env: Env, past: seq<Past>) {
    && (forall i, j :: 0 <= i < j < |past| ==> env.hash(past[i].tx) != env.hash(past[j].tx))
    && NonZero(env, past)
  }

  ghost predicate NonZero(env: Env, past: seq<Past>) {
    forall i :: 0 <= i < |past| ==> env.hash(past[i].tx) != ZERO_HASH
  }

  ghost predicate Recorded(env: Env, past: seq<Past>, h: TxHash) {
    exists i :: 0 <= i < |past| && env.hash(past[i].tx) == h
  }

  /** One entry per parent slot of `tx` that names `h`. */
  function SlotsOf(env: Env, tx: Transaction, h: TxHash): seq<TxHash> {
    if tx.IsGenesis() then [] else
      (if tx.parent1 == h then [env.hash(tx)] else []) + (if tx.parent2 == h then [env.hash(tx)] else [])
  }

  /** Every transaction of the history that names `h` as a parent, once per slot. */
  ghost function ChildrenOf(env: Env, past: seq<Past>, h: TxHash): seq<TxHash> {
    if past == [] then [] else
      ChildrenOf(env, past[..|past| - 1], h) + SlotsOf(env, past[|past| - 1].tx, h)
  }

  ghost function Depths(env: Env, past: seq<Past>): map<TxHash, nat> {
    if past == [] then map[] else
      var before, tx := Depths(env, past[..|past| - 1]), past[|past| - 1].tx;
      before[env.hash(tx) :=
        if tx.IsGenesis() then 0 else Max(Lookup(before, tx.parent1, 0), Lookup(before, tx.parent2, 0)) + 1]
  }

  /** The parents of every transaction come earlier in the history. */
  ghost predicate ParentsFirst(env: Env, past: seq<Past>) {
    forall i :: 0 <= i < |past| && !past[i].tx.IsGenesis() ==>
      Recorded(env, past[..i], past[i].tx.parent1) && Recorded(env, past[..i], past[i].tx.parent2)
  }

  ghost predicate NodeAgrees(env: Env, past: seq<Past>, h: TxHash, n: Node) {
    && n.hash == h == env.hash(n.tx)
    && (exists i :: 0 <= i < |past| && past[i].tx == n.tx)
    && n.children == ChildrenOf(env, past, h)
    && n.weight == 1 + |n.children|
    && n.depth == Lookup(Depths(env, past), h, 0)
  }

  /** Present nodes, tips and counters agree with the history of everything ever inserted. */
  ghost predicate Structured(env: Env, r: Run) {
    && ParentsFirst(env, r.past)
    && NodesAgree(env, r.past, r.dag.nodes)
    && TipsAgree(env, r.past, r.dag.tips)
    && r.dag.totalCount == |r.past|
    && Deepest(Depths(env, r.past), r.dag.maxDepth)
  }

  ghost predicate Deepest(depths: map<TxHash, nat>, m: nat) {
    && (forall h :: h in depths ==> depths[h] <= m)
    && (m == 0 || exists h :: h in depths && depths[h] == m)
  }

  lemma ChildrenSnoc(env: Env, past: seq<Past>, p: Past, h: TxHash)
    ensures ChildrenOf(env, past + [p], h) == ChildrenOf(env, past, h) + SlotsOf(env, p.tx, h)
  {
    assert (past + [p])[..|past|] == past;
  }

  lemma RecordedSnoc(env: Env, past: seq<Past>, p: Past, h: TxHash)
    ensures Recorded(env, past + [p], h) <==> Recorded(env, past, h) || h == env.hash(p.tx)
  {
    var now := past + [p];
    assert now[|past|] == p;
    if i :| 0 <= i < |past| && env.hash(past[i].tx) == h {
      assert now[i] == past[i];
    }
  }

  lemma DepthSnoc(env: Env, past: seq<Past>, p: Past, h: TxHash)
    requires h != env.hash(p.tx)
    ensures Lookup(Depths(env, past + [p]), h, 0) == Lookup(Depths(env, past), h, 0)
  {
    assert (past + [p])[..|past|] == past;
  }

  lemma HistorySnoc(env: Env, past: seq<Past>, p: Past)
    ensures forall h :: ChildrenOf(env, past + [p], h) == ChildrenOf(env, past, h) + SlotsOf(env, p.tx, h)
    ensures var before := Depths(env, past);
            Depths(env, past + [p]) == before[env.hash(p.tx) := if p.tx.IsGenesis() then 0
              else Max(Lookup(before, p.tx.parent1, 0), Lookup(before, p.tx.parent2, 0)) + 1]
    ensures forall h :: Recorded(env, past + [p], h) <==> Recorded(env, past, h) || h == env.hash(p.tx)
  {
    assert (past + [p])[..|past|] == past;
    forall h
      ensures Recorded(env, past + [p], h) <==> Recorded(env, past, h) || h == env.hash(p.tx)
    {
      assert (past + [p])[|past|] == p;
      if i :| 0 <= i < |past| && env.hash(past[i].tx) == h {
        assert (past + [p])[i] == past[i];
      }
    }
  }

  lemma {:induction false} RecordedHasDepth(env: Env, past: seq<Past>, h: TxHash)
    ensures h in Depths(env, past) <==> Recorded(env, past, h)
  {
    if past != [] {
      var init, last := past[..|past| - 1], past[|past| - 1];
      SplitLast(past);
      HistorySnoc(env, init, last);
      RecordedHasDepth(env, init, h);
    }
  }

  lemma {:induction false} UnrecordedIsChildless(env: Env, past: seq<Past>, h: TxHash)
    requires ParentsFirst(env, past) && !Recorded(env, past, h)
    ensures ChildrenOf(env, past, h) == []
  {
    if past != [] {
      var init, last := past[..|past| - 1], past[|past| - 1];
      SplitLast(past);
      HistorySnoc(env, init, last);
      ParentsFirstPrefix(env, past, |past| - 1);
      UnrecordedIsChildless(env, init, h);
    }
  }

  lemma ParentsFirstPrefix(env: Env, past: seq<Past>, n: nat)
    requires n <= |past| && ParentsFirst(env, past)
    ensures ParentsFirst(env, past[..n])
  {
    forall i | 0 <= i < n && !past[i].tx.IsGenesis()
      ensures Recorded(env, past[..n][..i], past[i].tx.parent1) && Recorded(env, past[..n][..i], past[i].tx.parent2)
    {
      assert past[..n][..i] == past[..i];
    }
  }

  /** What hanging a new transaction under its parents does to each node. */
  lemma AttachAt(env: Env, nodes: Nodes, tx: Transaction, h: TxHash)
    requires tx.IsGenesis() || (tx.parent1 in nodes && tx.parent2 in nodes)
    ensures Attach(nodes, tx, env.hash(tx)).Keys == nodes.Keys
    ensures h in nodes ==>
              var slots := SlotsOf(env, tx, h);
              Attach(nodes, tx, env.hash(tx))[h]
              == nodes[h].(children := nodes[h].children + slots, weight := nodes[h].weight + |slots|)
  {
    if h in nodes && !tx.IsGenesis() {
      var c := env.hash(tx);
      var one := AddChild(nodes, tx.parent1, c);
      var two := AddChild(one, tx.parent2, c);
      var slots := SlotsOf(env, tx, h);
      assert two[h].children == nodes[h].children + slots;
    }
  }

  ghost predicate NodesAgree(env: Env, past: seq<Past>, nodes: Nodes) {
    forall h :: h in nodes ==> NodeAgrees(env, past, h, nodes[h])
  }

  /** Transaction `p` may join the history: its hash is new and its parents are present. */
  ghost predicate Joins(env: Env, past: seq<Past>, nodes: Nodes, tx: Transaction) {
    && ParentsFirst(env, past) && NodesAgree(env, past, nodes)
    && !Recorded(env, past, env.hash(tx))
    && (tx.IsGenesis() || (tx.parent1 in nodes && tx.parent2 in nodes))
  }

  lemma PresentIsRecorded(env: Env, past: seq<Past>, h: TxHash, n: Node)
    requires NodeAgrees(env, past, h, n)
    ensures Recorded(env, past, h)
  {
    var i :| 0 <= i < |past| && past[i].tx == n.tx;
  }

  lemma JoinKeepsParentsFirst(env: Env, past: seq<Past>, nodes: Nodes, p: Past)
    requires Joins(env, past, nodes, p.tx)
    ensures ParentsFirst(env, past + [p])
  {
    if !p.tx.IsGenesis() {
      PresentIsRecorded(env, past, p.tx.parent1, nodes[p.tx.parent1]);
      PresentIsRecorded(env, past, p.tx.parent2, nodes[p.tx.parent2]);
    }
    ParentsFirstSnoc(env, past, p);
  }

  lemma ParentsFirstSnoc(env: Env, past: seq<Past>, p: Past)
    requires ParentsFirst(env, past)
    requires p.tx.IsGenesis() || (Recorded(env, past, p.tx.parent1) && Recorded(env, past, p.tx.parent2))
    ensures ParentsFirst(env, past + [p])
  {
    var now := past + [p];
    forall i | 0 <= i < |now| && !now[i].tx.IsGenesis()
      ensures Recorded(env, now[..i], now[i].tx.parent1) && Recorded(env, now[..i], now[i].tx.parent2)
    {
      if i < |past| {
        assert now[..i] == past[..i];
      } else {
        assert now[..i] == past;
      }
    }
  }

  lemma NodeSurvives(env: Env, past: seq<Past>, p: Past, h: TxHash, n: Node, n': Node)
    requires NodeAgrees(env, past, h, n) && h != env.hash(p.tx)
    requires n' == n.(children := n.children + SlotsOf(env, p.tx, h), weight := n.weight + |SlotsOf(env, p.tx, h)|)
    ensures NodeAgrees(env, past + [p], h, n')
  {
    HistorySnoc(env, past, p);
    var i :| 0 <= i < |past| && past[i].tx == n.tx;
    assert (past + [p])[i].tx == n'.tx;
  }

  lemma JoinKeepsNode(env: Env, past: seq<Past>, nodes: Nodes, p: Past, h: TxHash)
    requires Joins(env, past, nodes, p.tx) && h in nodes
    ensures h != env.hash(p.tx) && h in Attach(nodes, p.tx, env.hash(p.tx))
    ensures NodeAgrees(env, past + [p], h, Attach(nodes, p.tx, env.hash(p.tx))[h])
  {
    AttachAt(env, nodes, p.tx, h);
    PresentIsRecorded(env, past, h, nodes[h]);
    NodeSurvives(env, past, p, h, nodes[h], Attach(nodes, p.tx, env.hash(p.tx))[h]);
  }

  lemma JoinAddsNode(env: Env, past: seq<Past>, nodes: Nodes, p: Past, status: Status)
    requires Joins(env, past, nodes, p.tx)
    ensures var c := env.hash(p.tx);
            NodeAgrees(env, past + [p], c, Node(p.tx, c, status, [], 1, NewDepth(nodes, p.tx)))
  {
    var tx, c := p.tx, env.hash(p.tx);
    HistorySnoc(env, past, p);
    UnrecordedIsChildless(env, past, c);
    assert (past + [p])[|past|].tx == tx;
    if !tx.IsGenesis() {
      PresentIsRecorded(env, past, tx.parent1, nodes[tx.parent1]);
      PresentIsRecorded(env, past, tx.parent2, nodes[tx.parent2]);
    }
  }

  lemma JoinKeepsNodes(env: Env, past: seq<Past>, nodes: Nodes, p: Past, status: Status)
    requires Joins(env, past, nodes, p.tx)
    ensures var c := env.hash(p.tx);
            var n := Node(p.tx, c, status, [], 1, NewDepth(nodes, p.tx));
            NodesAgree(env, past + [p], Attach(nodes, p.tx, c)[c := n])
  {
    var c := env.hash(p.tx);
    AttachAt(env, nodes, p.tx, c);
    forall h | h in nodes {
      JoinKeepsNode(env, past, nodes, p, h);
    }
    JoinAddsNode(env, past, nodes, p, status);
  }

  ghost predicate TipsAgree(env: Env, past: seq<Past>, tips: set<TxHash>) {
    forall h :: h in tips <==> Recorded(env, past, h) && ChildrenOf(env, past, h) == []
  }

  lemma JoinKeepsTips(env: Env, past: seq<Past>, nodes: Nodes, tips: set<TxHash>, p: Past)
    requires Joins(env, past, nodes, p.tx) && TipsAgree(env, past, tips) && NonZero(env, past + [p])
    ensures TipsAgree(env, past + [p], tips - {p.tx.parent1} - {p.tx.parent2} + {env.hash(p.tx)})
  {
    UnrecordedIsChildless(env, past, env.hash(p.tx));
    NoZeroRecorded(env, past + [p]);
    if !p.tx.IsGenesis() {
      PresentIsRecorded(env, past, p.tx.parent1, nodes[p.tx.parent1]);
      PresentIsRecorded(env, past, p.tx.parent2, nodes[p.tx.parent2]);
    }
    forall h {
      JoinTip(env, past, tips, p, h);
    }
  }

  lemma JoinTip(env: Env, past: seq<Past>, tips: set<TxHash>, p: Past, h: TxHash)
    requires h in tips <==> Recorded(env, past, h) && ChildrenOf(env, past, h) == []
    requires !Recorded(env, past, env.hash(p.tx)) && ChildrenOf(env, past, env.hash(p.tx)) == []
    requires if p.tx.IsGenesis() then !Recorded(env, past + [p], ZERO_HASH)
             else Recorded(env, past, p.tx.parent1) && Recorded(env, past, p.tx.parent2)
    ensures h in tips - {p.tx.parent1} - {p.tx.parent2} + {env.hash(p.tx)}
       <==> Recorded(env, past + [p], h) && ChildrenOf(env, past + [p], h) == []
  {
    HistorySnoc(env, past, p);
    assert SlotsOf(env, p.tx, h) == [] <==> p.tx.IsGenesis() || (h != p.tx.parent1 && h != p.tx.parent2);
  }

  lemma NoZeroRecorded(env: Env, past: seq<Past>)
    requires NonZero(env, past)
    ensures !Recorded(env, past, ZERO_HASH)
  {}

  lemma DeepestExtends(depths: map<TxHash, nat>, m: nat, c: TxHash, depth: nat)
    requires Deepest(depths, m) && c !in depths
    ensures Deepest(depths[c := depth], Max(m, depth))
  {
    var after := depths[c := depth];
    if depth < m {
      var h :| h in depths && depths[h] == m;
      assert after[h] == m;
    } else {
      assert after[c] == depth;
    }
  }

  lemma JoinKeepsDeepest(env: Env, past: seq<Past>, nodes: Nodes, m: nat, p: Past)
    requires Joins(env, past, nodes, p.tx) && Deepest(Depths(env, past), m)
    ensures Deepest(Depths(env, past + [p]), Max(m, NewDepth(nodes, p.tx)))
  {
    HistorySnoc(env, past, p);
    RecordedHasDepth(env, past, env.hash(p.tx));
    JoinAddsNode(env, past, nodes, p, Pending);
    DeepestExtends(Depths(env, past), m, env.hash(p.tx), NewDepth(nodes, p.tx));
  }

  lemma StepGrows(env: Env, r: Run, op: Op)
    ensures Step(env, r, op).past == r.past
         || exists p :: Step(env, r, op).past == r.past + [p]
  {}

  /** A new transaction, minted or sent, keeps the structure. */
  lemma JoinKeepsStructure(env: Env, r: Run, p: Past, status: Status, after: Run)
    requires Structured(env, r) && Clean(env, r.past + [p]) && after.past == r.past + [p]
    requires p.tx.IsGenesis() || (p.tx.parent1 in r.dag.nodes && p.tx.parent2 in r.dag.nodes)
    requires var c := env.hash(p.tx);
             && after.dag.nodes
                == Attach(r.dag.nodes, p.tx, c)[c := Node(p.tx, c, status, [], 1, NewDepth(r.dag.nodes, p.tx))]
             && after.dag.tips == r.dag.tips - {p.tx.parent1} - {p.tx.parent2} + {c}
    requires after.dag.totalCount == r.dag.totalCount + 1
    requires after.dag.maxDepth == Max(r.dag.maxDepth, NewDepth(r.dag.nodes, p.tx))
    ensures Structured(env, after)
  {
    var past, nodes := r.past, r.dag.nodes;
    assert !Recorded(env, past, env.hash(p.tx)) by {
      assert (r.past + [p])[|past|] == p;
      assert forall i :: 0 <= i < |past| ==> (r.past + [p])[i] == past[i];
    }
    JoinKeepsParentsFirst(env, past, nodes, p);
    JoinKeepsNodes(env, past, nodes, p, status);
    JoinKeepsTips(env, past, nodes, r.dag.tips, p);
    JoinKeepsDeepest(env, past, nodes, r.dag.maxDepth, p);
  }

  lemma MarkKeepsNodes(env: Env, past: seq<Past>, d: Dag, h: TxHash, s: Status)
    requires NodesAgree(env, past, d.nodes)
    ensures NodesAgree(env, past, AfterStatus(d, h, s).nodes)
  {
    if h in d.nodes {
      assert NodeAgrees(env, past, h, d.nodes[h].(status := s));
    }
  }

  lemma GenesisStructured(env: Env, r: Run, tx: Transaction)
    requires tx.IsGenesis() && Structured(env, r) && Clean(env, r.past + [Past(tx, true)])
    ensures Structured(env, Step(env, r, Mint(tx)))
  {
    HistorySnoc(env, r.past, Past(tx, true));
    NoZeroRecorded(env, r.past + [Past(tx, true)]);
    assert r.dag.tips - {ZERO_HASH} - {ZERO_HASH} == r.dag.tips;
    JoinKeepsStructure(env, r, Past(tx, true), Confirmed, Step(env, r, Mint(tx)));
  }

  lemma SubmitStructured(env: Env, r: Run, tx: Transaction)
    requires Refusal(env, r.dag, tx).None? && Structured(env, r) && Clean(env, r.past + [Past(tx, false)])
    ensures Structured(env, Step(env, r, Submit(tx)))
  {
    JoinKeepsStructure(env, r, Past(tx, false), Pending, Step(env, r, Submit(tx)));
  }

  lemma StepStructured(env: Env, r: Run, op: Op)
    requires Structured(env, r) && Clean(env, Step(env, r, op).past)
    ensures Structured(env, Step(env, r, op))
  {
    var after := Step(env, r, op);
    match op
    case Mint(tx) =>
      if tx.IsGenesis() {
        GenesisStructured(env, r, tx);
      }
    case Submit(tx) =>
      if Refusal(env, r.dag, tx).None? {
        SubmitStructured(env, r, tx);
      }
    case Mark(h, s) => MarkKeepsNodes(env, r.past, r.dag, h, s);
    case PruneAt(_) =>
    case AddStake(_, _) =>
    case RequestUnstake(_, _, _, _) =>
    case ProcessUnstakes(_, _, _) =>
  }

  lemma {:induction false} RunStructured(env: Env, ops: seq<Op>)
    requires Clean(env, Execute(env, ops).past)
    ensures Structured(env, Execute(env, ops))
  {
    if ops != [] {
      var init := ops[..|ops| - 1];
      var before := Execute(env, init).past;
      StepGrows(env, Execute(env, init), ops[|ops| - 1]);
      assert before == Execute(env, ops).past[..|before|];
      RunStructured(env, init);
      StepStructured(env, Execute(env, init), ops[|ops| - 1]);
    }
  }

  // ---- When a history is clean -------------------------------------------------------------------

  /** A genesis transaction of the history is in it once, however it and the others came in. */
  ghost predicate GenesisOnce(past: seq<Past>) {
    forall i, j :: 0 <= i < j < |past| && (past[i].minted || past[j].minted) ==> past[i].tx != past[j].tx
  }

  ghost predicate SentOnce(past: seq<Past>) {
    forall i, j :: 0 <= i < j < |past| && !past[i].minted && !past[j].minted ==> past[i].tx != past[j].tx
  }

  /** The hash tells the different transactions of the history apart. */
  ghost predicate HashSeparates(env: Env, past: seq<Past>) {
    forall i, j :: 0 <= i < j < |past| && past[i].tx != past[j].tx ==> env.hash(past[i].tx) != env.hash(past[j].tx)
  }

  lemma CleanParts(env: Env, past: seq<Past>)
    requires SentOnce(past)
    ensures Clean(env, past) <==> NonZero(env, past) && GenesisOnce(past) && HashSeparates(env, past)
  {}

  /** What insert rejects is enough: a history fails to be clean only by a genesis transaction that was
      there already, by a collision of the hash, or by a zero hash. */
  lemma RunCleanIff(env: Env, ops: seq<Op>)
    ensures var past := Execute(env, ops).past;
            Clean(env, past) <==> NonZero(env, past) && GenesisOnce(past) && HashSeparates(env, past)
  {
    var past := Execute(env, ops).past;
    forall i, j | 0 <= i < j < |past| && !past[i].minted && !past[j].minted
      ensures past[i].tx != past[j].tx
    {
      NeverSentTwice(env, ops, i, j);
    }
    CleanParts(env, past);
  }
}
