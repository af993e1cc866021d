/** Depths when pruning runs beside inserts. An insert checks that its parents are there and reads their
    depths later; a parent pruned in between counts as depth 0. */
module PrunedDepths {
  import opened Core
  import opened Ledgers
  import opened Dags
  import opened History
  import opened Structure
  import opened Paths
  import opened Concurrent
  import opened Quiescence
  import opened Alongside

  // ---- What holds however much is pruned -----------------------------------------------------------

  /** What a call has found is in the history, even if its node is gone. */
  ghost predicate Placed(env: Env, past: seq<Past>, c: Call) {
    && (Parent1Found(c.pc) && !c.tx.IsGenesis() ==> Recorded(env, past, c.tx.parent1))
    && (Parent2Found(c.pc) && !c.tx.IsGenesis() ==> Recorded(env, past, c.tx.parent2))
    && (c.tx.IsGenesis() ==> !LooksAtParents(c.pc))
    && (NodePending(c.pc) ==> InHistory(past, c.tx))
  }

  /** The parent is found and its depth not yet read. */
  predicate Needs1(pc: Pc) { Parent1Found(pc) && Rank(pc) <= Rank(ReadDepth1) }
  predicate Needs2(pc: Pc) { Parent2Found(pc) && Rank(pc) <= Rank(ReadDepth2) }

  predicate LooksAtParents(pc: Pc) { ReadingDepths(pc) || pc.FindParent1? || pc.FindParent2? }

  ghost predicate HandPlaced(past: seq<Past>, hand: Hand) {
    hand.Minting? ==> hand.tx.IsGenesis() && InHistory(past, hand.tx)
  }

  ghost predicate Grounded(env: Env, w: World) {
    var past := w.base.run.past;
    && ParentsFirst(env, past)
    && (forall h :: h in w.base.Dag().nodes ==> Recorded(env, past, h))
    && (forall t :: t in w.base.calls ==> Placed(env, past, w.base.calls[t]))
    && (forall k :: k in w.hands ==> HandPlaced(past, w.hands[k]))
  }

  /** The part of a tick that matters for depths. */
  ghost predicate GraphMove(env: Env, s: State, after: State, t: Tid)
    requires t in s.calls
  {
    var c, nodes, nodes' := s.calls[t], s.Dag().nodes, after.Dag().nodes;
    && t in after.calls && after.calls == s.calls[t := after.calls[t]]
    && CallMove(env, nodes, c, after.calls[t])
    && (after.run.past == s.run.past
        || (c.pc.SwapBalance? && after.run.past == s.run.past + [Past(c.tx, false)]))
    && (NodePending(after.calls[t].pc) ==> NodePending(c.pc) || after.run.past != s.run.past)
    && NodesMove(env, nodes, nodes', c)
  }

  ghost predicate NodesMove(env: Env, nodes: Nodes, nodes': Nodes, c: Call) {
    && (forall h :: h in nodes' ==>
          || (h in nodes && nodes'[h].depth == nodes[h].depth)
          || (c.pc.PutNode? && h == env.hash(c.tx) && nodes'[h].depth == c.depth))
    && (forall h :: h in nodes ==> h in nodes')
  }

  ghost predicate CallMove(env: Env, nodes: Nodes, c: Call, c': Call) {
    && c'.tx == c.tx
    && (Parent1Found(c'.pc) && !c.tx.IsGenesis() ==> Parent1Found(c.pc) || c.tx.parent1 in nodes)
    && (Parent2Found(c'.pc) && !c.tx.IsGenesis() ==> Parent2Found(c.pc) || c.tx.parent2 in nodes)
    && (LooksAtParents(c'.pc) && c.tx.IsGenesis() ==> LooksAtParents(c.pc))
    && (c'.pc.ReadDepth2? ==> c.pc.ReadDepth1? && c'.depth == DepthOf(nodes, c.tx.parent1))
    && (c.pc.ReadDepth2? ==> c'.pc.LoadMax?)
    && (Needs1(c'.pc) && !c.tx.IsGenesis() ==> Needs1(c.pc) || c.tx.parent1 in nodes)
    && (Needs2(c'.pc) && !c.tx.IsGenesis() ==> Needs2(c.pc) || c.tx.parent2 in nodes)
    && (DepthKnown(c'.pc) ==>
          || (DepthKnown(c.pc) && c'.depth == c.depth)
          || (c.pc.CommitNonce? && c.tx.IsGenesis() && c'.depth == 0)
          || (c.pc.ReadDepth2? && c'.depth == Max(c.depth, DepthOf(nodes, c.tx.parent2)) + 1))
  }

  lemma CheckFinds(env: Env, d: Dag, locked: bool, c: Call, supplyOk: bool)
    requires Checking(c.pc)
    ensures var c' := CheckCall(env, d, locked, c, supplyOk);
            && c'.tx == c.tx
            && (Parent1Found(c'.pc) && !c.tx.IsGenesis() ==> Parent1Found(c.pc) || c.tx.parent1 in d.nodes)
            && (Parent2Found(c'.pc) && !c.tx.IsGenesis() ==> Parent2Found(c.pc) || c.tx.parent2 in d.nodes)
            && (Parent1Found(c.pc) ==> Needs1(c.pc)) && (Parent2Found(c.pc) ==> Needs2(c.pc))
            && (c'.pc.FindParent1? || c'.pc.FindParent2? ==> LooksAtParents(c.pc) || !c.tx.IsGenesis())
  {}

  lemma CheckMove(env: Env, d: Dag, locked: bool, c: Call, supplyOk: bool)
    requires Checking(c.pc)
    ensures CallMove(env, d.nodes, c, CheckCall(env, d, locked, c, supplyOk))
    ensures !NodePending(CheckCall(env, d, locked, c, supplyOk).pc)
  {
    CheckAdvances(env, d, locked, c, supplyOk);
    CheckFinds(env, d, locked, c, supplyOk);
  }

  lemma PaysMove(env: Env, nodes: Nodes, l: Ledger, c: Call)
    requires Paying(c.pc)
    ensures CallMove(env, nodes, c, PayCall(l, c))
  {}

  lemma LinksMove(env: Env, nodes: Nodes, maxDepth: nat, c: Call)
    requires Linking(c.pc)
    ensures CallMove(env, nodes, c, LinkCall(env, nodes, maxDepth, c))
    ensures NodePending(LinkCall(env, nodes, maxDepth, c).pc) ==> NodePending(c.pc)
  {}

  lemma LinkDepths(env: Env, nodes: Nodes, c: Call)
    ensures NodesMove(env, nodes, LinkNodes(env, nodes, c), c)
  {}

  lemma TickGraph(env: Env, s: State, t: Tid, supplyOk: bool)
    requires t in s.calls
    ensures GraphMove(env, s, Next(env, s, Tick(t, supplyOk)), t)
  {
    var c, d := s.calls[t], s.Dag();
    TickFrame(env, s, t, supplyOk);
    if Checking(c.pc) {
      CheckMove(env, d, c.tx.sender in s.locks, c, supplyOk);
    } else if Paying(c.pc) {
      PayGraph(env, s, t);
    } else {
      LinksMove(env, d.nodes, d.maxDepth, c);
      LinkDepths(env, d.nodes, c);
    }
  }

  lemma PayGraph(env: Env, s: State, t: Tid)
    requires t in s.calls && Paying(s.calls[t].pc)
    ensures GraphMove(env, s, PayStep(env, s, t), t)
  {
    PaysMove(env, s.Dag().nodes, s.Dag().ledger, s.calls[t]);
  }

  lemma RecordedStays(env: Env, past: seq<Past>, p: Past)
    ensures forall h :: Recorded(env, past, h) ==> Recorded(env, past + [p], h)
    ensures Recorded(env, past + [p], env.hash(p.tx))
  {
    forall h
      ensures Recorded(env, past, h) ==> Recorded(env, past + [p], h)
    {
      RecordedSnoc(env, past, p, h);
    }
    RecordedSnoc(env, past, p, env.hash(p.tx));
  }

  /** The history grows, and what was placed stays placed. */
  lemma PlacedStays(env: Env, past: seq<Past>, p: Past, c: Call)
    requires Placed(env, past, c)
    ensures Placed(env, past + [p], c)
  {
    RecordedStays(env, past, p);
    InHistorySnoc(past, p, c.tx);
  }

  lemma MovePlaced(env: Env, s: State, after: State, t: Tid)
    requires t in s.calls && GraphMove(env, s, after, t) && Placed(env, s.run.past, s.calls[t])
    requires forall h :: h in s.Dag().nodes ==> Recorded(env, s.run.past, h)
    ensures Placed(env, after.run.past, after.calls[t])
  {
    var c := s.calls[t];
    if after.run.past != s.run.past {
      PlacedStays(env, s.run.past, Past(c.tx, false), c);
      InHistorySnoc(s.run.past, Past(c.tx, false), c.tx);
      RecordedStays(env, s.run.past, Past(c.tx, false));
    }
  }

  lemma MoveNodes(env: Env, s: State, after: State, t: Tid)
    requires t in s.calls && GraphMove(env, s, after, t) && Placed(env, s.run.past, s.calls[t])
    requires forall h :: h in s.Dag().nodes ==> Recorded(env, s.run.past, h)
    ensures forall h :: h in after.Dag().nodes ==> Recorded(env, after.run.past, h)
  {
    var c, past := s.calls[t], s.run.past;
    NodesRecorded(env, past, s.Dag().nodes, after.Dag().nodes, c);
    if after.run.past != past {
      RecordedStays(env, past, Past(c.tx, false));
    }
  }

  lemma NodesRecorded(env: Env, past: seq<Past>, nodes: Nodes, nodes': Nodes, c: Call)
    requires NodesMove(env, nodes, nodes', c) && Placed(env, past, c)
    requires forall h :: h in nodes ==> Recorded(env, past, h)
    ensures forall h :: h in nodes' ==> Recorded(env, past, h)
  {
    if c.pc.PutNode? {
      InHistoryRecorded(env, past, c.tx);
    }
  }

  lemma TickGrounded(env: Env, w: World, t: Tid, supplyOk: bool)
    requires Grounded(env, w) && t in w.base.calls
    ensures Grounded(env, Act(env, w, Insert(Tick(t, supplyOk))))
  {
    var s, after := w.base, Next(env, w.base, Tick(t, supplyOk));
    var c := s.calls[t];
    TickGraph(env, s, t, supplyOk);
    MovePlaced(env, s, after, t);
    MoveNodes(env, s, after, t);
    if after.run.past != s.run.past {
      ParentsFirstSnoc(env, s.run.past, Past(c.tx, false));
      OthersStay(env, w, Past(c.tx, false));
    }
  }

  lemma OthersStay(env: Env, w: World, p: Past)
    requires Grounded(env, w)
    ensures forall t :: t in w.base.calls ==> Placed(env, w.base.run.past + [p], w.base.calls[t])
    ensures forall k :: k in w.hands ==> HandPlaced(w.base.run.past + [p], w.hands[k])
    ensures forall h :: h in w.base.Dag().nodes ==> Recorded(env, w.base.run.past + [p], h)
  {
    var past := w.base.run.past;
    RecordedStays(env, past, p);
    forall t | t in w.base.calls {
      PlacedStays(env, past, p, w.base.calls[t]);
    }
    forall k | k in w.hands
      ensures HandPlaced(past + [p], w.hands[k])
    {
      if w.hands[k].Minting? {
        InHistorySnoc(past, p, w.hands[k].tx);
      }
    }
  }

  lemma IssueGrounded(env: Env, w: World, k: nat, tx: Transaction)
    requires Grounded(env, w) && k !in w.hands && tx.IsGenesis()
    ensures Grounded(env, Act(env, w, Issue(k, tx)))
  {
    ParentsFirstSnoc(env, w.base.run.past, Past(tx, true));
    OthersStay(env, w, Past(tx, true));
    InHistorySnoc(w.base.run.past, Past(tx, true), tx);
  }

  lemma ContinueGrounded(env: Env, w: World, k: nat)
    requires Grounded(env, w) && k in w.hands
    ensures Grounded(env, Continued(env, w, k))
  {
    assert HandPlaced(w.base.run.past, w.hands[k]);
    if w.hands[k].Minting? {
      InHistoryRecorded(env, w.base.run.past, w.hands[k].tx);
    }
  }

  lemma ActGrounded(env: Env, w: World, b: Turn)
    requires Grounded(env, w)
    ensures Grounded(env, Act(env, w, b))
  {
    match b
    case Insert(Begin(_, _)) =>
    case Insert(Tick(t, supplyOk)) =>
      if t in w.base.calls {
        TickGrounded(env, w, t, supplyOk);
      }
    case Issue(k, tx) =>
      if k !in w.hands && tx.IsGenesis() {
        IssueGrounded(env, w, k, tx);
      }
    case Continue(k) =>
      if k in w.hands {
        ContinueGrounded(env, w, k);
      }
    case _ =>
  }

  lemma {:induction false} UnfoldGrounded(env: Env, ops: seq<Op>, turns: seq<Turn>)
    requires Clean(env, Unfold(env, ops, turns).base.run.past)
    ensures Grounded(env, Unfold(env, ops, turns))
  {
    if turns == [] {
      RunStructured(env, ops);
      StartGrounded(env, Execute(env, ops));
    } else {
      CleanEarlier(env, ops, turns, |turns| - 1);
      UnfoldGrounded(env, ops, turns[..|turns| - 1]);
      ActGrounded(env, Unfold(env, ops, turns[..|turns| - 1]), turns[|turns| - 1]);
    }
  }

  lemma StartGrounded(env: Env, r: Run)
    requires Structured(env, r)
    ensures Grounded(env, World(State(r, map[], map[]), map[]))
  {
    forall h | h in r.dag.nodes
      ensures Recorded(env, r.past, h)
    {
      PresentIsRecorded(env, r.past, h, r.dag.nodes[h]);
    }
  }

  lemma ActGrows(env: Env, w: World, b: Turn)
    ensures Act(env, w, b).base.run.past == w.base.run.past
         || exists p :: Act(env, w, b).base.run.past == w.base.run.past + [p]
  {
    match b
    case Insert(e) => NextGrowsHistory(env, w.base, e);
    case _ =>
  }

  lemma {:induction false} CleanEarlier(env: Env, ops: seq<Op>, turns: seq<Turn>, n: nat)
    requires n <= |turns| && Clean(env, Unfold(env, ops, turns).base.run.past)
    ensures Clean(env, Unfold(env, ops, turns[..n]).base.run.past)
  {
    if n < |turns| {
      var init := turns[..|turns| - 1];
      var w := Unfold(env, ops, init);
      ActGrows(env, w, turns[|turns| - 1]);
      if Unfold(env, ops, turns).base.run.past != w.base.run.past {
        var p :| Unfold(env, ops, turns).base.run.past == w.base.run.past + [p];
        FreshHash(env, w.base.run.past, p);
      }
      CleanEarlier(env, ops, init, n);
      assert init[..n] == turns[..n];
    } else {
      assert turns[..n] == turns;
    }
  }

  // ---- When depths are right -----------------------------------------------------------------------

  /** Every node, and every call that has computed its depth, has the depth that the history calls for. */
  ghost predicate DepthsRight(env: Env, w: World) {
    && NodesRight(env, w.base.run.past, w.base.Dag().nodes)
    && forall t :: t in w.base.calls ==> CallRight(env, w.base.run.past, w.base.calls[t])
  }

  ghost predicate NodesRight(env: Env, past: seq<Past>, nodes: Nodes) {
    forall h :: h in nodes ==> nodes[h].depth == DepthIn(env, past, h)
  }

  ghost predicate CallRight(env: Env, past: seq<Past>, c: Call) {
    DepthKnown(c.pc) ==> c.depth == DepthIn(env, past, env.hash(c.tx))
  }

  /** A call between its two reads has the depth of its first parent, or 0 if that was gone. */
  ghost predicate HalfRead(env: Env, past: seq<Past>, c: Call) {
    c.pc.ReadDepth2? ==> c.depth == DepthIn(env, past, c.tx.parent1) || c.depth == 0
  }

  ghost predicate HalfReads(env: Env, w: World) {
    forall t :: t in w.base.calls ==> HalfRead(env, w.base.run.past, w.base.calls[t])
  }

  /** At its second read the call knows the depth of a deepest parent: the first read found it, or the
      second is about to, or there is nothing deeper than 0 to find. */
  ghost predicate SeesDeepest(env: Env, past: seq<Past>, nodes: Nodes, c: Call) {
    var depth1, depth2 := DepthIn(env, past, c.tx.parent1), DepthIn(env, past, c.tx.parent2);
    || (depth1 >= depth2 && c.depth == depth1)
    || (depth2 >= depth1 && (c.tx.parent2 in nodes || depth2 == 0))
  }

  ghost predicate SoundRead(env: Env, w: World, b: Turn) {
    b.Insert? && b.e.Tick? && b.e.t in w.base.calls && w.base.calls[b.e.t].pc.ReadDepth2? ==>
      SeesDeepest(env, w.base.run.past, w.base.Dag().nodes, w.base.calls[b.e.t])
  }

  /** What the second read computes is never too deep, and right exactly when a deepest parent was seen. */
  lemma ReadIsExact(env: Env, past: seq<Past>, nodes: Nodes, c: Call)
    requires Clean(env, past) && ParentsFirst(env, past) && Placed(env, past, c) && NodesRight(env, past, nodes)
    requires c.pc.ReadDepth2? && HalfRead(env, past, c)
    ensures var computed := Max(c.depth, DepthOf(nodes, c.tx.parent2)) + 1;
            && computed <= DepthIn(env, past, env.hash(c.tx))
            && (computed == DepthIn(env, past, env.hash(c.tx)) <==> SeesDeepest(env, past, nodes, c))
  {
    DepthInHistory(env, past, c.tx);
  }

  lemma DepthsStay(env: Env, past: seq<Past>, p: Past)
    requires Clean(env, past + [p])
    ensures forall h :: Recorded(env, past, h) ==> DepthIn(env, past + [p], h) == DepthIn(env, past, h)
  {
    FreshHash(env, past, p);
    forall h | Recorded(env, past, h) {
      DepthSnoc(env, past, p, h);
    }
  }

  /** The history grows: what was right stays right. */
  lemma RightStays(env: Env, w: World, p: Past)
    requires Grounded(env, w) && DepthsRight(env, w) && HalfReads(env, w) && Clean(env, w.base.run.past + [p])
    ensures NodesRight(env, w.base.run.past + [p], w.base.Dag().nodes)
    ensures forall t :: t in w.base.calls ==>
              && CallRight(env, w.base.run.past + [p], w.base.calls[t])
              && HalfRead(env, w.base.run.past + [p], w.base.calls[t])
  {
    DepthsStay(env, w.base.run.past, p);
    forall t | t in w.base.calls
      ensures CallRight(env, w.base.run.past + [p], w.base.calls[t])
      ensures HalfRead(env, w.base.run.past + [p], w.base.calls[t])
    {
      CallStays(env, w.base.run.past, p, w.base.calls[t]);
    }
  }

  lemma CallStays(env: Env, past: seq<Past>, p: Past, c: Call)
    requires Placed(env, past, c) && CallRight(env, past, c) && HalfRead(env, past, c)
    requires forall h :: Recorded(env, past, h) ==> DepthIn(env, past + [p], h) == DepthIn(env, past, h)
    ensures CallRight(env, past + [p], c) && HalfRead(env, past + [p], c)
  {
    if DepthKnown(c.pc) {
      InHistoryRecorded(env, past, c.tx);
    }
  }

  /** The call's own step, in an unchanged history. */
  lemma OwnDepth(env: Env, past: seq<Past>, nodes: Nodes, c: Call, c': Call)
    requires Clean(env, past) && ParentsFirst(env, past) && Placed(env, past, c) && NodesRight(env, past, nodes)
    requires CallMove(env, nodes, c, c') && CallRight(env, past, c) && HalfRead(env, past, c)
    ensures HalfRead(env, past, c')
    ensures CallRight(env, past, c') <==> (c.pc.ReadDepth2? ==> SeesDeepest(env, past, nodes, c))
  {
    FirstRead(env, past, nodes, c, c');
    if c.pc.ReadDepth2? {
      SecondRead(env, past, nodes, c, c');
    } else {
      if c.pc.CommitNonce? && c.tx.IsGenesis() {
        GenesisDepth(env, past, c.tx);
      }
      StillRight(env, past, nodes, c, c');
    }
  }

  lemma SecondRead(env: Env, past: seq<Past>, nodes: Nodes, c: Call, c': Call)
    requires Clean(env, past) && ParentsFirst(env, past) && Placed(env, past, c) && NodesRight(env, past, nodes)
    requires CallMove(env, nodes, c, c') && c.pc.ReadDepth2? && HalfRead(env, past, c)
    ensures CallRight(env, past, c') <==> SeesDeepest(env, past, nodes, c)
  {
    ReadIsExact(env, past, nodes, c);
  }

  lemma FirstRead(env: Env, past: seq<Past>, nodes: Nodes, c: Call, c': Call)
    requires NodesRight(env, past, nodes) && CallMove(env, nodes, c, c')
    ensures HalfRead(env, past, c')
  {}

  lemma StillRight(env: Env, past: seq<Past>, nodes: Nodes, c: Call, c': Call)
    requires CallMove(env, nodes, c, c') && CallRight(env, past, c) && !c.pc.ReadDepth2?
    requires c.pc.CommitNonce? && c.tx.IsGenesis() ==> DepthIn(env, past, env.hash(c.tx)) == 0
    ensures CallRight(env, past, c')
  {}

  lemma QuietDepths(env: Env, w: World, t: Tid, supplyOk: bool)
    requires Grounded(env, w) && DepthsRight(env, w) && HalfReads(env, w) && t in w.base.calls
    requires Clean(env, w.base.run.past)
    requires var after := Act(env, w, Insert(Tick(t, supplyOk))); after.base.run.past == w.base.run.past
    ensures var b := Insert(Tick(t, supplyOk));
            HalfReads(env, Act(env, w, b)) && (DepthsRight(env, Act(env, w, b)) <==> SoundRead(env, w, b))
  {
    var s, after := w.base, Next(env, w.base, Tick(t, supplyOk));
    TickGraph(env, s, t, supplyOk);
    OwnDepth(env, s.run.past, s.Dag().nodes, s.calls[t], after.calls[t]);
    QuietNodes(env, s, after, t);
  }

  lemma QuietNodes(env: Env, s: State, after: State, t: Tid)
    requires t in s.calls && GraphMove(env, s, after, t) && after.run.past == s.run.past
    requires NodesRight(env, s.run.past, s.Dag().nodes) && CallRight(env, s.run.past, s.calls[t])
    ensures NodesRight(env, after.run.past, after.Dag().nodes)
  {}

  /** The debit: the history grows by the call's transaction. */
  lemma DebitDepths(env: Env, w: World, t: Tid, supplyOk: bool)
    requires Grounded(env, w) && DepthsRight(env, w) && HalfReads(env, w) && t in w.base.calls
    requires var after := Act(env, w, Insert(Tick(t, supplyOk)));
             after.base.run.past != w.base.run.past && Clean(env, after.base.run.past)
    ensures var after := Act(env, w, Insert(Tick(t, supplyOk))); HalfReads(env, after) && DepthsRight(env, after)
    ensures SoundRead(env, w, Insert(Tick(t, supplyOk)))
  {
    TickGraph(env, w.base, t, supplyOk);
    RightStays(env, w, Past(w.base.calls[t].tx, false));
  }

  lemma IssueDepths(env: Env, w: World, k: nat, tx: Transaction)
    requires Grounded(env, w) && DepthsRight(env, w) && HalfReads(env, w)
    requires Clean(env, Act(env, w, Issue(k, tx)).base.run.past)
    ensures var after := Act(env, w, Issue(k, tx)); HalfReads(env, after) && DepthsRight(env, after)
  {
    if k !in w.hands && tx.IsGenesis() {
      RightStays(env, w, Past(tx, true));
    }
  }

  /** The other turns leave calls and history as they are. */
  lemma GraphDepths(env: Env, w: World, w': World)
    requires DepthsRight(env, w) && HalfReads(env, w)
    requires w'.base.calls == w.base.calls && w'.base.run.past == w.base.run.past
    requires NodesRight(env, w.base.run.past, w'.base.Dag().nodes)
    ensures HalfReads(env, w') && DepthsRight(env, w')
  {}

  lemma ContinueDepths(env: Env, w: World, k: nat)
    requires Grounded(env, w) && DepthsRight(env, w) && HalfReads(env, w) && Clean(env, w.base.run.past)
    requires k in w.hands
    ensures var after := Continued(env, w, k); HalfReads(env, after) && DepthsRight(env, after)
  {
    var past, nodes := w.base.run.past, w.base.Dag().nodes;
    assert HandPlaced(past, w.hands[k]);
    if w.hands[k].Minting? {
      GenesisDepth(env, past, w.hands[k].tx);
      GenesisNode(env, past, w.base.Dag(), w.hands[k].tx, w.hands[k].left);
    }
    GraphDepths(env, w, Continued(env, w, k));
  }

  lemma GenesisNode(env: Env, past: seq<Past>, d: Dag, tx: Transaction, left: nat)
    requires NodesRight(env, past, d.nodes) && DepthIn(env, past, env.hash(tx)) == 0
    ensures NodesRight(env, past, GenesisStep(env, d, tx, left).nodes)
  {}

  lemma OtherDepths(env: Env, w: World, b: Turn)
    requires DepthsRight(env, w) && HalfReads(env, w) && !b.Insert? && !b.Issue? && !b.Continue?
    ensures HalfReads(env, Act(env, w, b)) && DepthsRight(env, Act(env, w, b))
  {
    GraphDepths(env, w, Act(env, w, b));
  }

  /** One turn after a state with right depths they are right again exactly when the turn was no read that
      missed the deepest parent. */
  lemma ActDepths(env: Env, w: World, b: Turn)
    requires Grounded(env, w) && DepthsRight(env, w) && HalfReads(env, w)
    requires Clean(env, w.base.run.past) && Clean(env, Act(env, w, b).base.run.past)
    ensures HalfReads(env, Act(env, w, b)) && (DepthsRight(env, Act(env, w, b)) <==> SoundRead(env, w, b))
  {
    match b
    case Insert(Begin(_, _)) =>
    case Insert(Tick(t, supplyOk)) =>
      if t in w.base.calls {
        if Act(env, w, b).base.run.past == w.base.run.past {
          QuietDepths(env, w, t, supplyOk);
        } else {
          DebitDepths(env, w, t, supplyOk);
        }
      }
    case Issue(k, tx) => IssueDepths(env, w, k, tx);
    case Continue(k) =>
      if k in w.hands {
        ContinueDepths(env, w, k);
      }
    case _ => OtherDepths(env, w, b);
  }

  // ---- Every run ---------------------------------------------------------------------------------

  /** Depths are right after each of the turns. */
  ghost predicate AlwaysRight(env: Env, ops: seq<Op>, turns: seq<Turn>) {
    DepthsRight(env, Unfold(env, ops, turns)) && (turns != [] ==> AlwaysRight(env, ops, turns[..|turns| - 1]))
  }

  /** None of the turns is a read that misses the deepest parent. */
  ghost predicate SoundReads(env: Env, ops: seq<Op>, turns: seq<Turn>) {
    turns != [] ==>
      var init := turns[..|turns| - 1];
      SoundRead(env, Unfold(env, ops, init), turns[|turns| - 1]) && SoundReads(env, ops, init)
  }

  /** Whatever runs beside the inserts, depths are at all times the longest paths of the history if and
      only if each insert still saw a deepest parent when it read their depths. */
  lemma {:induction false} DepthsRightIffSeen(env: Env, ops: seq<Op>, turns: seq<Turn>)
    requires Clean(env, Unfold(env, ops, turns).base.run.past)
    ensures AlwaysRight(env, ops, turns) <==> SoundReads(env, ops, turns)
    ensures AlwaysRight(env, ops, turns) ==> HalfReads(env, Unfold(env, ops, turns))
  {
    if turns == [] {
      StartDepths(env, ops);
    } else {
      var init := turns[..|turns| - 1];
      CleanEarlier(env, ops, turns, |turns| - 1);
      DepthsRightIffSeen(env, ops, init);
      UnfoldGrounded(env, ops, init);
      if AlwaysRight(env, ops, init) {
        ActDepths(env, Unfold(env, ops, init), turns[|turns| - 1]);
      }
    }
  }

  lemma StartDepths(env: Env, ops: seq<Op>)
    requires Clean(env, Unfold(env, ops, []).base.run.past)
    ensures DepthsRight(env, Unfold(env, ops, [])) && HalfReads(env, Unfold(env, ops, []))
  {
    RunStructured(env, ops);
    var r := Execute(env, ops);
    forall h | h in r.dag.nodes
      ensures r.dag.nodes[h].depth == DepthIn(env, r.past, h)
    {
      assert NodeAgrees(env, r.past, h, r.dag.nodes[h]);
    }
  }

  // ---- What pruning must leave alone, and what happens otherwise -----------------------------------

  /** The call has found `h` as a parent and has yet to read its depth. */
  predicate Needs(c: Call, h: TxHash) {
    !c.tx.IsGenesis() && ((Needs1(c.pc) && c.tx.parent1 == h) || (Needs2(c.pc) && c.tx.parent2 == h))
  }

  /** The turn drops no node that a call in flight still needs. */
  ghost predicate Spares(w: World, b: Turn) {
    b.Evict? ==> forall t :: t in w.base.calls ==> !Needs(w.base.calls[t], b.h)
  }

  ghost predicate AllSpared(env: Env, ops: seq<Op>, turns: seq<Turn>) {
    turns != [] ==>
      var init := turns[..|turns| - 1];
      Spares(Unfold(env, ops, init), turns[|turns| - 1]) && AllSpared(env, ops, init)
  }

  ghost predicate Provided(env: Env, past: seq<Past>, nodes: Nodes, c: Call) {
    && (forall h :: Needs(c, h) ==> h in nodes)
    && (c.pc.ReadDepth2? ==> c.depth == DepthIn(env, past, c.tx.parent1))
  }

  ghost predicate AllProvided(env: Env, w: World) {
    forall t :: t in w.base.calls ==> Provided(env, w.base.run.past, w.base.Dag().nodes, w.base.calls[t])
  }

  lemma ProvidedSees(env: Env, past: seq<Past>, nodes: Nodes, c: Call)
    requires Placed(env, past, c) && Provided(env, past, nodes, c) && c.pc.ReadDepth2?
    ensures SeesDeepest(env, past, nodes, c)
  {
    assert Needs(c, c.tx.parent2);
  }

  lemma OwnProvided(env: Env, past: seq<Past>, nodes: Nodes, c: Call, c': Call)
    requires Placed(env, past, c) && Provided(env, past, nodes, c) && NodesRight(env, past, nodes)
    requires CallMove(env, nodes, c, c')
    ensures Provided(env, past, nodes, c')
  {
    forall h | Needs(c', h)
      ensures h in nodes
    {
      assert Needs1(c.pc) && c.tx.parent1 == h ==> Needs(c, h);
      assert Needs2(c.pc) && c.tx.parent2 == h ==> Needs(c, h);
    }
    if c'.pc.ReadDepth2? {
      assert Needs(c, c.tx.parent1);
    }
  }

  /** Nodes stay and the history grows: what a call was provided with it still is. */
  lemma StaysProvided(env: Env, past: seq<Past>, nodes: Nodes, c: Call, past': seq<Past>, nodes': Nodes)
    requires Placed(env, past, c) && Provided(env, past, nodes, c)
    requires forall h :: Recorded(env, past, h) ==> DepthIn(env, past', h) == DepthIn(env, past, h)
    requires forall h :: Needs(c, h) && h in nodes ==> h in nodes'
    ensures Provided(env, past', nodes', c)
  {}

  lemma GrowthKeepsDepths(env: Env, past: seq<Past>, past': seq<Past>)
    requires past' == past || exists p :: past' == past + [p]
    requires Clean(env, past')
    ensures forall h :: Recorded(env, past, h) ==> DepthIn(env, past', h) == DepthIn(env, past, h)
  {
    if past' != past {
      var p :| past' == past + [p];
      DepthsStay(env, past, p);
    }
  }

  lemma TickProvided(env: Env, w: World, t: Tid, supplyOk: bool)
    requires Grounded(env, w) && NodesRight(env, w.base.run.past, w.base.Dag().nodes) && AllProvided(env, w)
    requires t in w.base.calls && Clean(env, Next(env, w.base, Tick(t, supplyOk)).run.past)
    ensures AllProvided(env, Act(env, w, Insert(Tick(t, supplyOk))))
  {
    var s, after := w.base, Next(env, w.base, Tick(t, supplyOk));
    TickGraph(env, s, t, supplyOk);
    GrowthKeepsDepths(env, s.run.past, after.run.past);
    OwnProvided(env, s.run.past, s.Dag().nodes, s.calls[t], after.calls[t]);
    forall u | u in s.calls && u != t {
      StaysProvided(env, s.run.past, s.Dag().nodes, s.calls[u], after.run.past, after.Dag().nodes);
    }
    OwnStays(env, s, after, t);
  }

  lemma OwnStays(env: Env, s: State, after: State, t: Tid)
    requires t in s.calls && GraphMove(env, s, after, t) && Placed(env, s.run.past, s.calls[t])
    requires Provided(env, s.run.past, s.Dag().nodes, after.calls[t])
    requires forall h :: Recorded(env, s.run.past, h) ==> DepthIn(env, after.run.past, h) == DepthIn(env, s.run.past, h)
    ensures Provided(env, after.run.past, after.Dag().nodes, after.calls[t])
  {}

  lemma OtherNodes(env: Env, w: World, b: Turn)
    requires !b.Insert?
    ensures Act(env, w, b).base.calls == w.base.calls
    ensures forall h :: h in w.base.Dag().nodes && (b.Evict? ==> h != b.h) ==> h in Act(env, w, b).base.Dag().nodes
  {}

  /** The other turns drop nothing a call needs. */
  lemma OtherProvided(env: Env, w: World, b: Turn)
    requires Grounded(env, w) && AllProvided(env, w) && !b.Insert? && Spares(w, b)
    requires Clean(env, Act(env, w, b).base.run.past)
    ensures AllProvided(env, Act(env, w, b))
  {
    var after := Act(env, w, b);
    ActGrows(env, w, b);
    OtherNodes(env, w, b);
    GrowthKeepsDepths(env, w.base.run.past, after.base.run.past);
    forall t | t in w.base.calls {
      StaysProvided(env, w.base.run.past, w.base.Dag().nodes, w.base.calls[t], after.base.run.past,
                    after.base.Dag().nodes);
    }
  }

  /** A guard that pruning could keep: as long as it drops no parent that a call in flight has found and not
      yet read, all depths are right at all times. */
  lemma {:induction false} SparedIsRight(env: Env, ops: seq<Op>, turns: seq<Turn>)
    requires Clean(env, Unfold(env, ops, turns).base.run.past) && AllSpared(env, ops, turns)
    ensures AlwaysRight(env, ops, turns) && AllProvided(env, Unfold(env, ops, turns))
  {
    DepthsRightIffSeen(env, ops, turns);
    if turns != [] {
      var init, b := turns[..|turns| - 1], turns[|turns| - 1];
      var w := Unfold(env, ops, init);
      CleanEarlier(env, ops, turns, |turns| - 1);
      SparedIsRight(env, ops, init);
      DepthsRightIffSeen(env, ops, init);
      UnfoldGrounded(env, ops, init);
      if b.Insert? {
        InsertProvided(env, w, b.e);
      } else {
        OtherProvided(env, w, b);
      }
    }
  }

  lemma InsertProvided(env: Env, w: World, e: Event)
    requires Grounded(env, w) && DepthsRight(env, w) && AllProvided(env, w)
    requires Clean(env, Next(env, w.base, e).run.past)
    ensures AllProvided(env, Act(env, w, Insert(e))) && SoundRead(env, w, Insert(e))
  {
    if e.Tick? && e.t in w.base.calls {
      TickProvided(env, w, e.t, e.supplyOk);
      if w.base.calls[e.t].pc.ReadDepth2? {
        ProvidedSees(env, w.base.run.past, w.base.Dag().nodes, w.base.calls[e.t]);
      }
    }
  }
}
