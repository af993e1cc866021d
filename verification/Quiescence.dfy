/** The shape of the DAG under concurrent inserts: what each in-flight call still owes, and that once
    all calls have returned the DAG agrees with its history as after a sequential run. */
module Quiescence {
  import opened Core
  import opened Sums
  import opened Ledgers
  import opened Dags
  import opened History
  import opened Structure
  import opened Paths
  import opened Concurrent
  import opened Presence

  ghost function Slot(b: bool): nat { if b then 1 else 0 }

  /** Child entries under `h` that the call has yet to push. */
  ghost function OwedChildren(env: Env, c: Call, h: TxHash, x: TxHash): nat {
    if c.tx.IsGenesis() || env.hash(c.tx) != x then 0
    else Slot(Child1Pending(c.pc) && c.tx.parent1 == h) + Slot(Child2Pending(c.pc) && c.tx.parent2 == h)
  }

  /** Children of `h` pushed by the call whose weight it has yet to add. */
  ghost function OwedWeight(c: Call, h: TxHash): nat {
    if c.tx.IsGenesis() then 0
    else Slot(Weight1Due(c.pc) && c.tx.parent1 == h) + Slot(Weight2Due(c.pc) && c.tx.parent2 == h)
  }

  ghost function OwedCount(c: Call): nat { Slot(CountPending(c.pc)) }

  type Calls = map<Tid, Call>

  ghost function ChildDebts(env: Env, calls: Calls, h: TxHash, x: TxHash): map<Tid, nat> {
    map t | t in calls :: OwedChildren(env, calls[t], h, x)
  }

  ghost function WeightDebts(calls: Calls, h: TxHash): map<Tid, nat> {
    map t | t in calls :: OwedWeight(calls[t], h)
  }

  ghost function CountDebts(calls: Calls): map<Tid, nat> {
    map t | t in calls :: OwedCount(calls[t])
  }

  lemma ChildDebtUpdate(env: Env, calls: Calls, t: Tid, c: Call, h: TxHash, x: TxHash)
    ensures Sum(ChildDebts(env, calls[t := c], h, x))
         == Sum(ChildDebts(env, calls, h, x)) - (if t in calls then OwedChildren(env, calls[t], h, x) else 0)
            + OwedChildren(env, c, h, x)
  {
    var owed := OwedChildren(env, c, h, x);
    assert ChildDebts(env, calls[t := c], h, x) == ChildDebts(env, calls, h, x)[t := owed];
    SumUpdate(ChildDebts(env, calls, h, x), t, owed);
  }

  lemma WeightDebtUpdate(calls: Calls, t: Tid, c: Call, h: TxHash)
    ensures Sum(WeightDebts(calls[t := c], h))
         == Sum(WeightDebts(calls, h)) - (if t in calls then OwedWeight(calls[t], h) else 0) + OwedWeight(c, h)
  {
    var owed := OwedWeight(c, h);
    assert WeightDebts(calls[t := c], h) == WeightDebts(calls, h)[t := owed];
    SumUpdate(WeightDebts(calls, h), t, owed);
  }

  lemma CountDebtUpdate(calls: Calls, t: Tid, c: Call)
    ensures Sum(CountDebts(calls[t := c]))
         == Sum(CountDebts(calls)) - (if t in calls then OwedCount(calls[t]) else 0) + OwedCount(c)
  {
    assert CountDebts(calls[t := c]) == CountDebts(calls)[t := OwedCount(c)];
    SumUpdate(CountDebts(calls), t, OwedCount(c));
  }

  lemma {:induction false} SumOfZeros<K>(m: map<K, nat>)
    requires forall k :: k in m ==> m[k] == 0
    ensures Sum(m) == 0
    decreases |m|
  {
    if m.Keys != {} {
      var k := Pick(m.Keys);
      SumOfZeros(m - {k});
    }
  }

  // ---- The invariant -------------------------------------------------------------------------

  ghost function DepthIn(env: Env, past: seq<Past>, h: TxHash): nat { Lookup(Depths(env, past), h, 0) }

  ghost predicate InHistory(past: seq<Past>, tx: Transaction) {
    exists i :: 0 <= i < |past| && past[i].tx == tx
  }

  lemma InHistoryRecorded(env: Env, past: seq<Past>, tx: Transaction)
    requires InHistory(past, tx)
    ensures Recorded(env, past, env.hash(tx))
  {
    var i :| 0 <= i < |past| && past[i].tx == tx;
  }

  /** The steps a genesis transaction skips. */
  ghost predicate TouchesParent(pc: Pc) { ReadingDepths(pc) || Hanging(pc) || pc.FindParent1? || pc.FindParent2? }

  /** What a call has found or computed so far. */
  ghost predicate CallShape(env: Env, past: seq<Past>, nodes: Nodes, c: Call) {
    var tx, h := c.tx, env.hash(c.tx);
    && (Parent1Found(c.pc) && !tx.IsGenesis() ==> tx.parent1 in nodes)
    && (Parent2Found(c.pc) && !tx.IsGenesis() ==> tx.parent2 in nodes)
    && (tx.IsGenesis() ==> !TouchesParent(c.pc))
    && (NodePending(c.pc) ==> InHistory(past, tx) && h !in nodes && ChildrenOf(env, past, h) == [])
    && (c.pc.ReadDepth2? ==> c.depth == DepthIn(env, past, tx.parent1))
    && (DepthKnown(c.pc) ==> c.depth == DepthIn(env, past, h))
    && (c.pc.SwapMax? ==> c.pc.seenMax < c.depth)
  }

  ghost predicate CallsShape(env: Env, past: seq<Past>, nodes: Nodes, calls: Calls) {
    (forall t :: t in calls ==> CallShape(env, past, nodes, calls[t])) && PendingDiffer(env, calls)
  }

  /** No two calls that still have to put their nodes have the same hash. */
  ghost predicate PendingDiffer(env: Env, calls: Calls) {
    forall t, u :: t in calls && u in calls && t != u && NodePending(calls[t].pc) && NodePending(calls[u].pc) ==>
      env.hash(calls[t].tx) != env.hash(calls[u].tx)
  }

  ghost predicate ChildrenShape(env: Env, past: seq<Past>, calls: Calls, h: TxHash, children: seq<TxHash>) {
    forall x :: multiset(children)[x] + Sum(ChildDebts(env, calls, h, x)) == multiset(ChildrenOf(env, past, h))[x]
  }

  /** A node agrees with the history once what the in-flight calls owe it is added. */
  ghost predicate NodeShape(env: Env, past: seq<Past>, calls: Calls, h: TxHash, n: Node) {
    && n.hash == h == env.hash(n.tx)
    && InHistory(past, n.tx)
    && ChildrenShape(env, past, calls, h, n.children)
    && n.weight + Sum(WeightDebts(calls, h)) == 1 + |n.children|
    && n.depth == DepthIn(env, past, h)
  }

  ghost predicate NodesShape(env: Env, past: seq<Past>, calls: Calls, nodes: Nodes) {
    forall h :: h in nodes ==> NodeShape(env, past, calls, h, nodes[h])
  }

  /** A call that has not yet dropped `h` from the tips, although it names it as a parent. */
  ghost predicate KeepsTip(c: Call, h: TxHash) {
    Drop1Pending(c.pc) || (c.pc.DropTip2? && c.tx.parent1 != h)
  }

  ghost predicate Unadded(env: Env, calls: Calls, h: TxHash) {
    exists t :: t in calls && TipPending(calls[t].pc) && env.hash(calls[t].tx) == h
  }

  ghost predicate StillHeld(env: Env, calls: Calls, h: TxHash, x: TxHash) {
    exists t :: t in calls && env.hash(calls[t].tx) == x && KeepsTip(calls[t], h)
  }

  /** Recorded, already added, and not yet dropped by any child. */
  ghost predicate IsTip(env: Env, past: seq<Past>, calls: Calls, h: TxHash) {
    Recorded(env, past, h) && !Unadded(env, calls, h) && AllHold(env, past, calls, h)
  }

  /** Every child of `h` still has to drop it. */
  ghost predicate AllHold(env: Env, past: seq<Past>, calls: Calls, h: TxHash) {
    forall x :: x in ChildrenOf(env, past, h) ==> StillHeld(env, calls, h, x)
  }

  ghost predicate TipsShape(env: Env, past: seq<Past>, calls: Calls, tips: set<TxHash>) {
    forall h :: h in tips <==> IsTip(env, past, calls, h)
  }

  ghost predicate Unmaxed(env: Env, calls: Calls, h: TxHash) {
    exists t :: t in calls && MaxPending(calls[t].pc) && env.hash(calls[t].tx) == h
  }

  ghost predicate MaxShape(env: Env, past: seq<Past>, calls: Calls, m: nat) {
    && (forall h :: Recorded(env, past, h) && !Unmaxed(env, calls, h) ==> DepthIn(env, past, h) <= m)
    && (m == 0 || exists h :: Recorded(env, past, h) && DepthIn(env, past, h) == m)
  }

  ghost predicate CountShape(past: seq<Past>, calls: Calls, count: nat) {
    count + Sum(CountDebts(calls)) == |past|
  }

  /** The parts of the shape that depend on calls and shared state, in one place. */
  ghost predicate SharedShape(env: Env, past: seq<Past>, d: Dag, calls: Calls) {
    && NodesShape(env, past, calls, d.nodes)
    && TipsShape(env, past, calls, d.tips)
    && MaxShape(env, past, calls, d.maxDepth)
    && CountShape(past, calls, d.totalCount)
  }

  ghost predicate Whole(env: Env, past: seq<Past>, d: Dag, calls: Calls) {
    ParentsFirst(env, past) && CallsShape(env, past, d.nodes, calls) && SharedShape(env, past, d, calls)
  }

  ghost predicate Shape(env: Env, s: State) { Whole(env, s.run.past, s.Dag(), s.calls) }

  // ---- One call moves on, its obligations unchanged ----------------------------------------------

  lemma ChildrenKept(env: Env, past: seq<Past>, calls: Calls, h: TxHash, children: seq<TxHash>, t: Tid, c: Call)
    requires ChildrenShape(env, past, calls, h, children) && t in calls
    requires forall x :: OwedChildren(env, c, h, x) == OwedChildren(env, calls[t], h, x)
    ensures ChildrenShape(env, past, calls[t := c], h, children)
  {
    forall x
      ensures Sum(ChildDebts(env, calls[t := c], h, x)) == Sum(ChildDebts(env, calls, h, x))
    {
      ChildDebtUpdate(env, calls, t, c, h, x);
    }
  }

  lemma NodeKept(env: Env, past: seq<Past>, calls: Calls, h: TxHash, n: Node, t: Tid, c: Call)
    requires NodeShape(env, past, calls, h, n) && t in calls
    requires forall x :: OwedChildren(env, c, h, x) == OwedChildren(env, calls[t], h, x)
    requires OwedWeight(c, h) == OwedWeight(calls[t], h)
    ensures NodeShape(env, past, calls[t := c], h, n)
  {
    WeightDebtUpdate(calls, t, c, h);
    ChildrenKept(env, past, calls, h, n.children, t, c);
  }

  lemma NodesKept(env: Env, past: seq<Past>, calls: Calls, nodes: Nodes, t: Tid, c: Call)
    requires NodesShape(env, past, calls, nodes) && t in calls
    requires forall h, x :: OwedChildren(env, c, h, x) == OwedChildren(env, calls[t], h, x)
    requires forall h :: OwedWeight(c, h) == OwedWeight(calls[t], h)
    ensures NodesShape(env, past, calls[t := c], nodes)
  {
    forall h | h in nodes {
      NodeKept(env, past, calls, h, nodes[h], t, c);
    }
  }

  lemma CallsKept(env: Env, past: seq<Past>, nodes: Nodes, calls: Calls, t: Tid, c: Call)
    requires CallsShape(env, past, nodes, calls) && t in calls && c.tx == calls[t].tx
    requires CallShape(env, past, nodes, c) && (NodePending(c.pc) ==> NodePending(calls[t].pc))
    ensures CallsShape(env, past, nodes, calls[t := c])
  {}

  lemma TipsKept(env: Env, past: seq<Past>, calls: Calls, tips: set<TxHash>, t: Tid, c: Call)
    requires TipsShape(env, past, calls, tips) && t in calls && c.tx == calls[t].tx
    requires forall h :: KeepsTip(c, h) <==> KeepsTip(calls[t], h)
    requires TipPending(c.pc) <==> TipPending(calls[t].pc)
    ensures TipsShape(env, past, calls[t := c], tips)
  {
    forall h, x
      ensures StillHeld(env, calls[t := c], h, x) <==> StillHeld(env, calls, h, x)
    {
      KeptMoved(env, calls, t, c, h, x);
    }
    forall h
      ensures Unadded(env, calls[t := c], h) <==> Unadded(env, calls, h)
    {
      UnaddedMoved(env, calls, t, c, h);
    }
  }

  lemma KeptMoved(env: Env, calls: Calls, t: Tid, c: Call, h: TxHash, x: TxHash)
    requires t in calls && c.tx == calls[t].tx
    requires env.hash(c.tx) != x || (KeepsTip(c, h) <==> KeepsTip(calls[t], h))
    ensures StillHeld(env, calls[t := c], h, x) <==> StillHeld(env, calls, h, x)
  {
    var after := calls[t := c];
    if u :| u in calls && env.hash(calls[u].tx) == x && KeepsTip(calls[u], h) {
      assert env.hash(after[u].tx) == x && KeepsTip(after[u], h);
    }
    if u :| u in after && env.hash(after[u].tx) == x && KeepsTip(after[u], h) {
      assert env.hash(calls[u].tx) == x && KeepsTip(calls[u], h);
    }
  }

  lemma UnaddedMoved(env: Env, calls: Calls, t: Tid, c: Call, h: TxHash)
    requires t in calls && c.tx == calls[t].tx
    requires env.hash(c.tx) != h || (TipPending(c.pc) <==> TipPending(calls[t].pc))
    ensures Unadded(env, calls[t := c], h) <==> Unadded(env, calls, h)
  {
    var after := calls[t := c];
    if u :| u in calls && TipPending(calls[u].pc) && env.hash(calls[u].tx) == h {
      assert TipPending(after[u].pc) && env.hash(after[u].tx) == h;
    }
  }

  lemma UnmaxedMoved(env: Env, calls: Calls, t: Tid, c: Call, h: TxHash)
    requires t in calls && c.tx == calls[t].tx
    requires env.hash(c.tx) != h || (MaxPending(c.pc) <==> MaxPending(calls[t].pc))
    ensures Unmaxed(env, calls[t := c], h) <==> Unmaxed(env, calls, h)
  {
    var after := calls[t := c];
    if u :| u in calls && MaxPending(calls[u].pc) && env.hash(calls[u].tx) == h {
      assert MaxPending(after[u].pc) && env.hash(after[u].tx) == h;
    }
  }

  lemma MaxKept(env: Env, past: seq<Past>, calls: Calls, m: nat, t: Tid, c: Call)
    requires MaxShape(env, past, calls, m) && t in calls && c.tx == calls[t].tx
    requires MaxPending(c.pc) <==> MaxPending(calls[t].pc)
    ensures MaxShape(env, past, calls[t := c], m)
  {
    forall h {
      UnmaxedMoved(env, calls, t, c, h);
    }
  }

  lemma CountKept(past: seq<Past>, calls: Calls, count: nat, t: Tid, c: Call)
    requires CountShape(past, calls, count) && t in calls && OwedCount(c) == OwedCount(calls[t])
    ensures CountShape(past, calls[t := c], count)
  {
    CountDebtUpdate(calls, t, c);
  }

  /** Two states of a call between which it settles no obligation. */
  ghost predicate SamePhase(c: Call, c': Call) {
    && c'.tx == c.tx
    && ((MaxPending(c.pc) && MaxPending(c'.pc)) || (!CountPending(c.pc) && !CountPending(c'.pc)))
  }

  lemma PhaseDebts(env: Env, c: Call, c': Call)
    requires SamePhase(c, c')
    ensures forall h, x :: OwedChildren(env, c', h, x) == OwedChildren(env, c, h, x)
    ensures forall h :: OwedWeight(c', h) == OwedWeight(c, h)
    ensures forall h :: KeepsTip(c', h) <==> KeepsTip(c, h)
    ensures OwedCount(c') == OwedCount(c)
  {}

  lemma QuietShared(env: Env, past: seq<Past>, d: Dag, calls: Calls, t: Tid, c: Call)
    requires SharedShape(env, past, d, calls) && t in calls && SamePhase(calls[t], c)
    ensures SharedShape(env, past, d, calls[t := c])
  {
    PhaseDebts(env, calls[t], c);
    NodesKept(env, past, calls, d.nodes, t, c);
    TipsKept(env, past, calls, d.tips, t, c);
    MaxKept(env, past, calls, d.maxDepth, t, c);
    CountKept(past, calls, d.totalCount, t, c);
  }

  /** A step between two states of a call in the same phase that changes no shared shape. */
  lemma WholeQuiet(env: Env, past: seq<Past>, d: Dag, calls: Calls, t: Tid, c: Call, d': Dag)
    requires Whole(env, past, d, calls) && t in calls && SamePhase(calls[t], c) && CallShape(env, past, d.nodes, c)
    requires d' == d.(ledger := d'.ledger, committed := d'.committed)
    ensures Whole(env, past, d', calls[t := c])
  {
    CallsKept(env, past, d.nodes, calls, t, c);
    QuietShared(env, past, d, calls, t, c);
  }

  // ---- The maximum, the count and the tips -------------------------------------------------------

  /** The call is done with the maximum once it is at least its depth. */
  lemma MaxDone(env: Env, past: seq<Past>, calls: Calls, m: nat, t: Tid, c: Call, m': nat)
    requires MaxShape(env, past, calls, m) && t in calls && c.tx == calls[t].tx
    requires RaisingMax(calls[t].pc) && Linking(c.pc) && !ReadingDepths(c.pc) && !RaisingMax(c.pc)
    requires Recorded(env, past, env.hash(c.tx)) && DepthIn(env, past, env.hash(c.tx)) == calls[t].depth
    requires m' == Max(m, calls[t].depth)
    ensures MaxShape(env, past, calls[t := c], m')
  {
    var after := calls[t := c];
    forall h | Recorded(env, past, h) && !Unmaxed(env, after, h)
      ensures DepthIn(env, past, h) <= m'
    {
      if h != env.hash(c.tx) {
        UnmaxedMoved(env, calls, t, c, h);
      }
    }
    if m' != m {
      assert DepthIn(env, past, env.hash(c.tx)) == m';
    }
  }

  /** Once the call drops `parent`, it no longer keeps it among the tips. */
  lemma TipDropped(env: Env, past: seq<Past>, nodes: Nodes, calls: Calls, tips: set<TxHash>, t: Tid, c: Call,
                   parent: TxHash)
    requires TipsShape(env, past, calls, tips) && CallsShape(env, past, nodes, calls) && Clean(env, past)
    requires t in calls && c.tx == calls[t].tx && DroppingTips(calls[t].pc) && Follows(c.pc, calls[t].pc)
    requires parent == if calls[t].pc.DropTip1? then c.tx.parent1 else c.tx.parent2
    requires forall h :: env.hash(c.tx) in ChildrenOf(env, past, h) ==> ParentOf(c.tx, h)
    requires !c.tx.IsGenesis() ==> env.hash(c.tx) in ChildrenOf(env, past, parent)
    ensures TipsShape(env, past, calls[t := c], tips - {parent})
  {
    NoZeroRecorded(env, past);
    NoLongerKept(env, past, nodes, calls, t, c, parent);
    forall h | h != parent {
      OthersKept(env, past, calls, t, c, h);
    }
  }

  lemma OthersKept(env: Env, past: seq<Past>, calls: Calls, t: Tid, c: Call, h: TxHash)
    requires t in calls && c.tx == calls[t].tx && DroppingTips(calls[t].pc) && Follows(c.pc, calls[t].pc)
    requires h != if calls[t].pc.DropTip1? then c.tx.parent1 else c.tx.parent2
    requires env.hash(c.tx) in ChildrenOf(env, past, h) ==> ParentOf(c.tx, h)
    ensures IsTip(env, past, calls[t := c], h) <==> IsTip(env, past, calls, h)
  {
    UnaddedMoved(env, calls, t, c, h);
    forall x | x in ChildrenOf(env, past, h)
      ensures StillHeld(env, calls[t := c], h, x) <==> StillHeld(env, calls, h, x)
    {
      KeptMoved(env, calls, t, c, h, x);
    }
  }

  lemma NoLongerKept(env: Env, past: seq<Past>, nodes: Nodes, calls: Calls, t: Tid, c: Call, parent: TxHash)
    requires CallsShape(env, past, nodes, calls) && t in calls && c.tx == calls[t].tx
    requires DroppingTips(calls[t].pc) && Follows(c.pc, calls[t].pc)
    requires parent == if calls[t].pc.DropTip1? then c.tx.parent1 else c.tx.parent2
    ensures !StillHeld(env, calls[t := c], parent, env.hash(c.tx))
  {
    assert forall u :: u in calls && u != t && KeepsTip(calls[u], parent) ==> env.hash(calls[u].tx) != env.hash(c.tx);
  }

  /** A call adds its own hash, which has no children yet. */
  lemma TipAdded(env: Env, past: seq<Past>, nodes: Nodes, calls: Calls, tips: set<TxHash>, t: Tid, c: Call)
    requires TipsShape(env, past, calls, tips) && CallsShape(env, past, nodes, calls)
    requires t in calls && c.tx == calls[t].tx && calls[t].pc.AddTip? && c.pc.PutNode?
    ensures TipsShape(env, past, calls[t := c], tips + {env.hash(c.tx)})
  {
    var after, h0 := calls[t := c], env.hash(c.tx);
    assert CallShape(env, past, nodes, calls[t]);
    assert !Unadded(env, after, h0);
    forall h | h != h0
      ensures Unadded(env, after, h) <==> Unadded(env, calls, h)
    {
      UnaddedMoved(env, calls, t, c, h);
    }
    forall h, x
      ensures StillHeld(env, after, h, x) <==> StillHeld(env, calls, h, x)
    {
      KeptMoved(env, calls, t, c, h, x);
    }
  }

  // ---- Children and weights ----------------------------------------------------------------------

  /** Pushing a child settles one entry of the debt. */
  lemma ChildPushed(env: Env, past: seq<Past>, calls: Calls, h: TxHash, children: seq<TxHash>, t: Tid, c: Call,
                    pushed: seq<TxHash>)
    requires ChildrenShape(env, past, calls, h, children) && t in calls
    requires forall x :: OwedChildren(env, calls[t], h, x) == OwedChildren(env, c, h, x) + multiset(pushed)[x]
    ensures ChildrenShape(env, past, calls[t := c], h, children + pushed)
  {
    forall x
      ensures multiset(children + pushed)[x] + Sum(ChildDebts(env, calls[t := c], h, x))
           == multiset(ChildrenOf(env, past, h))[x]
    {
      ChildDebtUpdate(env, calls, t, c, h, x);
    }
  }

  /** What one step pushes under `h`: the call's hash, if this is the slot's turn and `h` its parent. */
  ghost function Pushed(env: Env, c: Call, h: TxHash): seq<TxHash> {
    if (c.pc.Child1? && c.tx.parent1 == h) || (c.pc.Child2? && c.tx.parent2 == h) then [env.hash(c.tx)] else []
  }

  ghost function Weighed(c: Call, h: TxHash): nat {
    Slot((c.pc.Weight1? && c.tx.parent1 == h) || (c.pc.Weight2? && c.tx.parent2 == h))
  }

  /** One of the four steps that touch a parent, seen from node `h`. */
  lemma ParentStepAt(env: Env, past: seq<Past>, calls: Calls, h: TxHash, n: Node, n': Node, t: Tid, c: Call)
    requires NodeShape(env, past, calls, h, n) && t in calls && c.tx == calls[t].tx && !c.tx.IsGenesis()
    requires Hanging(calls[t].pc) && Follows(c.pc, calls[t].pc)
    requires n' == n.(children := n.children + Pushed(env, calls[t], h), weight := n.weight + Weighed(calls[t], h))
    ensures NodeShape(env, past, calls[t := c], h, n')
  {
    forall x {
      StepSettles(env, calls[t], c, h, x);
    }
    ChildPushed(env, past, calls, h, n.children, t, c, Pushed(env, calls[t], h));
    StepWeighs(env, calls, t, c, h);
  }

  lemma StepWeighs(env: Env, calls: Calls, t: Tid, c: Call, h: TxHash)
    requires t in calls && c.tx == calls[t].tx && !c.tx.IsGenesis()
    requires Hanging(calls[t].pc) && Follows(c.pc, calls[t].pc)
    ensures Sum(WeightDebts(calls[t := c], h))
         == Sum(WeightDebts(calls, h)) + |Pushed(env, calls[t], h)| - Weighed(calls[t], h)
  {
    WeightDebtUpdate(calls, t, c, h);
    StepSettles(env, calls[t], c, h, h);
  }

  /** What a step pushes it no longer owes, and of what it has pushed it owes the weight. */
  lemma StepSettles(env: Env, c: Call, c': Call, h: TxHash, x: TxHash)
    requires Hanging(c.pc) && Follows(c'.pc, c.pc) && c'.tx == c.tx && !c.tx.IsGenesis()
    ensures OwedChildren(env, c, h, x) == OwedChildren(env, c', h, x) + multiset(Pushed(env, c, h))[x]
    ensures OwedWeight(c', h) == OwedWeight(c, h) + |Pushed(env, c, h)| - Weighed(c, h)
  {}

  lemma ParentStepNodes(env: Env, past: seq<Past>, calls: Calls, nodes: Nodes, t: Tid, c: Call, nodes': Nodes)
    requires NodesShape(env, past, calls, nodes) && t in calls && c.tx == calls[t].tx && !c.tx.IsGenesis()
    requires Hanging(calls[t].pc) && Follows(c.pc, calls[t].pc)
    requires Hung(env, calls[t], nodes, nodes')
    ensures NodesShape(env, past, calls[t := c], nodes')
  {
    forall h | h in nodes' {
      ParentStepAt(env, past, calls, h, nodes[h], nodes'[h], t, c);
    }
  }

  // ---- Joining the history -----------------------------------------------------------------------

  /** The debit appends the transaction: its parents' nodes now owe it. */
  lemma DebitNode(env: Env, past: seq<Past>, p: Past, calls: Calls, h: TxHash, n: Node, t: Tid, c: Call)
    requires NodeShape(env, past, calls, h, n) && t in calls && c.tx == calls[t].tx == p.tx
    requires calls[t].pc.SwapBalance? && c.pc.CreditReceiver? && h != env.hash(p.tx)
    ensures NodeShape(env, past + [p], calls[t := c], h, n)
  {
    DepthSnoc(env, past, p, h);
    InHistorySnoc(past, p, n.tx);
    DebitOwesNoWeight(calls, t, c, h);
    DebitChildren(env, past, p, calls, h, n.children, t, c);
  }

  lemma DebitOwesNoWeight(calls: Calls, t: Tid, c: Call, h: TxHash)
    requires t in calls && calls[t].pc.SwapBalance? && c.pc.CreditReceiver?
    ensures Sum(WeightDebts(calls[t := c], h)) == Sum(WeightDebts(calls, h))
  {
    WeightDebtUpdate(calls, t, c, h);
  }

  lemma InHistorySnoc(past: seq<Past>, p: Past, tx: Transaction)
    ensures InHistory(past, tx) ==> InHistory(past + [p], tx)
    ensures InHistory(past + [p], p.tx)
  {
    var now := past + [p];
    assert now[|past|] == p;
    if i :| 0 <= i < |past| && past[i].tx == tx {
      assert now[i].tx == tx;
    }
  }

  lemma SlotsOwed(env: Env, c: Call, h: TxHash, x: TxHash)
    requires c.pc.CreditReceiver?
    ensures multiset(SlotsOf(env, c.tx, h))[x] == OwedChildren(env, c, h, x)
  {}

  /** The slots of the transaction join the history and the debt together. */
  lemma DebitChildAt(env: Env, calls: Calls, before: seq<TxHash>, now: seq<TxHash>, h: TxHash, x: TxHash, t: Tid,
                     c: Call)
    requires t in calls && c.tx == calls[t].tx && calls[t].pc.SwapBalance? && c.pc.CreditReceiver?
    requires now == before + SlotsOf(env, c.tx, h)
    ensures multiset(now)[x] - Sum(ChildDebts(env, calls[t := c], h, x))
         == multiset(before)[x] - Sum(ChildDebts(env, calls, h, x))
  {
    CountInBoth(before, SlotsOf(env, c.tx, h), x);
    ChildDebtUpdate(env, calls, t, c, h, x);
    SlotsOwed(env, c, h, x);
  }

  lemma DebitChildren(env: Env, past: seq<Past>, p: Past, calls: Calls, h: TxHash, children: seq<TxHash>, t: Tid,
                      c: Call)
    requires ChildrenShape(env, past, calls, h, children) && t in calls && c.tx == calls[t].tx == p.tx
    requires calls[t].pc.SwapBalance? && c.pc.CreditReceiver?
    ensures ChildrenShape(env, past + [p], calls[t := c], h, children)
  {
    ChildrenSnoc(env, past, p, h);
    forall x {
      DebitChildAt(env, calls, ChildrenOf(env, past, h), ChildrenOf(env, past + [p], h), h, x, t, c);
    }
  }

  lemma DebitOtherCall(env: Env, past: seq<Past>, p: Past, nodes: Nodes, c: Call)
    requires CallShape(env, past, nodes, c) && !Recorded(env, past, env.hash(p.tx))
    requires forall h :: h in nodes ==> Recorded(env, past, h)
    requires !p.tx.IsGenesis() ==> p.tx.parent1 in nodes && p.tx.parent2 in nodes
    ensures CallShape(env, past + [p], nodes, c)
  {
    InHistorySnoc(past, p, c.tx);
    if c.pc.ReadDepth2? && !c.tx.IsGenesis() {
      DepthSnoc(env, past, p, c.tx.parent1);
    }
    if NodePending(c.pc) {
      InHistoryRecorded(env, past, c.tx);
      ChildrenSnoc(env, past, p, env.hash(c.tx));
      DepthSnoc(env, past, p, env.hash(c.tx));
    }
  }

  lemma DebitOwnCall(env: Env, past: seq<Past>, p: Past, nodes: Nodes, before: Call)
    requires CallShape(env, past, nodes, before) && before.tx == p.tx && before.pc.SwapBalance?
    requires ChildrenOf(env, past, env.hash(p.tx)) == [] && env.hash(p.tx) !in nodes
    ensures CallShape(env, past + [p], nodes, before.(pc := CreditReceiver))
  {
    ChildrenSnoc(env, past, p, env.hash(p.tx));
    InHistorySnoc(past, p, p.tx);
  }

  /** Replacing one call in a well-shaped set of calls. */
  lemma CallsReplaced(env: Env, past: seq<Past>, nodes: Nodes, calls: Calls, t: Tid, c: Call)
    requires CallShape(env, past, nodes, c) && PendingDiffer(env, calls)
    requires forall u :: u in calls && u != t ==> CallShape(env, past, nodes, calls[u])
    requires forall u :: NodePending(c.pc) && u in calls && u != t && NodePending(calls[u].pc) ==>
               env.hash(calls[u].tx) != env.hash(c.tx)
    ensures CallsShape(env, past, nodes, calls[t := c])
  {
    PendingReplaced(env, calls, t, c);
  }

  lemma PendingReplaced(env: Env, calls: Calls, t: Tid, c: Call)
    requires PendingDiffer(env, calls)
    requires forall u :: NodePending(c.pc) && u in calls && u != t && NodePending(calls[u].pc) ==>
               env.hash(calls[u].tx) != env.hash(c.tx)
    ensures PendingDiffer(env, calls[t := c])
  {}

  lemma DebitCalls(env: Env, past: seq<Past>, p: Past, nodes: Nodes, calls: Calls, t: Tid)
    requires CallsShape(env, past, nodes, calls) && t in calls && calls[t].tx == p.tx && calls[t].pc.SwapBalance?
    requires ParentsFirst(env, past) && !Recorded(env, past, env.hash(p.tx))
    requires forall h :: h in nodes ==> Recorded(env, past, h)
    ensures CallsShape(env, past + [p], nodes, calls[t := calls[t].(pc := CreditReceiver)])
  {
    UnrecordedIsChildless(env, past, env.hash(p.tx));
    assert CallShape(env, past, nodes, calls[t]);
    DebitOwnCall(env, past, p, nodes, calls[t]);
    forall u | u in calls && u != t {
      DebitOther(env, past, p, nodes, calls, t, u);
    }
    CallsReplaced(env, past + [p], nodes, calls, t, calls[t].(pc := CreditReceiver));
  }

  lemma DebitOther(env: Env, past: seq<Past>, p: Past, nodes: Nodes, calls: Calls, t: Tid, u: Tid)
    requires t in calls && u in calls && calls[t].tx == p.tx && calls[t].pc.SwapBalance?
    requires CallShape(env, past, nodes, calls[t]) && CallShape(env, past, nodes, calls[u])
    requires !Recorded(env, past, env.hash(p.tx)) && forall h :: h in nodes ==> Recorded(env, past, h)
    ensures CallShape(env, past + [p], nodes, calls[u])
    ensures NodePending(calls[u].pc) ==> env.hash(calls[u].tx) != env.hash(p.tx)
  {
    DebitOtherCall(env, past, p, nodes, calls[u]);
    if NodePending(calls[u].pc) {
      InHistoryRecorded(env, past, calls[u].tx);
    }
  }

  lemma FreshHash(env: Env, past: seq<Past>, p: Past)
    requires Clean(env, past + [p])
    ensures !Recorded(env, past, env.hash(p.tx)) && Clean(env, past)
  {
    var now := past + [p];
    assert now[|past|] == p && forall i :: 0 <= i < |past| ==> now[i] == past[i];
  }

  lemma DebitTips(env: Env, past: seq<Past>, p: Past, calls: Calls, tips: set<TxHash>, t: Tid, c: Call)
    requires TipsShape(env, past, calls, tips) && t in calls && c.tx == calls[t].tx == p.tx
    requires !Recorded(env, past, env.hash(p.tx)) && calls[t].pc.SwapBalance? && c.pc.CreditReceiver?
    ensures TipsShape(env, past + [p], calls[t := c], tips)
  {
    forall h {
      DebitIsTip(env, past, p, calls, t, c, h);
    }
  }

  lemma DebitIsTip(env: Env, past: seq<Past>, p: Past, calls: Calls, t: Tid, c: Call, h: TxHash)
    requires t in calls && c.tx == calls[t].tx == p.tx && calls[t].pc.SwapBalance? && c.pc.CreditReceiver?
    requires !Recorded(env, past, env.hash(p.tx))
    ensures IsTip(env, past + [p], calls[t := c], h) <==> IsTip(env, past, calls, h)
  {
    RecordedSnoc(env, past, p, h);
    DebitTip(env, past, p, calls, t, c, h);
    DebitKeepers(env, past, p, calls, t, c, h);
  }

  lemma DebitKeepers(env: Env, past: seq<Past>, p: Past, calls: Calls, t: Tid, c: Call, h: TxHash)
    requires t in calls && c.tx == calls[t].tx == p.tx && calls[t].pc.SwapBalance? && c.pc.CreditReceiver?
    requires !Recorded(env, past, env.hash(p.tx))
    ensures AllHold(env, past + [p], calls[t := c], h) <==> AllHold(env, past, calls, h)
  {
    forall x
      ensures x in ChildrenOf(env, past + [p], h) ==>
                StillHeld(env, calls[t := c], h, x) || x in ChildrenOf(env, past, h)
      ensures x in ChildrenOf(env, past, h) ==> x in ChildrenOf(env, past + [p], h)
      ensures x in ChildrenOf(env, past, h) ==> (StillHeld(env, calls[t := c], h, x) <==> StillHeld(env, calls, h, x))
    {
      DebitKept(env, past, p, calls, t, c, h, x);
    }
  }

  lemma DebitTip(env: Env, past: seq<Past>, p: Past, calls: Calls, t: Tid, c: Call, h: TxHash)
    requires t in calls && c.tx == calls[t].tx == p.tx && calls[t].pc.SwapBalance? && c.pc.CreditReceiver?
    ensures h == env.hash(p.tx) ==> Unadded(env, calls[t := c], h)
    ensures h != env.hash(p.tx) ==> (Unadded(env, calls[t := c], h) <==> Unadded(env, calls, h))
  {
    var after := calls[t := c];
    assert env.hash(after[t].tx) == env.hash(p.tx) && TipPending(after[t].pc);
    if h != env.hash(p.tx) {
      UnaddedMoved(env, calls, t, c, h);
    }
  }

  lemma DebitKept(env: Env, past: seq<Past>, p: Past, calls: Calls, t: Tid, c: Call, h: TxHash, x: TxHash)
    requires t in calls && c.tx == calls[t].tx == p.tx && calls[t].pc.SwapBalance? && c.pc.CreditReceiver?
    requires !Recorded(env, past, env.hash(p.tx))
    ensures x in SlotsOf(env, p.tx, h) ==> StillHeld(env, calls[t := c], h, x)
    ensures x in ChildrenOf(env, past, h) ==> (StillHeld(env, calls[t := c], h, x) <==> StillHeld(env, calls, h, x))
    ensures x in ChildrenOf(env, past + [p], h) <==> x in ChildrenOf(env, past, h) || x in SlotsOf(env, p.tx, h)
  {
    ChildrenSnoc(env, past, p, h);
    var after := calls[t := c];
    assert env.hash(after[t].tx) == env.hash(p.tx) && KeepsTip(after[t], h);
    if x in ChildrenOf(env, past, h) {
      ChildIsRecorded(env, past, h, x);
      KeptMoved(env, calls, t, c, h, x);
    }
  }

  lemma ChildIsRecorded(env: Env, past: seq<Past>, h: TxHash, x: TxHash)
    requires x in ChildrenOf(env, past, h)
    ensures Recorded(env, past, x)
  {
    ChildIffParent(env, past, h, x);
  }

  lemma DebitMax(env: Env, past: seq<Past>, p: Past, calls: Calls, m: nat, t: Tid, c: Call)
    requires MaxShape(env, past, calls, m) && t in calls && c.tx == calls[t].tx == p.tx
    requires !Recorded(env, past, env.hash(p.tx)) && calls[t].pc.SwapBalance? && c.pc.CreditReceiver?
    ensures MaxShape(env, past + [p], calls[t := c], m)
  {
    var now, after, h0 := past + [p], calls[t := c], env.hash(p.tx);
    HistorySnoc(env, past, p);
    assert MaxPending(after[t].pc) && env.hash(after[t].tx) == h0;
    forall h | h != h0
      ensures Unmaxed(env, after, h) <==> Unmaxed(env, calls, h)
    {
      UnmaxedMoved(env, calls, t, c, h);
    }
    if m != 0 {
      var h :| Recorded(env, past, h) && DepthIn(env, past, h) == m;
      assert Recorded(env, now, h) && DepthIn(env, now, h) == m;
    }
  }

  // ---- The new node ------------------------------------------------------------------------------

  ghost predicate NothingDue(env: Env, calls: Calls, h: TxHash) {
    Sum(WeightDebts(calls, h)) == 0 && forall x :: Sum(ChildDebts(env, calls, h, x)) == 0
  }

  /** Nothing is owed to a node that is not there: every parent is present. */
  lemma NothingOwed(env: Env, past: seq<Past>, nodes: Nodes, calls: Calls, h: TxHash)
    requires CallsShape(env, past, nodes, calls) && h !in nodes
    ensures NothingDue(env, calls, h)
  {
    assert forall t :: t in calls ==> CallShape(env, past, nodes, calls[t]);
    forall x
      ensures Sum(ChildDebts(env, calls, h, x)) == 0
    {
      SumOfZeros(ChildDebts(env, calls, h, x));
    }
    SumOfZeros(WeightDebts(calls, h));
  }

  lemma PutOwed(env: Env, past: seq<Past>, nodes: Nodes, calls: Calls, t: Tid, c: Call)
    requires CallsShape(env, past, nodes, calls) && t in calls && calls[t].pc.PutNode? && c == calls[t].(pc := Count)
    ensures CallShape(env, past, nodes, calls[t])
    ensures NothingDue(env, calls[t := c], env.hash(c.tx))
  {
    assert CallShape(env, past, nodes, calls[t]);
    CallsKept(env, past, nodes, calls, t, c);
    NothingOwed(env, past, nodes, calls[t := c], env.hash(c.tx));
  }

  lemma PutNodes(env: Env, past: seq<Past>, nodes: Nodes, calls: Calls, t: Tid, c: Call, n: Node)
    requires CallsShape(env, past, nodes, calls) && NodesShape(env, past, calls, nodes) && t in calls
    requires calls[t].pc.PutNode? && c == calls[t].(pc := Count)
    requires n == Node(c.tx, env.hash(c.tx), Pending, [], 1, c.depth)
    ensures NodesShape(env, past, calls[t := c], nodes[env.hash(c.tx) := n])
  {
    PutDebts(env, calls[t], c);
    NodesKept(env, past, calls, nodes, t, c);
    PutOwn(env, past, nodes, calls, t, c, n);
  }

  lemma PutOwn(env: Env, past: seq<Past>, nodes: Nodes, calls: Calls, t: Tid, c: Call, n: Node)
    requires CallsShape(env, past, nodes, calls) && t in calls
    requires calls[t].pc.PutNode? && c == calls[t].(pc := Count)
    requires n == Node(c.tx, env.hash(c.tx), Pending, [], 1, c.depth)
    ensures NodeShape(env, past, calls[t := c], env.hash(c.tx), n)
  {
    PutOwed(env, past, nodes, calls, t, c);
    NewNodeShape(env, past, calls[t := c], env.hash(c.tx), n);
  }

  lemma PutDebts(env: Env, c: Call, c': Call)
    requires c.pc.PutNode? && c' == c.(pc := Count)
    ensures forall h, x :: OwedChildren(env, c', h, x) == OwedChildren(env, c, h, x)
    ensures forall h :: OwedWeight(c', h) == OwedWeight(c, h)
  {}

  lemma NewNodeShape(env: Env, past: seq<Past>, calls: Calls, h: TxHash, n: Node)
    requires n.hash == h == env.hash(n.tx) && n.children == [] && n.weight == 1 && n.depth == DepthIn(env, past, h)
    requires InHistory(past, n.tx)
    requires ChildrenOf(env, past, h) == [] && NothingDue(env, calls, h)
    ensures NodeShape(env, past, calls, h, n)
  {}

  lemma PutCalls(env: Env, past: seq<Past>, nodes: Nodes, calls: Calls, t: Tid, c: Call, n: Node)
    requires CallsShape(env, past, nodes, calls) && t in calls && calls[t].pc.PutNode? && c == calls[t].(pc := Count)
    ensures CallsShape(env, past, nodes[env.hash(c.tx) := n], calls[t := c])
  {
    var after := nodes[env.hash(c.tx) := n];
    assert CallShape(env, past, nodes, calls[t]);
    forall u | u in calls && u != t
      ensures CallShape(env, past, after, calls[u])
    {
      NodeAdded(env, past, nodes, calls[u], env.hash(c.tx), n);
    }
    assert CallShape(env, past, after, c);
    CallsReplaced(env, past, after, calls, t, c);
  }

  lemma NodeAdded(env: Env, past: seq<Past>, nodes: Nodes, c: Call, h: TxHash, n: Node)
    requires CallShape(env, past, nodes, c) && (NodePending(c.pc) ==> env.hash(c.tx) != h)
    ensures CallShape(env, past, nodes[h := n], c)
  {}

  // ---- Every step --------------------------------------------------------------------------------

  lemma PresentIsKnown(env: Env, past: seq<Past>, calls: Calls, nodes: Nodes)
    requires NodesShape(env, past, calls, nodes)
    ensures forall h :: h in nodes ==> Recorded(env, past, h)
  {
    forall h | h in nodes
      ensures Recorded(env, past, h)
    {
      assert NodeShape(env, past, calls, h, nodes[h]);
      InHistoryRecorded(env, past, nodes[h].tx);
    }
  }

  lemma WholeDebit(env: Env, past: seq<Past>, d: Dag, calls: Calls, t: Tid, p: Past, d': Dag)
    requires Whole(env, past, d, calls) && t in calls && calls[t].tx == p.tx && calls[t].pc.SwapBalance?
    requires Clean(env, past + [p]) && d' == d.(ledger := d'.ledger)
    ensures Whole(env, past + [p], d', calls[t := calls[t].(pc := CreditReceiver)])
  {
    assert CallShape(env, past, d.nodes, calls[t]);
    FreshHash(env, past, p);
    PresentIsKnown(env, past, calls, d.nodes);
    DebitCalls(env, past, p, d.nodes, calls, t);
    DebitShared(env, past, p, d, calls, t, calls[t].(pc := CreditReceiver));
    DebitParentsFirst(env, past, p, d.nodes, calls[t]);
  }

  lemma DebitParentsFirst(env: Env, past: seq<Past>, p: Past, nodes: Nodes, c: Call)
    requires ParentsFirst(env, past) && CallShape(env, past, nodes, c) && c.tx == p.tx && c.pc.SwapBalance?
    requires forall h :: h in nodes ==> Recorded(env, past, h)
    ensures ParentsFirst(env, past + [p])
  {
    ParentsFirstSnoc(env, past, p);
  }

  lemma DebitShared(env: Env, past: seq<Past>, p: Past, d: Dag, calls: Calls, t: Tid, c: Call)
    requires SharedShape(env, past, d, calls) && t in calls && c == calls[t].(pc := CreditReceiver) && c.tx == p.tx
    requires calls[t].pc.SwapBalance? && !Recorded(env, past, env.hash(p.tx))
    requires forall h :: h in d.nodes ==> Recorded(env, past, h)
    ensures SharedShape(env, past + [p], d, calls[t := c])
  {
    forall h | h in d.nodes {
      DebitNode(env, past, p, calls, h, d.nodes[h], t, c);
    }
    DebitTips(env, past, p, calls, d.tips, t, c);
    DebitMax(env, past, p, calls, d.maxDepth, t, c);
    CountDebtUpdate(calls, t, c);
  }

  /** Leaving the maximum loop, with or without raising the maximum. */
  lemma WholeMax(env: Env, past: seq<Past>, d: Dag, calls: Calls, t: Tid, d': Dag)
    requires Whole(env, past, d, calls) && t in calls && RaisingMax(calls[t].pc)
    requires d' == d.(maxDepth := Max(d.maxDepth, calls[t].depth))
    ensures Whole(env, past, d', calls[t := calls[t].(pc := AfterMax(calls[t].tx))])
  {
    var c := calls[t].(pc := AfterMax(calls[t].tx));
    MaxCall(env, past, d.nodes, calls, t, c);
    MaxShared(env, past, d, calls, t, c, d');
  }

  lemma MaxCall(env: Env, past: seq<Past>, nodes: Nodes, calls: Calls, t: Tid, c: Call)
    requires CallsShape(env, past, nodes, calls) && t in calls && c == calls[t].(pc := AfterMax(calls[t].tx))
    requires RaisingMax(calls[t].pc)
    ensures Recorded(env, past, env.hash(c.tx)) && DepthIn(env, past, env.hash(c.tx)) == c.depth
    ensures CallsShape(env, past, nodes, calls[t := c])
  {
    assert CallShape(env, past, nodes, calls[t]);
    InHistoryRecorded(env, past, c.tx);
    CallsKept(env, past, nodes, calls, t, c);
  }

  lemma MaxShared(env: Env, past: seq<Past>, d: Dag, calls: Calls, t: Tid, c: Call, d': Dag)
    requires SharedShape(env, past, d, calls) && t in calls && c == calls[t].(pc := AfterMax(c.tx))
    requires RaisingMax(calls[t].pc) && Recorded(env, past, env.hash(c.tx))
    requires DepthIn(env, past, env.hash(c.tx)) == c.depth
    requires d' == d.(maxDepth := d'.maxDepth) && d'.maxDepth == Max(d.maxDepth, c.depth)
    ensures SharedShape(env, past, d', calls[t := c])
  {
    MaxDebts(env, calls[t], c);
    NodesKept(env, past, calls, d.nodes, t, c);
    TipsKept(env, past, calls, d.tips, t, c);
    MaxDone(env, past, calls, d.maxDepth, t, c, d'.maxDepth);
    CountKept(past, calls, d.totalCount, t, c);
  }

  lemma MaxDebts(env: Env, c: Call, c': Call)
    requires RaisingMax(c.pc) && c' == c.(pc := AfterMax(c.tx))
    ensures forall h, x :: OwedChildren(env, c', h, x) == OwedChildren(env, c, h, x)
    ensures forall h :: OwedWeight(c', h) == OwedWeight(c, h) && (KeepsTip(c', h) <==> KeepsTip(c, h))
    ensures OwedCount(c') == OwedCount(c)
  {}

  /** One of the four steps that touch a parent. */
  lemma WholeParent(env: Env, past: seq<Past>, d: Dag, calls: Calls, t: Tid, c: Call, d': Dag)
    requires Whole(env, past, d, calls) && t in calls && c == calls[t].(pc := c.pc)
    requires Hanging(calls[t].pc) && Follows(c.pc, calls[t].pc)
    requires d' == d.(nodes := d'.nodes) && Hung(env, calls[t], d.nodes, d'.nodes)
    ensures Whole(env, past, d', calls[t := c])
  {
    assert CallShape(env, past, d.nodes, calls[t]);
    ParentStepNodes(env, past, calls, d.nodes, t, c, d'.nodes);
    ParentStepRest(env, past, d, calls, t, c);
    ParentStepCalls(env, past, d.nodes, calls, t, c, d'.nodes);
  }

  lemma ParentStepRest(env: Env, past: seq<Past>, d: Dag, calls: Calls, t: Tid, c: Call)
    requires SharedShape(env, past, d, calls) && t in calls && c == calls[t].(pc := c.pc)
    requires Hanging(calls[t].pc) && Follows(c.pc, calls[t].pc)
    ensures TipsShape(env, past, calls[t := c], d.tips) && MaxShape(env, past, calls[t := c], d.maxDepth)
    ensures CountShape(past, calls[t := c], d.totalCount)
  {
    TipsKept(env, past, calls, d.tips, t, c);
    MaxKept(env, past, calls, d.maxDepth, t, c);
    CountKept(past, calls, d.totalCount, t, c);
  }

  lemma ParentStepCalls(env: Env, past: seq<Past>, nodes: Nodes, calls: Calls, t: Tid, c: Call, nodes': Nodes)
    requires CallsShape(env, past, nodes, calls) && t in calls && c == calls[t].(pc := c.pc)
    requires nodes'.Keys == nodes.Keys
    requires Hanging(calls[t].pc) && Follows(c.pc, calls[t].pc)
    ensures CallsShape(env, past, nodes', calls[t := c])
  {
    assert CallShape(env, past, nodes, calls[t]);
    CallsKept(env, past, nodes, calls, t, c);
    SameKeysShape(env, past, nodes, nodes', calls[t := c]);
  }

  lemma SameKeysShape(env: Env, past: seq<Past>, nodes: Nodes, nodes': Nodes, calls: Calls)
    requires CallsShape(env, past, nodes, calls) && nodes'.Keys == nodes.Keys
    ensures CallsShape(env, past, nodes', calls)
  {
    forall t | t in calls
      ensures CallShape(env, past, nodes', calls[t])
    {
      assert CallShape(env, past, nodes, calls[t]);
    }
  }

  /** A call's own hash is a child of exactly its parents. */
  lemma OwnChild(env: Env, past: seq<Past>, tx: Transaction, h: TxHash)
    requires Clean(env, past) && InHistory(past, tx)
    ensures env.hash(tx) in ChildrenOf(env, past, h) <==> ParentOf(tx, h)
  {
    ChildIffParent(env, past, h, env.hash(tx));
    var i :| 0 <= i < |past| && past[i].tx == tx;
    assert forall j :: 0 <= j < |past| && env.hash(past[j].tx) == env.hash(tx) ==> j == i;
  }

  lemma WholeTip(env: Env, past: seq<Past>, d: Dag, calls: Calls, t: Tid, c: Call, d': Dag)
    requires Whole(env, past, d, calls) && Clean(env, past) && t in calls && c == calls[t].(pc := c.pc)
    requires MovingTips(calls[t].pc) && Follows(c.pc, calls[t].pc)
    requires d' == d.(tips := LinkTips(env, d.tips, calls[t]))
    ensures Whole(env, past, d', calls[t := c])
  {
    CallsKeptPlain(env, past, d.nodes, calls, t, c);
    TipStepRest(env, past, d, calls, t, c);
    TipStepTips(env, past, d.nodes, calls, d.tips, t, c, d'.tips);
  }

  lemma TipStepRest(env: Env, past: seq<Past>, d: Dag, calls: Calls, t: Tid, c: Call)
    requires SharedShape(env, past, d, calls) && t in calls && c == calls[t].(pc := c.pc)
    requires MovingTips(calls[t].pc) && Follows(c.pc, calls[t].pc)
    ensures NodesShape(env, past, calls[t := c], d.nodes) && MaxShape(env, past, calls[t := c], d.maxDepth)
    ensures CountShape(past, calls[t := c], d.totalCount)
  {
    TipDebts(env, calls[t], c);
    NodesKept(env, past, calls, d.nodes, t, c);
    MaxKept(env, past, calls, d.maxDepth, t, c);
    CountKept(past, calls, d.totalCount, t, c);
  }

  lemma TipStepTips(env: Env, past: seq<Past>, nodes: Nodes, calls: Calls, tips: set<TxHash>, t: Tid, c: Call,
                    tips': set<TxHash>)
    requires TipsShape(env, past, calls, tips) && CallsShape(env, past, nodes, calls) && Clean(env, past)
    requires t in calls && c == calls[t].(pc := c.pc)
    requires MovingTips(calls[t].pc) && Follows(c.pc, calls[t].pc)
    requires tips' == LinkTips(env, tips, calls[t])
    ensures TipsShape(env, past, calls[t := c], tips')
  {
    PhaseMembers(calls[t].pc);
    if calls[t].pc.AddTip? {
      TipAdded(env, past, nodes, calls, tips, t, c);
    } else {
      var parent := if calls[t].pc.DropTip1? then c.tx.parent1 else c.tx.parent2;
      assert tips' == tips - {parent};
      DropStep(env, past, nodes, calls, tips, t, c, parent);
    }
  }

  lemma DropStep(env: Env, past: seq<Past>, nodes: Nodes, calls: Calls, tips: set<TxHash>, t: Tid, c: Call,
                 parent: TxHash)
    requires TipsShape(env, past, calls, tips) && CallsShape(env, past, nodes, calls) && Clean(env, past)
    requires t in calls && c.tx == calls[t].tx && DroppingTips(calls[t].pc) && Follows(c.pc, calls[t].pc)
    requires parent == if calls[t].pc.DropTip1? then c.tx.parent1 else c.tx.parent2
    ensures TipsShape(env, past, calls[t := c], tips - {parent})
  {
    ChildOfOwnParents(env, past, nodes, calls, t);
    TipDropped(env, past, nodes, calls, tips, t, c, parent);
  }

  lemma CallsKeptPlain(env: Env, past: seq<Past>, nodes: Nodes, calls: Calls, t: Tid, c: Call)
    requires CallsShape(env, past, nodes, calls) && t in calls && c == calls[t].(pc := c.pc)
    requires MovingTips(calls[t].pc) && Follows(c.pc, calls[t].pc)
    ensures CallsShape(env, past, nodes, calls[t := c])
  {
    assert CallShape(env, past, nodes, calls[t]);
    CallsKept(env, past, nodes, calls, t, c);
  }

  lemma ChildOfOwnParents(env: Env, past: seq<Past>, nodes: Nodes, calls: Calls, t: Tid)
    requires CallsShape(env, past, nodes, calls) && Clean(env, past) && t in calls && NodePending(calls[t].pc)
    ensures forall h :: env.hash(calls[t].tx) in ChildrenOf(env, past, h) <==> ParentOf(calls[t].tx, h)
  {
    assert CallShape(env, past, nodes, calls[t]);
    forall h {
      OwnChild(env, past, calls[t].tx, h);
    }
  }

  lemma TipDebts(env: Env, c: Call, c': Call)
    requires MovingTips(c.pc) && c' == c.(pc := c'.pc) && Follows(c'.pc, c.pc)
    ensures forall h, x :: OwedChildren(env, c', h, x) == OwedChildren(env, c, h, x)
    ensures forall h :: OwedWeight(c', h) == OwedWeight(c, h)
    ensures OwedCount(c') == OwedCount(c)
  {}

  lemma WholePut(env: Env, past: seq<Past>, d: Dag, calls: Calls, t: Tid, c: Call, d': Dag)
    requires Whole(env, past, d, calls) && t in calls && calls[t].pc.PutNode? && c == calls[t].(pc := Count)
    requires d' == d.(nodes := d.nodes[env.hash(c.tx) := Node(c.tx, env.hash(c.tx), Pending, [], 1, c.depth)])
    ensures Whole(env, past, d', calls[t := c])
  {
    PutNodes(env, past, d.nodes, calls, t, c, d'.nodes[env.hash(c.tx)]);
    PutCalls(env, past, d.nodes, calls, t, c, d'.nodes[env.hash(c.tx)]);
    PutRest(env, past, d, calls, t, c);
  }

  lemma PutRest(env: Env, past: seq<Past>, d: Dag, calls: Calls, t: Tid, c: Call)
    requires SharedShape(env, past, d, calls) && t in calls && calls[t].pc.PutNode? && c == calls[t].(pc := Count)
    ensures TipsShape(env, past, calls[t := c], d.tips) && MaxShape(env, past, calls[t := c], d.maxDepth)
    ensures CountShape(past, calls[t := c], d.totalCount)
  {
    TipsKept(env, past, calls, d.tips, t, c);
    MaxKept(env, past, calls, d.maxDepth, t, c);
    CountKept(past, calls, d.totalCount, t, c);
  }

  lemma WholeCount(env: Env, past: seq<Past>, d: Dag, calls: Calls, t: Tid, c: Call, d': Dag)
    requires Whole(env, past, d, calls) && t in calls && calls[t].pc.Count?
    requires c == calls[t].(pc := Release, result := c.result)
    requires d' == d.(totalCount := d.totalCount + 1)
    ensures Whole(env, past, d', calls[t := c])
  {
    CountCall(env, past, d.nodes, calls, t, c);
    CountShared(env, past, d, calls, t, c, d');
  }

  lemma CountCall(env: Env, past: seq<Past>, nodes: Nodes, calls: Calls, t: Tid, c: Call)
    requires CallsShape(env, past, nodes, calls) && t in calls && c.tx == calls[t].tx && c.pc.Release?
    ensures CallsShape(env, past, nodes, calls[t := c])
  {
    assert CallShape(env, past, nodes, c);
    CallsKept(env, past, nodes, calls, t, c);
  }

  lemma CountShared(env: Env, past: seq<Past>, d: Dag, calls: Calls, t: Tid, c: Call, d': Dag)
    requires SharedShape(env, past, d, calls) && t in calls && calls[t].pc.Count?
    requires c == calls[t].(pc := Release, result := c.result)
    requires d' == d.(totalCount := d.totalCount + 1)
    ensures SharedShape(env, past, d', calls[t := c])
  {
    CountedDebts(env, calls[t], c);
    NodesKept(env, past, calls, d.nodes, t, c);
    TipsKept(env, past, calls, d.tips, t, c);
    MaxKept(env, past, calls, d.maxDepth, t, c);
    CountDebtUpdate(calls, t, c);
  }

  lemma CountedDebts(env: Env, c: Call, c': Call)
    requires c.pc.Count? && c' == c.(pc := Release, result := c'.result)
    ensures forall h, x :: OwedChildren(env, c', h, x) == OwedChildren(env, c, h, x)
    ensures forall h :: OwedWeight(c', h) == OwedWeight(c, h)
  {}

  // ---- What one tick does ------------------------------------------------------------------------

  /** A tick that leaves the history and the graph alone. */
  ghost predicate Calm(s: State, after: State) {
    && after.run.past == s.run.past
    && after.Dag() == s.Dag().(ledger := after.Dag().ledger, committed := after.Dag().committed)
  }

  /** Before its debit, and once refused or finished, a call has at most looked things up. */
  ghost predicate Looked(nodes: Nodes, c: Call) {
    && (Undebited(c.pc) || Done(c.pc))
    && (Parent1Found(c.pc) && !c.tx.IsGenesis() ==> c.tx.parent1 in nodes)
    && (Parent2Found(c.pc) && !c.tx.IsGenesis() ==> c.tx.parent2 in nodes)
    && (c.tx.IsGenesis() ==> !c.pc.FindParent1? && !c.pc.FindParent2?)
  }

  ghost predicate LookMove(s: State, after: State, c: Call, c': Call) {
    Calm(s, after) && c'.tx == c.tx && (Looked(s.Dag().nodes, c) ==> Looked(s.Dag().nodes, c'))
  }

  ghost predicate DebitMove(s: State, after: State, c: Call, c': Call) {
    && c.pc.SwapBalance? && c' == c.(pc := CreditReceiver)
    && after.run.past == s.run.past + [Past(c.tx, false)]
    && after.Dag() == s.Dag().(ledger := after.Dag().ledger)
  }

  ghost predicate PayMove(c: Call, c': Call) {
    && c' == c.(pc := c'.pc, depth := c'.depth)
    && if !c.pc.CommitNonce? then Follows(c'.pc, c.pc)
       else c'.pc == (if c.tx.IsGenesis() then LoadMax else ReadDepth1) && c'.depth == 0
  }

  ghost predicate ReadMove(nodes: Nodes, c: Call, c': Call) {
    c' == if c.pc.ReadDepth1? then c.(pc := ReadDepth2, depth := DepthOf(nodes, c.tx.parent1))
          else c.(pc := LoadMax, depth := Max(c.depth, DepthOf(nodes, c.tx.parent2)) + 1)
  }

  ghost predicate RaiseMove(s: State, after: State, c: Call, c': Call) {
    && c' == c.(pc := c'.pc) && after.run.past == s.run.past
    && if c'.pc == AfterMax(c.tx)
       then (c.pc.SwapMax? ==> c.pc.seenMax < c.depth) ==>
              after.Dag() == s.Dag().(maxDepth := Max(s.Dag().maxDepth, c.depth))
       else Calm(s, after) && RaisingMax(c'.pc) && (c'.pc.SwapMax? ==> c'.pc.seenMax < c'.depth)
  }

  ghost predicate HangMove(env: Env, s: State, after: State, c: Call, c': Call) {
    var nodes, nodes' := s.Dag().nodes, after.Dag().nodes;
    && c' == c.(pc := c'.pc) && Follows(c'.pc, c.pc)
    && after.run.past == s.run.past && after.Dag() == s.Dag().(nodes := nodes') && Hung(env, c, nodes, nodes')
  }

  ghost predicate TipMove(env: Env, s: State, after: State, c: Call, c': Call) {
    && c' == c.(pc := c'.pc) && Follows(c'.pc, c.pc) && after.run.past == s.run.past
    && after.Dag() == s.Dag().(tips := LinkTips(env, s.Dag().tips, c))
  }

  ghost predicate PutMove(env: Env, s: State, after: State, c: Call, c': Call) {
    var h := env.hash(c.tx);
    && c' == c.(pc := Count) && after.run.past == s.run.past
    && after.Dag() == s.Dag().(nodes := s.Dag().nodes[h := Node(c.tx, h, Pending, [], 1, c.depth)])
  }

  ghost predicate CountMove(s: State, after: State, c: Call, c': Call) {
    && c' == c.(pc := Release, result := c'.result) && after.run.past == s.run.past
    && after.Dag() == s.Dag().(totalCount := s.Dag().totalCount + 1)
  }

  ghost predicate Moves(env: Env, s: State, after: State, t: Tid)
    requires t in s.calls
  {
    var c := s.calls[t];
    && t in after.calls && after.calls == s.calls[t := after.calls[t]]
    && var c' := after.calls[t];
    && (Undebited(c.pc) || Done(c.pc) ==> DebitMove(s, after, c, c') || LookMove(s, after, c, c'))
    && (CommitPending(c.pc) ==> Calm(s, after) && PayMove(c, c'))
    && (ReadingDepths(c.pc) ==> Calm(s, after) && ReadMove(s.Dag().nodes, c, c'))
    && (RaisingMax(c.pc) ==> RaiseMove(s, after, c, c'))
    && (Hanging(c.pc) ==> HangMove(env, s, after, c, c'))
    && (MovingTips(c.pc) ==> TipMove(env, s, after, c, c'))
    && (c.pc.PutNode? ==> PutMove(env, s, after, c, c'))
    && (c.pc.Count? ==> CountMove(s, after, c, c'))
  }

  lemma CheckMoves(env: Env, s: State, t: Tid, supplyOk: bool)
    requires t in s.calls && Checking(s.calls[t].pc)
    ensures var after := CheckStep(env, s, t, supplyOk);
            && t in after.calls && after.calls == s.calls[t := after.calls[t]]
            && LookMove(s, after, s.calls[t], after.calls[t])
  {
    CheckFrame(env, s, t, supplyOk);
    var c, after := s.calls[t], CheckStep(env, s, t, supplyOk);
    assert Calm(s, after) && after.calls[t].tx == c.tx;
    if Parent2Found(c.pc) {
      assert Follows(after.calls[t].pc, c.pc) || after.calls[t].pc.Release?;
    } else if Holding(c.pc) {
      assert Looked(s.Dag().nodes, c) ==> Looked(s.Dag().nodes, after.calls[t]);
    }
  }

  lemma DebitMoves(env: Env, s: State, t: Tid)
    requires t in s.calls && Debiting(s.calls[t].pc)
    ensures Moves(env, s, PayStep(env, s, t), t)
  {}

  lemma PayMoves(env: Env, s: State, t: Tid)
    requires t in s.calls && CommitPending(s.calls[t].pc)
    ensures Moves(env, s, PayStep(env, s, t), t)
  {}

  lemma ReadMoves(env: Env, s: State, t: Tid)
    requires t in s.calls && (ReadingDepths(s.calls[t].pc) || RaisingMax(s.calls[t].pc))
    ensures Moves(env, s, LinkStep(env, s, t), t)
  {}

  lemma PushesOne(nodes: Nodes, parent: TxHash, x: TxHash)
    requires parent in nodes
    ensures AddChild(nodes, parent, x).Keys == nodes.Keys
    ensures forall h :: h in nodes ==>
              AddChild(nodes, parent, x)[h]
              == nodes[h].(children := nodes[h].children + if h == parent then [x] else [])
  {}

  lemma WeighsOne(nodes: Nodes, parent: TxHash)
    requires parent in nodes
    ensures PropagateWeight(nodes, parent).Keys == nodes.Keys
    ensures forall h :: h in nodes ==>
              PropagateWeight(nodes, parent)[h] == nodes[h].(weight := nodes[h].weight + if h == parent then 1 else 0)
  {}

  lemma HangFrame(env: Env, s: State, t: Tid)
    requires t in s.calls && Hanging(s.calls[t].pc)
    ensures var c, after := s.calls[t], LinkStep(env, s, t);
            && t in after.calls && after.calls == s.calls[t := after.calls[t]]
            && after.calls[t] == c.(pc := after.calls[t].pc) && Follows(after.calls[t].pc, c.pc)
            && after.run.past == s.run.past && after.Dag() == s.Dag().(nodes := after.Dag().nodes)
  {}

  ghost predicate Hung(env: Env, c: Call, nodes: Nodes, nodes': Nodes) {
    && nodes'.Keys == nodes.Keys
    && forall h :: h in nodes ==> nodes'[h] == nodes[h].(
         children := nodes[h].children + Pushed(env, c, h), weight := nodes[h].weight + Weighed(c, h))
  }

  lemma HangNodes(env: Env, c: Call, nodes: Nodes)
    requires Hanging(c.pc) && c.tx.parent1 in nodes && c.tx.parent2 in nodes
    ensures Hung(env, c, nodes, LinkNodes(env, nodes, c))
  {
    PhaseMembers(c.pc);
    if c.pc.Child1? || c.pc.Child2? {
      HangChild(env, c, nodes, if c.pc.Child1? then c.tx.parent1 else c.tx.parent2);
    } else {
      HangWeight(env, c, nodes, if c.pc.Weight1? then c.tx.parent1 else c.tx.parent2);
    }
  }

  lemma HangChild(env: Env, c: Call, nodes: Nodes, parent: TxHash)
    requires (c.pc.Child1? && parent == c.tx.parent1) || (c.pc.Child2? && parent == c.tx.parent2)
    requires parent in nodes
    ensures Hung(env, c, nodes, AddChild(nodes, parent, env.hash(c.tx)))
  {
    PushesOne(nodes, parent, env.hash(c.tx));
  }

  lemma HangWeight(env: Env, c: Call, nodes: Nodes, parent: TxHash)
    requires (c.pc.Weight1? && parent == c.tx.parent1) || (c.pc.Weight2? && parent == c.tx.parent2)
    requires parent in nodes
    ensures Hung(env, c, nodes, PropagateWeight(nodes, parent))
  {
    WeighsOne(nodes, parent);
  }

  lemma HangMoves(env: Env, s: State, after: State, t: Tid)
    requires t in s.calls && Hanging(s.calls[t].pc) && after == LinkStep(env, s, t)
    requires s.calls[t].tx.parent1 in s.Dag().nodes && s.calls[t].tx.parent2 in s.Dag().nodes
    ensures t in after.calls && after.calls == s.calls[t := after.calls[t]]
    ensures HangMove(env, s, after, s.calls[t], after.calls[t])
  {
    HangFrame(env, s, t);
    HangNodes(env, s.calls[t], s.Dag().nodes);
  }

  lemma LastMoves(env: Env, s: State, t: Tid)
    requires t in s.calls && (MovingTips(s.calls[t].pc) || s.calls[t].pc in {PutNode, Count} || Done(s.calls[t].pc))
    ensures Moves(env, s, LinkStep(env, s, t), t)
  {
    assert s.calls == s.calls[t := s.calls[t]];
  }

  // ---- Every tick keeps the shape ----------------------------------------------------------------

  lemma LookShape(env: Env, s: State, after: State, t: Tid, c: Call)
    requires Shape(env, s) && t in s.calls && after.calls == s.calls[t := c] && LookMove(s, after, s.calls[t], c)
    requires Undebited(s.calls[t].pc) || Done(s.calls[t].pc)
    ensures Shape(env, after)
  {
    LookCall(env, s.run.past, s.Dag().nodes, s.calls, t, c);
    WholeQuiet(env, s.run.past, s.Dag(), s.calls, t, c, after.Dag());
  }

  lemma LookCall(env: Env, past: seq<Past>, nodes: Nodes, calls: Calls, t: Tid, c: Call)
    requires CallsShape(env, past, nodes, calls) && t in calls && c.tx == calls[t].tx
    requires Looked(nodes, calls[t]) ==> Looked(nodes, c)
    requires Undebited(calls[t].pc) || Done(calls[t].pc)
    ensures CallShape(env, past, nodes, c) && SamePhase(calls[t], c)
  {
    assert CallShape(env, past, nodes, calls[t]);
  }

  lemma GenesisDepth(env: Env, past: seq<Past>, tx: Transaction)
    requires ParentsFirst(env, past) && Clean(env, past) && InHistory(past, tx) && tx.IsGenesis()
    ensures DepthIn(env, past, env.hash(tx)) == 0
  {
    var i :| 0 <= i < |past| && past[i].tx == tx;
    DepthStep(env, past, i);
  }

  lemma PaidCall(env: Env, past: seq<Past>, nodes: Nodes, before: Call, c: Call)
    requires CallShape(env, past, nodes, before) && CommitPending(before.pc) && PayMove(before, c)
    requires c.tx.IsGenesis() ==> DepthIn(env, past, env.hash(c.tx)) == 0
    ensures CallShape(env, past, nodes, c) && SamePhase(before, c)
  {}

  /** Reading the depths of both parents gives the transaction its depth in the history. */
  lemma ReadCall(env: Env, past: seq<Past>, nodes: Nodes, before: Call, c: Call)
    requires ParentsFirst(env, past) && Clean(env, past) && CallShape(env, past, nodes, before)
    requires forall h :: h in nodes ==> DepthOf(nodes, h) == DepthIn(env, past, h)
    requires ReadingDepths(before.pc) && ReadMove(nodes, before, c)
    ensures CallShape(env, past, nodes, c) && SamePhase(before, c)
  {
    PhaseMembers(before.pc);
    if before.pc.ReadDepth1? {
      ReadFirst(env, past, nodes, before, c);
    } else {
      ReadSecond(env, past, nodes, before, c);
    }
  }

  lemma ReadSecond(env: Env, past: seq<Past>, nodes: Nodes, before: Call, c: Call)
    requires ParentsFirst(env, past) && Clean(env, past) && CallShape(env, past, nodes, before)
    requires forall h :: h in nodes ==> DepthOf(nodes, h) == DepthIn(env, past, h)
    requires before.pc.ReadDepth2? && ReadMove(nodes, before, c)
    ensures CallShape(env, past, nodes, c) && SamePhase(before, c)
  {
    DepthInHistory(env, past, c.tx);
    ReadLast(env, past, nodes, before, c);
  }

  lemma ReadFirst(env: Env, past: seq<Past>, nodes: Nodes, before: Call, c: Call)
    requires CallShape(env, past, nodes, before) && before.pc.ReadDepth1?
    requires c == before.(pc := ReadDepth2, depth := DepthIn(env, past, c.tx.parent1))
    ensures CallShape(env, past, nodes, c) && SamePhase(before, c)
  {}

  lemma ReadLast(env: Env, past: seq<Past>, nodes: Nodes, before: Call, c: Call)
    requires CallShape(env, past, nodes, before) && before.pc.ReadDepth2?
    requires c == before.(pc := LoadMax, depth := DepthIn(env, past, env.hash(c.tx)))
    ensures CallShape(env, past, nodes, c) && SamePhase(before, c)
  {}

  lemma ReadsRecorded(env: Env, past: seq<Past>, calls: Calls, nodes: Nodes)
    requires NodesShape(env, past, calls, nodes)
    ensures forall h :: h in nodes ==> DepthOf(nodes, h) == DepthIn(env, past, h)
  {
    assert forall h :: h in nodes ==> NodeShape(env, past, calls, h, nodes[h]);
  }

  lemma DepthInHistory(env: Env, past: seq<Past>, tx: Transaction)
    requires ParentsFirst(env, past) && Clean(env, past) && InHistory(past, tx) && !tx.IsGenesis()
    ensures DepthIn(env, past, env.hash(tx)) == Max(DepthIn(env, past, tx.parent1), DepthIn(env, past, tx.parent2)) + 1
  {
    var i :| 0 <= i < |past| && past[i].tx == tx;
    DepthStep(env, past, i);
  }

  lemma RaiseShape(env: Env, s: State, after: State, t: Tid, c: Call)
    requires Shape(env, s) && t in s.calls && after.calls == s.calls[t := c] && RaiseMove(s, after, s.calls[t], c)
    requires RaisingMax(s.calls[t].pc)
    ensures Shape(env, after)
  {
    assert CallShape(env, s.run.past, s.Dag().nodes, s.calls[t]);
    if c.pc == AfterMax(c.tx) {
      WholeMax(env, s.run.past, s.Dag(), s.calls, t, after.Dag());
    } else {
      RaiseCall(env, s.run.past, s.Dag().nodes, s.calls[t], c);
      WholeQuiet(env, s.run.past, s.Dag(), s.calls, t, c, after.Dag());
    }
  }

  lemma RaiseCall(env: Env, past: seq<Past>, nodes: Nodes, c: Call, c': Call)
    requires CallShape(env, past, nodes, c) && c' == c.(pc := c'.pc)
    requires RaisingMax(c.pc) && RaisingMax(c'.pc) && (c'.pc.SwapMax? ==> c'.pc.seenMax < c'.depth)
    ensures CallShape(env, past, nodes, c') && SamePhase(c, c')
  {}

  lemma EarlyShape(env: Env, s: State, after: State, t: Tid)
    requires Shape(env, s) && Clean(env, after.run.past) && t in s.calls && Moves(env, s, after, t)
    requires Undebited(s.calls[t].pc) || Done(s.calls[t].pc)
    ensures Shape(env, after)
  {
    if LookMove(s, after, s.calls[t], after.calls[t]) {
      LookShape(env, s, after, t, after.calls[t]);
    } else {
      WholeDebit(env, s.run.past, s.Dag(), s.calls, t, Past(s.calls[t].tx, false), after.Dag());
    }
  }

  lemma MiddleShape(env: Env, past: seq<Past>, d: Dag, calls: Calls, t: Tid, c: Call, d': Dag)
    requires Whole(env, past, d, calls) && Clean(env, past) && t in calls
    requires CommitPending(calls[t].pc) || ReadingDepths(calls[t].pc)
    requires d' == d.(ledger := d'.ledger, committed := d'.committed)
    requires if CommitPending(calls[t].pc) then PayMove(calls[t], c) else ReadMove(d.nodes, calls[t], c)
    ensures Whole(env, past, d', calls[t := c])
  {
    if CommitPending(calls[t].pc) {
      if c.tx.IsGenesis() {
        GenesisDepth(env, past, c.tx);
      }
      PaidCall(env, past, d.nodes, calls[t], c);
    } else {
      ReadsRecorded(env, past, calls, d.nodes);
      ReadCall(env, past, d.nodes, calls[t], c);
    }
    WholeQuiet(env, past, d, calls, t, c, d');
  }

  lemma CalmShape(env: Env, s: State, after: State, t: Tid, c: Call)
    requires Shape(env, s) && Clean(env, s.run.past) && t in s.calls && after.calls == s.calls[t := c]
    requires Calm(s, after) && (CommitPending(s.calls[t].pc) || ReadingDepths(s.calls[t].pc))
    requires if CommitPending(s.calls[t].pc) then PayMove(s.calls[t], c) else ReadMove(s.Dag().nodes, s.calls[t], c)
    ensures Shape(env, after)
  {
    MiddleShape(env, s.run.past, s.Dag(), s.calls, t, c, after.Dag());
  }

  lemma HangShape(env: Env, s: State, after: State, t: Tid, c: Call)
    requires Shape(env, s) && t in s.calls && after.calls == s.calls[t := c]
    requires Hanging(s.calls[t].pc) && HangMove(env, s, after, s.calls[t], c)
    ensures Shape(env, after)
  {
    WholeParent(env, s.run.past, s.Dag(), s.calls, t, c, after.Dag());
  }

  lemma LaterShape(env: Env, s: State, after: State, t: Tid)
    requires Shape(env, s) && t in s.calls && Moves(env, s, after, t)
    requires RaisingMax(s.calls[t].pc) || Hanging(s.calls[t].pc)
    ensures Shape(env, after)
  {
    if RaisingMax(s.calls[t].pc) {
      RaiseShape(env, s, after, t, after.calls[t]);
    } else {
      HangShape(env, s, after, t, after.calls[t]);
    }
  }

  lemma LateShape(env: Env, s: State, after: State, t: Tid)
    requires Shape(env, s) && Clean(env, s.run.past) && t in s.calls && Moves(env, s, after, t)
    requires MovingTips(s.calls[t].pc) || s.calls[t].pc.PutNode? || s.calls[t].pc.Count?
    ensures Shape(env, after)
  {
    if MovingTips(s.calls[t].pc) {
      TipsChange(env, s, after, t, after.calls[t]);
    } else {
      LastShape(env, s, after, t);
    }
  }

  lemma LastShape(env: Env, s: State, after: State, t: Tid)
    requires Shape(env, s) && t in s.calls && Moves(env, s, after, t)
    requires s.calls[t].pc.PutNode? || s.calls[t].pc.Count?
    ensures Shape(env, after)
  {
    if s.calls[t].pc.PutNode? {
      PutChange(env, s, after, t, after.calls[t]);
    } else {
      CountChange(env, s, after, t, after.calls[t]);
    }
  }

  /** Whatever a tick of call `t` did, the shape survives it. */
  lemma MoveShape(env: Env, s: State, after: State, t: Tid)
    requires Shape(env, s) && Clean(env, s.run.past) && Clean(env, after.run.past)
    requires t in s.calls && Moves(env, s, after, t)
    ensures Shape(env, after)
  {
    var pc := s.calls[t].pc;
    PhaseMembers(pc);
    if Undebited(pc) || Done(pc) {
      EarlyShape(env, s, after, t);
    } else if CommitPending(pc) || ReadingDepths(pc) {
      CalmShape(env, s, after, t, after.calls[t]);
    } else if RaisingMax(pc) || Hanging(pc) {
      LaterShape(env, s, after, t);
    } else {
      LateShape(env, s, after, t);
    }
  }

  lemma TipsChange(env: Env, s: State, after: State, t: Tid, c: Call)
    requires Shape(env, s) && Clean(env, s.run.past) && t in s.calls && after.calls == s.calls[t := c]
    requires MovingTips(s.calls[t].pc) && TipMove(env, s, after, s.calls[t], c)
    ensures Shape(env, after)
  {
    WholeTip(env, s.run.past, s.Dag(), s.calls, t, c, after.Dag());
  }

  lemma PutChange(env: Env, s: State, after: State, t: Tid, c: Call)
    requires Shape(env, s) && t in s.calls && after.calls == s.calls[t := c]
    requires s.calls[t].pc.PutNode? && PutMove(env, s, after, s.calls[t], c)
    ensures Shape(env, after)
  {
    WholePut(env, s.run.past, s.Dag(), s.calls, t, c, after.Dag());
  }

  lemma CountChange(env: Env, s: State, after: State, t: Tid, c: Call)
    requires Shape(env, s) && t in s.calls && after.calls == s.calls[t := c]
    requires s.calls[t].pc.Count? && CountMove(s, after, s.calls[t], c)
    ensures Shape(env, after)
  {
    WholeCount(env, s.run.past, s.Dag(), s.calls, t, c, after.Dag());
  }

  lemma TickMoves(env: Env, s: State, t: Tid, supplyOk: bool)
    requires t in s.calls && CallShape(env, s.run.past, s.Dag().nodes, s.calls[t])
    ensures Moves(env, s, Next(env, s, Tick(t, supplyOk)), t)
  {
    var pc := s.calls[t].pc;
    if Checking(pc) {
      CheckMoves(env, s, t, supplyOk);
    } else if Debiting(pc) {
      DebitMoves(env, s, t);
    } else if Paying(pc) {
      PayMoves(env, s, t);
    } else if ReadingDepths(pc) || RaisingMax(pc) {
      ReadMoves(env, s, t);
    } else if Hanging(pc) {
      HangMoves(env, s, LinkStep(env, s, t), t);
    } else {
      LastMoves(env, s, t);
    }
  }

  lemma TickShape(env: Env, s: State, t: Tid, after: State, supplyOk: bool)
    requires Shape(env, s) && t in s.calls && after == Next(env, s, Tick(t, supplyOk))
    requires Clean(env, s.run.past) && Clean(env, after.run.past)
    ensures Shape(env, after)
  {
    assert CallShape(env, s.run.past, s.Dag().nodes, s.calls[t]);
    TickMoves(env, s, t, supplyOk);
    MoveShape(env, s, after, t);
  }

  // ---- Every interleaving ------------------------------------------------------------------------

  lemma BeginShape(env: Env, s: State, t: Tid, tx: Transaction)
    requires Shape(env, s) && t !in s.calls
    ensures Shape(env, Next(env, s, Begin(t, tx)))
  {
    NewCall(env, s.run.past, s.Dag(), s.calls, t, Next(env, s, Begin(t, tx)).calls[t]);
  }

  /** A call that has done nothing owes nothing. */
  lemma NewCall(env: Env, past: seq<Past>, d: Dag, calls: Calls, t: Tid, c: Call)
    requires Whole(env, past, d, calls) && t !in calls && c.pc.PreCheck?
    ensures Whole(env, past, d, calls[t := c])
  {
    CallsReplaced(env, past, d.nodes, calls, t, c);
    forall h | h in d.nodes {
      NewCallNode(env, past, calls, t, c, h, d.nodes[h]);
    }
    NewCallTips(env, past, calls, t, c, d.tips);
    NewCallMax(env, past, calls, t, c, d.maxDepth);
    CountDebtUpdate(calls, t, c);
  }

  lemma NewCallNode(env: Env, past: seq<Past>, calls: Calls, t: Tid, c: Call, h: TxHash, n: Node)
    requires NodeShape(env, past, calls, h, n) && t !in calls && c.pc.PreCheck?
    ensures NodeShape(env, past, calls[t := c], h, n)
  {
    WeightDebtUpdate(calls, t, c, h);
    NewCallChildren(env, past, calls, t, c, h, n.children);
  }

  lemma NewCallChildren(env: Env, past: seq<Past>, calls: Calls, t: Tid, c: Call, h: TxHash, children: seq<TxHash>)
    requires ChildrenShape(env, past, calls, h, children) && t !in calls && c.pc.PreCheck?
    ensures ChildrenShape(env, past, calls[t := c], h, children)
  {
    forall x
      ensures Sum(ChildDebts(env, calls[t := c], h, x)) == Sum(ChildDebts(env, calls, h, x))
    {
      ChildDebtUpdate(env, calls, t, c, h, x);
    }
  }

  lemma NewCallTips(env: Env, past: seq<Past>, calls: Calls, t: Tid, c: Call, tips: set<TxHash>)
    requires TipsShape(env, past, calls, tips) && t !in calls && c.pc.PreCheck?
    ensures TipsShape(env, past, calls[t := c], tips)
  {
    var after := calls[t := c];
    forall h, x
      ensures StillHeld(env, after, h, x) <==> StillHeld(env, calls, h, x)
    {
      assert forall u :: u in calls ==> after[u] == calls[u];
    }
    forall h
      ensures Unadded(env, after, h) <==> Unadded(env, calls, h)
    {
      assert forall u :: u in calls ==> after[u] == calls[u];
    }
  }

  lemma NewCallMax(env: Env, past: seq<Past>, calls: Calls, t: Tid, c: Call, m: nat)
    requires MaxShape(env, past, calls, m) && t !in calls && c.pc.PreCheck?
    ensures MaxShape(env, past, calls[t := c], m)
  {
    var after := calls[t := c];
    forall h
      ensures Unmaxed(env, after, h) <==> Unmaxed(env, calls, h)
    {
      assert forall u :: u in calls ==> after[u] == calls[u];
    }
  }

  lemma StartShape(env: Env, ops: seq<Op>)
    requires Clean(env, Execute(env, ops).past)
    ensures Shape(env, State(Execute(env, ops), map[], map[]))
  {
    var r := Execute(env, ops);
    RunStructured(env, ops);
    StartWhole(env, r.past, r.dag);
  }

  lemma StartWhole(env: Env, past: seq<Past>, d: Dag)
    requires ParentsFirst(env, past) && NodesAgree(env, past, d.nodes) && TipsAgree(env, past, d.tips)
    requires d.totalCount == |past| && Deepest(Depths(env, past), d.maxDepth)
    ensures Whole(env, past, d, map[])
  {
    forall h | h in d.nodes {
      StartNode(env, past, h, d.nodes[h]);
    }
    StartTips(env, past, d.tips);
    StartMax(env, past, d.maxDepth);
    assert CountDebts(map[]) == map[];
  }

  lemma StartNode(env: Env, past: seq<Past>, h: TxHash, n: Node)
    requires NodeAgrees(env, past, h, n)
    ensures NodeShape(env, past, map[], h, n)
  {
    assert WeightDebts(map[], h) == map[];
    forall x
      ensures Sum(ChildDebts(env, map[], h, x)) == 0
    {
      assert ChildDebts(env, map[], h, x) == map[];
    }
  }

  lemma StartTips(env: Env, past: seq<Past>, tips: set<TxHash>)
    requires TipsAgree(env, past, tips)
    ensures TipsShape(env, past, map[], tips)
  {
    forall h {
      FirstChild(env, past, h);
    }
  }

  lemma FirstChild(env: Env, past: seq<Past>, h: TxHash)
    ensures ChildrenOf(env, past, h) == [] <==> forall x :: x !in ChildrenOf(env, past, h)
  {
    var children := ChildrenOf(env, past, h);
    assert children != [] ==> children[0] in children;
  }

  lemma StartMax(env: Env, past: seq<Past>, m: nat)
    requires Deepest(Depths(env, past), m)
    ensures MaxShape(env, past, map[], m)
  {
    forall h {
      RecordedHasDepth(env, past, h);
    }
  }

  lemma NextGrowsHistory(env: Env, s: State, e: Event)
    ensures s.run.past == Next(env, s, e).run.past
         || exists p :: Next(env, s, e).run.past == s.run.past + [p]
  {
    if e.Tick? && e.t in s.calls {
      TickFrame(env, s, e.t, e.supplyOk);
    }
  }

  lemma CleanBefore(env: Env, s: State, e: Event)
    requires Clean(env, Next(env, s, e).run.past)
    ensures Clean(env, s.run.past)
  {
    NextGrowsHistory(env, s, e);
    if s.run.past != Next(env, s, e).run.past {
      var p :| Next(env, s, e).run.past == s.run.past + [p];
      FreshHash(env, s.run.past, p);
    }
  }

  /** Between any two steps of any interleaving, the graph differs from what the history calls for by
      exactly what the calls in flight have yet to do. */
  lemma InterleaveKeepsShape(env: Env, ops: seq<Op>, events: seq<Event>)
    requires Clean(env, Interleave(env, ops, events).run.past)
    ensures Shape(env, Interleave(env, ops, events))
    ensures Present(env, Interleave(env, ops, events), Execute(env, ops))
  {
    InterleaveShape(env, ops, events);
    NoNodeLost(env, ops, events);
  }

  lemma {:induction false} InterleaveShape(env: Env, ops: seq<Op>, events: seq<Event>)
    requires Clean(env, Interleave(env, ops, events).run.past)
    ensures Shape(env, Interleave(env, ops, events))
  {
    if events == [] {
      StartShape(env, ops);
    } else {
      var s, e := Interleave(env, ops, events[..|events| - 1]), events[|events| - 1];
      CleanBefore(env, s, e);
      InterleaveShape(env, ops, events[..|events| - 1]);
      NextKeepsShape(env, s, e, Next(env, s, e));
    }
  }

  lemma NextKeepsShape(env: Env, s: State, e: Event, after: State)
    requires Shape(env, s) && after == Next(env, s, e) && Clean(env, s.run.past) && Clean(env, after.run.past)
    ensures Shape(env, after)
  {
    if e.Tick? && e.t in s.calls {
      TickShape(env, s, e.t, after, e.supplyOk);
    } else if e.Begin? && e.t !in s.calls {
      BeginShape(env, s, e.t, e.tx);
    }
  }

  // ---- Operations on tips ------------------------------------------------------------------------

  /** The tip that a call is about to add or remove. */
  ghost function TipAtHand(env: Env, c: Call): TxHash {
    if c.pc.DropTip1? then c.tx.parent1 else if c.pc.DropTip2? then c.tx.parent2 else env.hash(c.tx)
  }

  /** While a call adds a tip, no other call adds or removes the same one: the hash is new, and nobody can
      name it as a parent before its node is there. */
  lemma TipOperationsApart(env: Env, ops: seq<Op>, events: seq<Event>, t: Tid, u: Tid)
    requires Clean(env, Interleave(env, ops, events).run.past)
    requires var calls := Interleave(env, ops, events).calls;
             t != u && t in calls && u in calls && calls[t].pc.AddTip? && MovingTips(calls[u].pc)
    ensures var calls := Interleave(env, ops, events).calls; TipAtHand(env, calls[u]) != TipAtHand(env, calls[t])
  {
    InterleaveShape(env, ops, events);
    var s := Interleave(env, ops, events);
    AddedApart(env, s.run.past, s.Dag().nodes, s.calls, t, u);
  }

  lemma AddedApart(env: Env, past: seq<Past>, nodes: Nodes, calls: Calls, t: Tid, u: Tid)
    requires CallsShape(env, past, nodes, calls) && Clean(env, past) && t != u && t in calls && u in calls
    requires calls[t].pc.AddTip? && MovingTips(calls[u].pc)
    ensures TipAtHand(env, calls[u]) != TipAtHand(env, calls[t])
  {
    assert CallShape(env, past, nodes, calls[t]) && CallShape(env, past, nodes, calls[u]);
    PhaseMembers(calls[u].pc);
    InHistoryRecorded(env, past, calls[t].tx);
    NoZeroRecorded(env, past);
  }

  // ---- All calls returned ------------------------------------------------------------------------

  /** As after a sequential run, but for the order of siblings. */
  ghost predicate AgreesUpToOrder(env: Env, past: seq<Past>, d: Dag) {
    && (forall h :: h in d.nodes ==> NodeUpToOrder(env, past, h, d.nodes[h]))
    && TipsAgree(env, past, d.tips)
    && d.totalCount == |past|
    && Deepest(Depths(env, past), d.maxDepth)
  }

  ghost predicate NodeUpToOrder(env: Env, past: seq<Past>, h: TxHash, n: Node) {
    && n.hash == h == env.hash(n.tx) && InHistory(past, n.tx)
    && multiset(n.children) == multiset(ChildrenOf(env, past, h))
    && n.weight == 1 + |n.children|
    && n.depth == DepthIn(env, past, h)
  }

  /** Whatever the interleaving, once every call has returned: the nodes are those of the start and of
      every transaction that joined since, each with its transaction; and child lists up to order,
      weights, depths, tips, the count and the maximum are those the history calls for. Nothing that any
      call did was lost or done twice. */
  lemma AllReturnedAgrees(env: Env, ops: seq<Op>, events: seq<Event>)
    requires Clean(env, Interleave(env, ops, events).run.past)
    requires AllReturned(Interleave(env, ops, events).calls)
    ensures var start, s := Execute(env, ops), Interleave(env, ops, events);
            && AgreesUpToOrder(env, s.run.past, s.Dag())
            && (forall h :: h in s.Dag().nodes <==> h in start.dag.nodes || NewHash(env, s.run.past, |start.past|, h))
            && NodesHoldTheirs(env, s.run.past, |start.past|, s.Dag().nodes)
  {
    InterleaveShape(env, ops, events);
    var start, s := Execute(env, ops), Interleave(env, ops, events);
    SettledAgrees(env, s.run.past, s.Dag(), s.calls);
    forall h {
      ReturnedNodes(env, ops, events, h);
    }
    NodesAreTheirs(env, s.run.past, |start.past|, s.Dag());
  }

  /** Each history entry from `n` on has a node, and the node is its own. */
  ghost predicate NodesHoldTheirs(env: Env, past: seq<Past>, n: nat, nodes: Nodes) {
    forall i :: n <= i < |past| ==> env.hash(past[i].tx) in nodes && nodes[env.hash(past[i].tx)].tx == past[i].tx
  }

  lemma NodesAreTheirs(env: Env, past: seq<Past>, n: nat, d: Dag)
    requires Clean(env, past) && AgreesUpToOrder(env, past, d)
    requires forall h :: NewHash(env, past, n, h) ==> h in d.nodes
    ensures NodesHoldTheirs(env, past, n, d.nodes)
  {
    forall i | n <= i < |past|
      ensures env.hash(past[i].tx) in d.nodes && d.nodes[env.hash(past[i].tx)].tx == past[i].tx
    {
      var h := env.hash(past[i].tx);
      assert NewHash(env, past, n, h);
      assert NodeUpToOrder(env, past, h, d.nodes[h]);
      SameHashSameEntry(env, past, i, d.nodes[h].tx);
    }
  }

  lemma SameHashSameEntry(env: Env, past: seq<Past>, i: nat, tx: Transaction)
    requires Clean(env, past) && i < |past| && InHistory(past, tx) && env.hash(tx) == env.hash(past[i].tx)
    ensures tx == past[i].tx
  {
    var j :| 0 <= j < |past| && past[j].tx == tx;
  }

  lemma SettledAgrees(env: Env, past: seq<Past>, d: Dag, calls: Calls)
    requires SharedShape(env, past, d, calls) && AllReturned(calls)
    ensures AgreesUpToOrder(env, past, d)
  {
    forall h | h in d.nodes
      ensures NodeUpToOrder(env, past, h, d.nodes[h])
    {
      SettledNode(env, past, calls, h, d.nodes[h]);
    }
    SettledTips(env, past, calls, d.tips);
    SettledMax(env, past, calls, d.maxDepth);
    SettledCount(past, calls, d.totalCount);
  }

  lemma SettledCount(past: seq<Past>, calls: Calls, count: nat)
    requires CountShape(past, calls, count) && AllReturned(calls)
    ensures count == |past|
  {
    SumOfZeros(CountDebts(calls));
  }

  lemma SettledNode(env: Env, past: seq<Past>, calls: Calls, h: TxHash, n: Node)
    requires NodeShape(env, past, calls, h, n) && AllReturned(calls)
    ensures NodeUpToOrder(env, past, h, n)
  {
    ReturnedOwesNothing(env, calls, h, h);
    SettledChildren(env, past, calls, h, n.children);
  }

  lemma SettledChildren(env: Env, past: seq<Past>, calls: Calls, h: TxHash, children: seq<TxHash>)
    requires ChildrenShape(env, past, calls, h, children) && AllReturned(calls)
    ensures multiset(children) == multiset(ChildrenOf(env, past, h))
  {
    forall x
      ensures multiset(children)[x] == multiset(ChildrenOf(env, past, h))[x]
    {
      ReturnedOwesNothing(env, calls, h, x);
    }
  }

  lemma ReturnedOwesNothing(env: Env, calls: Calls, h: TxHash, x: TxHash)
    requires AllReturned(calls)
    ensures Sum(ChildDebts(env, calls, h, x)) == 0 == Sum(WeightDebts(calls, h))
  {
    forall t | t in calls {
      ReturnedOwes(env, calls[t], h, x);
    }
    SumOfZeros(ChildDebts(env, calls, h, x));
    SumOfZeros(WeightDebts(calls, h));
  }

  lemma ReturnedOwes(env: Env, c: Call, h: TxHash, x: TxHash)
    requires c.pc.Returned?
    ensures OwedChildren(env, c, h, x) == 0 == OwedWeight(c, h)
  {}

  lemma SettledTips(env: Env, past: seq<Past>, calls: Calls, tips: set<TxHash>)
    requires TipsShape(env, past, calls, tips) && AllReturned(calls)
    ensures TipsAgree(env, past, tips)
  {
    forall h
      ensures h in tips <==> Recorded(env, past, h) && ChildrenOf(env, past, h) == []
    {
      ReturnedKeepNothing(env, calls, h);
      FirstChild(env, past, h);
    }
  }

  lemma ReturnedKeepNothing(env: Env, calls: Calls, h: TxHash)
    requires AllReturned(calls)
    ensures !Unadded(env, calls, h) && forall x :: !StillHeld(env, calls, h, x)
  {}

  lemma SettledMax(env: Env, past: seq<Past>, calls: Calls, m: nat)
    requires MaxShape(env, past, calls, m) && AllReturned(calls)
    ensures Deepest(Depths(env, past), m)
  {
    forall h
      ensures h in Depths(env, past) <==> Recorded(env, past, h)
      ensures !Unmaxed(env, calls, h)
    {
      RecordedHasDepth(env, past, h);
    }
  }

  /** And the ledger is settled too: every lock is free, each sender's index holds exactly the nonces
      up to its counter, and nothing is in flight. */
  lemma AllReturnedSettles(env: Env, ops: seq<Op>, events: seq<Event>, a: Address)
    requires Execute(env, ops).minted < TWO64 && AllReturned(Interleave(env, ops, events).calls)
    ensures var s := Interleave(env, ops, events);
            && s.locks == map[] && Indexed(env, s.run, a)
            && s.Dag().ledger.Circulating() + s.run.burned == Execute(env, ops).minted
  {
    var s := Interleave(env, ops, events);
    InterleaveKeepsInv(env, ops, events);
    ValueConserved(env, ops, events);
    SumOfZeros(InFlight(s.calls));
    NoLockLeft(s);
    SettledIndex(env, s, a);
  }

  lemma NoLockLeft(s: State)
    requires LocksOk(s) && AllReturned(s.calls)
    ensures s.locks == map[]
  {
    if a :| a in s.locks {
      assert false;
    }
  }

  lemma SettledIndex(env: Env, s: State, a: Address)
    requires IndexedSoFar(env, s, a) && s.locks == map[]
    ensures Indexed(env, s.run, a)
  {
    assert HolderAt(s, a) == Returned;
  }

  // ---- When the history of an interleaving is clean ----------------------------------------------

  /** The locks and nonces rule out everything else: the history of an interleaving fails to be clean
      only by a genesis transaction that was there already, a collision of the hash, or a zero hash. One
      transaction submitted twice is not such a case. */
  lemma InterleaveCleanIff(env: Env, ops: seq<Op>, events: seq<Event>)
    requires Execute(env, ops).minted < TWO64
    ensures var past := Interleave(env, ops, events).run.past;
            Clean(env, past) <==> NonZero(env, past) && GenesisOnce(past) && HashSeparates(env, past)
  {
    NoncesConsumedOnce(env, ops, events);
    RisingSentOnce(Interleave(env, ops, events).run.past);
    CleanParts(env, Interleave(env, ops, events).run.past);
  }

  lemma RisingSentOnce(past: seq<Past>)
    requires NoncesRise(past)
    ensures SentOnce(past)
  {
    forall i, j | 0 <= i < j < |past| && !past[i].minted && !past[j].minted
      ensures past[i].tx != past[j].tx
    {
      assert past[i].tx == past[j].tx ==> SameSender(past, i, j);
    }
  }
}
