/** What the structure of the DAG means along paths: depth is the longest path to a genesis, and the
    two directions of search agree. */
module Paths {
  import opened Core
  import opened Ledgers
  import opened Dags
  import opened Bfs
  import opened History
  import opened Structure

  function Reverse<T>(p: seq<T>): (r: seq<T>)
    ensures |r| == |p| && forall i :: 0 <= i < |p| ==> r[i] == p[|p| - 1 - i]
  {
    if p == [] then [] else Reverse(p[1..]) + [p[0]]
  }

  /** The hash in parent slot 1 or 2. */
  ghost predicate ParentOf(tx: Transaction, h: TxHash) {
    !tx.IsGenesis() && (h == tx.parent1 || h == tx.parent2)
  }

  /** A path of history positions, each the parent of the one before, that ends at a genesis. */
  ghost predicate PathToGenesis(env: Env, past: seq<Past>, p: seq<nat>) {
    && p != [] && (forall k :: 0 <= k < |p| ==> p[k] < |past|)
    && (forall k :: 0 <= k < |p| - 1 ==> ParentOf(past[p[k]].tx, env.hash(past[p[k + 1]].tx)))
    && past[p[|p| - 1]].tx.IsGenesis()
  }

  ghost function DepthAt(env: Env, past: seq<Past>, i: nat): nat
    requires i < |past|
  {
    Lookup(Depths(env, past), env.hash(past[i].tx), 0)
  }

  /** Later transactions leave recorded depths alone. */
  lemma {:induction false} DepthUnchanged(env: Env, past: seq<Past>, n: nat, h: TxHash)
    requires n <= |past| && Clean(env, past) && Recorded(env, past[..n], h)
    ensures Lookup(Depths(env, past), h, 0) == Lookup(Depths(env, past[..n]), h, 0)
  {
    if n < |past| {
      var init, last := past[..|past| - 1], past[|past| - 1];
      SplitLast(past);
      assert init[..n] == past[..n];
      DepthUnchanged(env, init, n, h);
      HistorySnoc(env, init, last);
      var i :| 0 <= i < n && env.hash(past[i].tx) == h;
    } else {
      assert past[..n] == past;
    }
  }

  /** The recorded depth is one more than the deeper parent's. */
  lemma DepthStep(env: Env, past: seq<Past>, i: nat)
    requires i < |past| && ParentsFirst(env, past) && Clean(env, past)
    ensures var tx := past[i].tx;
            DepthAt(env, past, i) == if tx.IsGenesis() then 0
              else Max(Lookup(Depths(env, past), tx.parent1, 0), Lookup(Depths(env, past), tx.parent2, 0)) + 1
  {
    var tx := past[i].tx;
    assert past[..i + 1] == past[..i] + [past[i]];
    HistorySnoc(env, past[..i], past[i]);
    assert past[..i + 1][i].tx == tx;
    DepthUnchanged(env, past, i + 1, env.hash(tx));
    if !tx.IsGenesis() {
      DepthUnchanged(env, past, i, tx.parent1);
      DepthUnchanged(env, past, i, tx.parent2);
    }
  }

  /** A parent's position in the history. */
  lemma ParentPosition(env: Env, past: seq<Past>, i: nat, h: TxHash) returns (j: nat)
    requires i < |past| && ParentsFirst(env, past) && ParentOf(past[i].tx, h)
    ensures j < i && env.hash(past[j].tx) == h
  {
    assert Recorded(env, past[..i], h);
    j :| 0 <= j < i && env.hash(past[j].tx) == h;
  }

  /** Some path from position `i` to a genesis has exactly as many edges as the recorded depth. */
  lemma {:induction false} DepthIsAPath(env: Env, past: seq<Past>, i: nat) returns (p: seq<nat>)
    requires i < |past| && ParentsFirst(env, past) && Clean(env, past)
    ensures PathToGenesis(env, past, p) && p[0] == i && |p| - 1 == DepthAt(env, past, i)
    decreases i
  {
    var tx, depths := past[i].tx, Depths(env, past);
    DepthStep(env, past, i);
    if tx.IsGenesis() {
      p := [i];
    } else {
      var deeper := if Lookup(depths, tx.parent1, 0) < Lookup(depths, tx.parent2, 0) then tx.parent2 else tx.parent1;
      var j := ParentPosition(env, past, i, deeper);
      var rest := DepthIsAPath(env, past, j);
      p := [i] + rest;
      PathExtends(env, past, i, rest);
    }
  }

  lemma PathExtends(env: Env, past: seq<Past>, i: nat, p: seq<nat>)
    requires i < |past| && PathToGenesis(env, past, p) && ParentOf(past[i].tx, env.hash(past[p[0]].tx))
    ensures PathToGenesis(env, past, [i] + p)
  {}

  /** And no path has more. */
  lemma {:induction false} DepthIsLongest(env: Env, past: seq<Past>, p: seq<nat>)
    requires ParentsFirst(env, past) && Clean(env, past) && PathToGenesis(env, past, p)
    ensures |p| - 1 <= DepthAt(env, past, p[0])
  {
    DepthStep(env, past, p[0]);
    if |p| > 1 {
      assert PathToGenesis(env, past, p[1..]);
      DepthIsLongest(env, past, p[1..]);
      DepthStep(env, past, p[1]);
    }
  }

  /** Depth never exceeds the number of transactions inserted before, so no depth counter overflows. */
  lemma {:induction false} DepthBounded(env: Env, past: seq<Past>, i: nat)
    requires i < |past| && ParentsFirst(env, past) && Clean(env, past)
    ensures DepthAt(env, past, i) <= i
    decreases i
  {
    DepthStep(env, past, i);
    if !past[i].tx.IsGenesis() {
      var a := ParentPosition(env, past, i, past[i].tx.parent1);
      var b := ParentPosition(env, past, i, past[i].tx.parent2);
      DepthBounded(env, past, a);
      DepthBounded(env, past, b);
    }
  }

  /** Over every run, pruning included: the depth stored in a present node is the length of the
      longest parent path from it to a genesis, in the history of everything ever inserted. */
  lemma NodeDepthIsLongestPath(env: Env, ops: seq<Op>, h: TxHash) returns (i: nat, p: seq<nat>)
    requires Clean(env, Execute(env, ops).past) && h in Execute(env, ops).dag.nodes
    ensures var r := Execute(env, ops);
            && i < |r.past| && env.hash(r.past[i].tx) == h && r.past[i].tx == r.dag.nodes[h].tx
            && PathToGenesis(env, r.past, p) && p[0] == i && |p| - 1 == r.dag.nodes[h].depth
            && forall q :: PathToGenesis(env, r.past, q) && q[0] == i ==> |q| - 1 <= r.dag.nodes[h].depth
  {
    var r := Execute(env, ops);
    RunStructured(env, ops);
    assert NodeAgrees(env, r.past, h, r.dag.nodes[h]);
    i :| 0 <= i < |r.past| && r.past[i].tx == r.dag.nodes[h].tx;
    p := DepthIsAPath(env, r.past, i);
    forall q | PathToGenesis(env, r.past, q) && q[0] == i {
      DepthIsLongest(env, r.past, q);
    }
  }

  /** max_depth is the depth of the deepest transaction ever inserted, pruned or not. */
  lemma MaxDepthIsDeepest(env: Env, ops: seq<Op>)
    requires Clean(env, Execute(env, ops).past)
    ensures var r := Execute(env, ops);
            && (forall i :: 0 <= i < |r.past| ==> DepthAt(env, r.past, i) <= r.dag.maxDepth)
            && (r.past != [] ==> exists i :: 0 <= i < |r.past| && DepthAt(env, r.past, i) == r.dag.maxDepth)
  {
    var r := Execute(env, ops);
    RunStructured(env, ops);
    forall i | 0 <= i < |r.past|
      ensures DepthAt(env, r.past, i) <= r.dag.maxDepth
    {
      RecordedHasDepth(env, r.past, env.hash(r.past[i].tx));
    }
    if r.dag.maxDepth != 0 {
      var h :| h in Depths(env, r.past) && Depths(env, r.past)[h] == r.dag.maxDepth;
      RecordedHasDepth(env, r.past, h);
      var i :| 0 <= i < |r.past| && env.hash(r.past[i].tx) == h;
      assert DepthAt(env, r.past, i) == r.dag.maxDepth;
    } else if r.past != [] {
      assert DepthAt(env, r.past, 0) == 0;
    }
  }

  /** Depth strictly increases along every edge between present nodes, so the graph is acyclic. */
  lemma EdgesDescend(env: Env, ops: seq<Op>, h: TxHash, parent: TxHash)
    requires Clean(env, Execute(env, ops).past)
    requires h in Execute(env, ops).dag.nodes && parent in Execute(env, ops).dag.nodes
    requires parent in ParentEdges(Execute(env, ops).dag.nodes)[h]
    ensures Execute(env, ops).dag.nodes[parent].depth < Execute(env, ops).dag.nodes[h].depth
  {
    RunStructured(env, ops);
    var r := Execute(env, ops);
    ParentIsShallower(env, r.past, r.dag.nodes, h, parent);
  }

  lemma ParentSlot(env: Env, past: seq<Past>, h: TxHash, n: Node, parent: TxHash)
    requires Clean(env, past) && NodeAgrees(env, past, h, n) && parent != ZERO_HASH
    ensures parent in ParentsOf(n) <==> ParentOf(n.tx, parent)
  {}

  lemma ParentIsShallower(env: Env, past: seq<Past>, nodes: Nodes, h: TxHash, parent: TxHash)
    requires ParentsFirst(env, past) && Clean(env, past) && NodesAgree(env, past, nodes)
    requires h in nodes && parent in nodes && parent in ParentsOf(nodes[h])
    ensures nodes[parent].depth < nodes[h].depth
  {
    assert NodeAgrees(env, past, h, nodes[h]) && NodeAgrees(env, past, parent, nodes[parent]);
    ParentSlot(env, past, h, nodes[h], parent);
    var i :| 0 <= i < |past| && past[i].tx == nodes[h].tx;
    DepthStep(env, past, i);
  }

  // ---- Confirmation depth --------------------------------------------------------------------

  /** History positions, each a child of the one before. */
  ghost predicate Descends(env: Env, past: seq<Past>, q: seq<nat>) {
    && q != [] && (forall k :: 0 <= k < |q| ==> q[k] < |past|)
    && forall k :: 0 <= k < |q| - 1 ==> ParentOf(past[q[k + 1]].tx, env.hash(past[q[k]].tx))
  }

  /** Some chain of descendants of position `i` is `n` layers long. */
  ghost predicate HasLayers(env: Env, past: seq<Past>, i: nat, n: nat) {
    exists q :: Descends(env, past, q) && q[0] == i && |q| - 1 == n
  }

  /** Position `i` lies on a parent path of `n` edges down to a genesis. */
  ghost predicate OnPathOf(env: Env, past: seq<Past>, i: nat, n: nat) {
    exists p :: PathToGenesis(env, past, p) && |p| - 1 == n && i in p
  }

  lemma {:induction false} LayersFitDepth(env: Env, past: seq<Past>, q: seq<nat>)
    requires ParentsFirst(env, past) && Clean(env, past) && Descends(env, past, q)
    ensures DepthAt(env, past, q[0]) + |q| - 1 <= DepthAt(env, past, q[|q| - 1])
  {
    if |q| > 1 {
      DepthStep(env, past, q[1]);
      assert Descends(env, past, q[1..]);
      LayersFitDepth(env, past, q[1..]);
    }
  }

  lemma ChainExtends(env: Env, past: seq<Past>, i: nat, q: seq<nat>)
    requires i < |past| && Descends(env, past, q) && ParentOf(past[q[0]].tx, env.hash(past[i].tx))
    ensures Descends(env, past, [i] + q)
  {}

  /** The part of a path above one of its positions, read upwards. */
  lemma {:induction false} PathAbove(env: Env, past: seq<Past>, p: seq<nat>, k: nat) returns (q: seq<nat>)
    requires PathToGenesis(env, past, p) && k < |p|
    ensures Descends(env, past, q) && q[0] == p[k] && |q| == k + 1
  {
    if k == 0 {
      q := [p[0]];
    } else {
      var above := PathAbove(env, past, p, k - 1);
      assert ParentOf(past[p[k - 1]].tx, env.hash(past[p[k - 1 + 1]].tx));
      ChainExtends(env, past, p[k], above);
      q := [p[k]] + above;
    }
  }

  /** A chain of descendants on top of a path makes a longer path. */
  lemma {:induction false} PathBelow(env: Env, past: seq<Past>, q: seq<nat>, p: seq<nat>) returns (r: seq<nat>)
    requires Descends(env, past, q) && PathToGenesis(env, past, p) && p[0] == q[0]
    ensures PathToGenesis(env, past, r) && |r| == |q| - 1 + |p| && forall i :: i in p ==> i in r
    decreases |q|
  {
    if |q| == 1 {
      r := p;
    } else {
      PathExtends(env, past, q[1], p);
      r := PathBelow(env, past, q[1..], [q[1]] + p);
      assert forall i :: i in p ==> i in [q[1]] + p;
    }
  }

  /** Exactly when some chain of descendants has as many layers as separate `i` from depth `m`. */
  lemma LayersReachDeepest(env: Env, past: seq<Past>, i: nat, m: nat)
    requires ParentsFirst(env, past) && Clean(env, past) && i < |past|
    requires forall j :: 0 <= j < |past| ==> DepthAt(env, past, j) <= m
    ensures HasLayers(env, past, i, m - DepthAt(env, past, i)) <==> OnPathOf(env, past, i, m)
  {
    if HasLayers(env, past, i, m - DepthAt(env, past, i)) {
      LayersMakePath(env, past, i, m);
    }
    if OnPathOf(env, past, i, m) {
      PathHasLayers(env, past, i, m);
    }
  }

  lemma LayersMakePath(env: Env, past: seq<Past>, i: nat, m: nat)
    requires ParentsFirst(env, past) && Clean(env, past) && i < |past| && DepthAt(env, past, i) <= m
    requires HasLayers(env, past, i, m - DepthAt(env, past, i))
    ensures OnPathOf(env, past, i, m)
  {
    var q :| Descends(env, past, q) && q[0] == i && |q| - 1 == m - DepthAt(env, past, i);
    var p := DepthIsAPath(env, past, i);
    var r := PathBelow(env, past, q, p);
    assert |r| - 1 == m && p[0] in r;
  }

  lemma SuffixIsPath(env: Env, past: seq<Past>, p: seq<nat>, k: nat)
    requires PathToGenesis(env, past, p) && k < |p|
    ensures PathToGenesis(env, past, p[k..])
  {
    forall m | 0 <= m < |p[k..]| - 1
      ensures ParentOf(past[p[k..][m]].tx, env.hash(past[p[k..][m + 1]].tx))
    {
      assert ParentOf(past[p[k + m]].tx, env.hash(past[p[k + m + 1]].tx));
    }
  }

  lemma PathHasLayers(env: Env, past: seq<Past>, i: nat, m: nat)
    requires ParentsFirst(env, past) && Clean(env, past) && i < |past| && OnPathOf(env, past, i, m)
    requires forall j :: 0 <= j < |past| ==> DepthAt(env, past, j) <= m
    ensures HasLayers(env, past, i, m - DepthAt(env, past, i))
  {
    var p :| PathToGenesis(env, past, p) && |p| - 1 == m && i in p;
    var k :| 0 <= k < |p| && p[k] == i;
    var q := PathAbove(env, past, p, k);
    LayersFitDepth(env, past, q);
    SuffixIsPath(env, past, p, k);
    DepthIsLongest(env, past, p[k..]);
    assert |q| - 1 == m - DepthAt(env, past, i);
  }

  /** Over every run, what ConfirmationDepth returns for a present node never saturates and is at least
      the number of layers of any chain of its descendants, pruned or not. It is that number for some
      chain exactly when the node lies on a path of max_depth edges, that is, a longest one. */
  lemma ConfirmationCountsLayers(env: Env, ops: seq<Op>, h: TxHash, r: nat) returns (i: nat)
    requires Clean(env, Execute(env, ops).past) && h in Execute(env, ops).dag.nodes
    requires var d := Execute(env, ops).dag; d.nodes[h].depth <= d.maxDepth ==> d.nodes[h].depth + r == d.maxDepth
    ensures var x := Execute(env, ops);
            && i < |x.past| && x.past[i].tx == x.dag.nodes[h].tx && env.hash(x.past[i].tx) == h
            && x.dag.nodes[h].depth + r == x.dag.maxDepth
            && (forall q :: Descends(env, x.past, q) && q[0] == i ==> |q| - 1 <= r)
            && (HasLayers(env, x.past, i, r) <==> OnPathOf(env, x.past, i, x.dag.maxDepth))
  {
    var x := Execute(env, ops);
    i := PositionOfNode(env, ops, h);
    MaxDepthIsDeepest(env, ops);
    LayersReachDeepest(env, x.past, i, x.dag.maxDepth);
    LayersBelowDeepest(env, x.past, i, x.dag.maxDepth);
  }

  /** Where a present node stands in the history, at its own depth. */
  lemma PositionOfNode(env: Env, ops: seq<Op>, h: TxHash) returns (i: nat)
    requires Clean(env, Execute(env, ops).past) && h in Execute(env, ops).dag.nodes
    ensures var x := Execute(env, ops);
            && ParentsFirst(env, x.past) && i < |x.past| && x.past[i].tx == x.dag.nodes[h].tx
            && env.hash(x.past[i].tx) == h && DepthAt(env, x.past, i) == x.dag.nodes[h].depth
  {
    var x := Execute(env, ops);
    RunStructured(env, ops);
    assert NodeAgrees(env, x.past, h, x.dag.nodes[h]);
    i :| 0 <= i < |x.past| && x.past[i].tx == x.dag.nodes[h].tx;
  }

  lemma LayersBelowDeepest(env: Env, past: seq<Past>, i: nat, m: nat)
    requires ParentsFirst(env, past) && Clean(env, past) && i < |past|
    requires forall j :: 0 <= j < |past| ==> DepthAt(env, past, j) <= m
    ensures forall q :: Descends(env, past, q) && q[0] == i ==> |q| - 1 <= m - DepthAt(env, past, i)
  {
    forall q | Descends(env, past, q) && q[0] == i
      ensures |q| - 1 <= m - DepthAt(env, past, i)
    {
      LayersFitDepth(env, past, q);
    }
  }

  // ---- Children mirror parents ---------------------------------------------------------------

  lemma {:induction false} ChildIffParent(env: Env, past: seq<Past>, h: TxHash, c: TxHash)
    ensures c in ChildrenOf(env, past, h) <==>
            exists i :: 0 <= i < |past| && env.hash(past[i].tx) == c && ParentOf(past[i].tx, h)
  {
    if past != [] {
      var init, last := past[..|past| - 1], past[|past| - 1];
      SplitLast(past);
      HistorySnoc(env, init, last);
      ChildIffParent(env, init, h, c);
      if i :| 0 <= i < |past| && env.hash(past[i].tx) == c && ParentOf(past[i].tx, h) {
        assert i < |init| ==> init[i] == past[i];
      }
    }
  }

  lemma ChildIsParentBackwards(env: Env, past: seq<Past>, nodes: Nodes, h: TxHash, c: TxHash)
    requires Clean(env, past) && NodesAgree(env, past, nodes) && h in nodes && c in nodes
    ensures c in nodes[h].children <==> h in ParentsOf(nodes[c])
  {
    PresentIsRecorded(env, past, h, nodes[h]);
    NoZeroRecorded(env, past);
    ParentSlot(env, past, c, nodes[c], h);
    ChildIffParent(env, past, h, c);
    var i :| 0 <= i < |past| && past[i].tx == nodes[c].tx;
    assert forall j :: 0 <= j < |past| && env.hash(past[j].tx) == c ==> j == i;
  }

  /** Between present nodes, the child lists are exactly the parent slots read backwards. */
  lemma EdgesMirror(env: Env, ops: seq<Op>)
    requires Clean(env, Execute(env, ops).past)
    ensures Mirrored(ParentEdges(Execute(env, ops).dag.nodes), ChildEdges(Execute(env, ops).dag.nodes))
  {
    RunStructured(env, ops);
    var r := Execute(env, ops);
    forall h, c | h in r.dag.nodes && c in r.dag.nodes {
      ChildIsParentBackwards(env, r.past, r.dag.nodes, h, c);
    }
  }

  /** Two edge relations over the same vertices, each the other backwards. */
  ghost predicate Mirrored(up: Edges, down: Edges) {
    && up.Keys == down.Keys
    && forall h, c :: h in up && c in up ==> (c in down[h] <==> h in up[c])
  }

  lemma WalkBack(up: Edges, down: Edges, a: TxHash, b: TxHash, k: nat)
    requires Mirrored(up, down) && a in up && Within(up, b, k, a)
    ensures Within(down, a, k, b)
  {
    var p :| WalkTo(up, b, a, p) && |p| <= k + 1;
    var q := Reverse(p);
    forall i | 0 <= i < |q| - 1
      ensures q[i] in down && q[i + 1] in down[q[i]]
    {
      var j := |p| - 2 - i;
      assert p[j] in up && p[j + 1] in up[p[j]];
      assert j + 1 < |p| - 1 ==> p[j + 1] in up;
    }
    assert WalkTo(down, a, b, q);
  }

  /** In every reachable DAG, pruned or not, `a` is among the ancestors of `b` within `k` levels
      exactly when `b` is among the descendants of `a` within `k` levels. */
  lemma AncestorsMirrorDescendants(env: Env, ops: seq<Op>, a: TxHash, b: TxHash, k: nat,
                                   ancestors: seq<TxHash>, descendants: seq<TxHash>)
    requires Clean(env, Execute(env, ops).past)
    requires LevelBounded(ParentEdges(Execute(env, ops).dag.nodes), b, k, ancestors)
    requires LevelBounded(ChildEdges(Execute(env, ops).dag.nodes), a, k, descendants)
    ensures a in ancestors <==> b in descendants
  {
    var nodes := Execute(env, ops).dag.nodes;
    var up, down := ParentEdges(nodes), ChildEdges(nodes);
    EdgesMirror(env, ops);
    if a in ancestors {
      StartIsPresent(up, b, k, a);
      WalkBack(up, down, a, b, k);
    }
    if b in descendants {
      StartIsPresent(down, a, k, b);
      WalkBack(down, up, b, a, k);
    }
  }

  lemma StartIsPresent(edges: Edges, s: TxHash, k: nat, h: TxHash)
    requires Within(edges, s, k, h) && h != s
    ensures s in edges
  {}

  // ---- Tips ----------------------------------------------------------------------------------

  /** There is a tip as soon as anything has been inserted, pruned or not. */
  lemma {:induction false} TipsNeverEmpty(env: Env, ops: seq<Op>)
    requires Execute(env, ops).past != []
    ensures Execute(env, ops).dag.tips != {}
  {
    var before, op := Execute(env, ops[..|ops| - 1]), ops[|ops| - 1];
    if before.past != [] {
      TipsNeverEmpty(env, ops[..|ops| - 1]);
    }
    match op
    case Mint(tx) => assert tx.IsGenesis() ==> env.hash(tx) in Execute(env, ops).dag.tips;
    case Submit(tx) => assert Refusal(env, before.dag, tx).None? ==> env.hash(tx) in Execute(env, ops).dag.tips;
    case _ =>
  }

  lemma {:induction false} UnprunedIsPresent(env: Env, ops: seq<Op>, h: TxHash)
    requires forall i :: 0 <= i < |ops| ==> !ops[i].PruneAt?
    ensures Recorded(env, Execute(env, ops).past, h) ==> h in Execute(env, ops).dag.nodes
  {
    if ops != [] {
      var r, op := Execute(env, ops[..|ops| - 1]), ops[|ops| - 1];
      UnprunedIsPresent(env, ops[..|ops| - 1], h);
      match op
      case Mint(tx) => HistorySnoc(env, r.past, Past(tx, true));
      case Submit(tx) =>
        HistorySnoc(env, r.past, Past(tx, false));
        if Refusal(env, r.dag, tx).None? {
          AttachAt(env, r.dag.nodes, tx, h);
        }
      case _ =>
    }
  }

  /** Without pruning the tips are exactly the childless nodes. */
  lemma TipsAreChildless(env: Env, ops: seq<Op>)
    requires Clean(env, Execute(env, ops).past) && forall i :: 0 <= i < |ops| ==> !ops[i].PruneAt?
    ensures var d := Execute(env, ops).dag;
            forall h :: h in d.tips <==> h in d.nodes && d.nodes[h].children == []
  {
    var r := Execute(env, ops);
    RunStructured(env, ops);
    forall h
      ensures h in r.dag.tips <==> h in r.dag.nodes && r.dag.nodes[h].children == []
    {
      UnprunedIsPresent(env, ops, h);
      if h in r.dag.nodes {
        PresentIsRecorded(env, r.past, h, r.dag.nodes[h]);
      }
    }
  }
}
