/** Level-bounded breadth-first search: what it returns, and the invariant that makes marking a
    vertex visited only when it is popped return the right levels. */
module Bfs {
  import opened Core

  type Edges = map<TxHash, seq<TxHash>>

  /** A walk along edges; only a present vertex has outgoing edges. */
  ghost predicate Walk(edges: Edges, p: seq<TxHash>) {
    p != [] && forall i :: 0 <= i < |p| - 1 ==> p[i] in edges && p[i + 1] in edges[p[i]]
  }

  ghost predicate WalkTo(edges: Edges, s: TxHash, h: TxHash, p: seq<TxHash>) {
    Walk(edges, p) && p[0] == s && p[|p| - 1] == h
  }

  /** A walk of at most `k` edges leads from `s` to `h`. */
  ghost predicate Within(edges: Edges, s: TxHash, k: nat, h: TxHash) {
    exists p :: WalkTo(edges, s, h, p) && |p| <= k + 1
  }

  /** `result` lists, once each and in order of distance, the present vertices whose shortest
      distance from `s` is between 1 and `k`. */
  ghost predicate LevelBounded(edges: Edges, s: TxHash, k: nat, result: seq<TxHash>) {
    && (forall h :: h in result <==> h in edges && h != s && Within(edges, s, k, h))
    && (forall i, j :: 0 <= i < j < |result| ==> result[i] != result[j])
    && (forall i, j, m: nat :: 0 <= i < j < |result| && Within(edges, s, m, result[j]) ==>
          Within(edges, s, m, result[i]))
  }

  type QueueEntry = (TxHash, nat)

  function AtLevel(hs: seq<TxHash>, level: nat): (r: seq<QueueEntry>)
    ensures |r| == |hs| && forall i :: 0 <= i < |hs| ==> r[i] == (hs[i], level)
  {
    if hs == [] then [] else AtLevel(hs[..|hs| - 1], level) + [(hs[|hs| - 1], level)]
  }

  /** Every vertex a search from `s` can meet. */
  ghost function Hashes(edges: Edges, s: TxHash): set<TxHash> {
    {s} + edges.Keys + (set v, w | v in edges && w in edges[v] :: w)
  }

  lemma WithinStart(edges: Edges, s: TxHash, h: TxHash)
    ensures Within(edges, s, 0, h) <==> h == s
  {
    if h == s {
      assert WalkTo(edges, s, h, [s]);
    }
  }

  lemma WithinStep(edges: Edges, s: TxHash, k: nat, v: TxHash, h: TxHash)
    requires Within(edges, s, k, v) && v in edges && h in edges[v]
    ensures Within(edges, s, k + 1, h)
  {
    var p :| WalkTo(edges, s, v, p) && |p| <= k + 1;
    assert WalkTo(edges, s, h, p + [h]);
  }

  /** The last edge of a shortest walk. */
  lemma WithinLast(edges: Edges, s: TxHash, k: nat, h: TxHash) returns (v: TxHash)
    requires Within(edges, s, k + 1, h) && !Within(edges, s, k, h)
    ensures Within(edges, s, k, v) && v in edges && h in edges[v]
  {
    var p :| WalkTo(edges, s, h, p) && |p| <= k + 2;
    v := p[|p| - 2];
    assert WalkTo(edges, s, v, p[..|p| - 1]);
  }

  lemma WithinMonotone(edges: Edges, s: TxHash, k: nat, m: nat, h: TxHash)
    requires k <= m && Within(edges, s, k, h)
    ensures Within(edges, s, m, h)
  {}

  /** Queue levels never fall and span at most two values; a queued vertex is within its level. */
  ghost predicate Fifo(edges: Edges, s: TxHash, queue: seq<QueueEntry>) {
    && (forall i, j :: 0 <= i <= j < |queue| ==> queue[i].1 <= queue[j].1 <= queue[0].1 + 1)
    && (forall i :: 0 <= i < |queue| ==> queue[i].0 in Hashes(edges, s) && Within(edges, s, queue[i].1, queue[i].0))
  }

  /** A neighbour of a visited vertex is visited, or queued no later than one level further. */
  ghost predicate Expanded(edges: Edges, s: TxHash, k: nat, queue: seq<QueueEntry>, visited: set<TxHash>) {
    forall m: nat, v, w :: m < k && v in visited && Within(edges, s, m, v) && v in edges && w in edges[v]
      ==> w in visited || QueuedBy(queue, w, m + 1)
  }

  ghost predicate QueuedBy(queue: seq<QueueEntry>, w: TxHash, level: nat) {
    exists i :: 0 <= i < |queue| && queue[i].0 == w && queue[i].1 <= level
  }

  /** `result` is the visited and present vertices other than `s`, once each. */
  ghost predicate Collected(edges: Edges, s: TxHash, k: nat, queue: seq<QueueEntry>, visited: set<TxHash>,
                            result: seq<TxHash>) {
    && (forall h :: h in visited ==> h in Hashes(edges, s) && Within(edges, s, k, h))
    && (forall h :: h in result <==> h in visited && h in edges && h != s)
    && (forall i, j :: 0 <= i < j < |result| ==> result[i] != result[j])
    && (s in visited || (queue == [(s, 0)] && visited == {}))
  }

  /** `result` is in order of distance, and no visited vertex is farther than the head of the queue. */
  ghost predicate NearestFirst(edges: Edges, s: TxHash, queue: seq<QueueEntry>, visited: set<TxHash>,
                               result: seq<TxHash>) {
    && (forall i, j, m: nat :: 0 <= i < j < |result| && Within(edges, s, m, result[j]) ==>
          Within(edges, s, m, result[i]))
    && (queue != [] ==> forall h :: h in visited ==> Within(edges, s, queue[0].1, h))
  }

  ghost predicate Frontier(edges: Edges, s: TxHash, k: nat, queue: seq<QueueEntry>, visited: set<TxHash>,
                           result: seq<TxHash>) {
    && Fifo(edges, s, queue)
    && Expanded(edges, s, k, queue, visited)
    && Collected(edges, s, k, queue, visited, result)
    && NearestFirst(edges, s, queue, visited, result)
  }

  /** Every vertex closer than the head of the queue has been visited, so the level at which a vertex
      is first popped is its shortest distance. */
  lemma {:induction false} NearerIsVisited(edges: Edges, s: TxHash, k: nat, queue: seq<QueueEntry>,
                                           visited: set<TxHash>, m: nat, h: TxHash)
    requires Fifo(edges, s, queue) && Expanded(edges, s, k, queue, visited)
    requires s in visited || (queue != [] && queue[0].1 == 0)
    requires m <= k && (queue == [] || m < queue[0].1) && Within(edges, s, m, h)
    ensures h in visited
    decreases m
  {
    if m == 0 {
      WithinStart(edges, s, h);
    } else if Within(edges, s, m - 1, h) {
      NearerIsVisited(edges, s, k, queue, visited, m - 1, h);
    } else {
      var v := WithinLast(edges, s, m - 1, h);
      NearerIsVisited(edges, s, k, queue, visited, m - 1, v);
    }
  }

  /** One iteration of the search: the new queue, visited set and result. */
  function Pop(edges: Edges, k: nat, queue: seq<QueueEntry>, visited: set<TxHash>, result: seq<TxHash>):
    (seq<QueueEntry>, set<TxHash>, seq<TxHash>)
    requires queue != []
  {
    var (current, level) := queue[0];
    if level > k || current in visited then (queue[1..], visited, result)
    else if current !in edges then (queue[1..], visited + {current}, result)
    else (queue[1..] + AtLevel(edges[current], level + 1), visited + {current},
          if level > 0 then result + [current] else result)
  }

  lemma PopKeepsFrontier(edges: Edges, s: TxHash, k: nat, queue: seq<QueueEntry>, visited: set<TxHash>,
                         result: seq<TxHash>)
    requires queue != [] && Frontier(edges, s, k, queue, visited, result)
    ensures var (q, v, r) := Pop(edges, k, queue, visited, result);
            Frontier(edges, s, k, q, v, r) && Decreased(Hashes(edges, s), queue, visited, q, v)
  {
    PopKeepsFifo(edges, s, k, queue, visited, result);
    PopKeepsExpanded(edges, s, k, queue, visited, result);
    PopKeepsCollected(edges, s, k, queue, visited, result);
    PopKeepsOrder(edges, s, k, queue, visited, result);
    PopDecreases(Hashes(edges, s), edges, k, queue, visited, result);
  }

  /** Either a vertex is newly visited or the queue gets shorter, so the search terminates. */
  ghost predicate Decreased(all: set<TxHash>, queue: seq<QueueEntry>, visited: set<TxHash>,
                            queue': seq<QueueEntry>, visited': set<TxHash>)
  {
    || |all - visited'| < |all - visited|
    || (visited' == visited && |queue'| < |queue|)
  }

  lemma PopDecreases(all: set<TxHash>, edges: Edges, k: nat, queue: seq<QueueEntry>, visited: set<TxHash>,
                     result: seq<TxHash>)
    requires queue != [] && queue[0].0 in all
    ensures var (q, v, r) := Pop(edges, k, queue, visited, result); Decreased(all, queue, visited, q, v)
  {
    var (current, level) := queue[0];
    if level <= k && current !in visited {
      VisitShrinks(all, visited, current);
    }
  }

  lemma VisitShrinks(all: set<TxHash>, visited: set<TxHash>, h: TxHash)
    requires h in all && h !in visited
    ensures |all - (visited + {h})| < |all - visited|
  {
    assert all - (visited + {h}) == (all - visited) - {h};
  }

  lemma PopKeepsFifo(edges: Edges, s: TxHash, k: nat, queue: seq<QueueEntry>, visited: set<TxHash>, result: seq<TxHash>)
    requires queue != [] && Fifo(edges, s, queue)
    ensures Fifo(edges, s, Pop(edges, k, queue, visited, result).0)
  {
    var (current, level) := queue[0];
    if current in edges {
      forall w | w in edges[current]
        ensures w in Hashes(edges, s) && Within(edges, s, level + 1, w)
      {
        WithinStep(edges, s, level, current, w);
      }
    }
  }

  lemma PopKeepsExpanded(edges: Edges, s: TxHash, k: nat, queue: seq<QueueEntry>, visited: set<TxHash>,
                         result: seq<TxHash>)
    requires queue != [] && Frontier(edges, s, k, queue, visited, result)
    ensures var (q, v, r) := Pop(edges, k, queue, visited, result); Expanded(edges, s, k, q, v)
  {
    var (current, level) := queue[0];
    var (q, vs, r) := Pop(edges, k, queue, visited, result);
    forall m: nat, v, w | m < k && v in vs && Within(edges, s, m, v) && v in edges && w in edges[v]
      ensures w in vs || QueuedBy(q, w, m + 1)
    {
      if v in visited {
        StaysQueued(edges, k, queue, visited, result, w, m + 1);
      } else {
        if m < level {
          NearerIsVisited(edges, s, k, queue, visited, m, v);
        }
        NewlyQueued(edges, k, queue, visited, result, w);
      }
    }
  }

  lemma StaysQueued(edges: Edges, k: nat, queue: seq<QueueEntry>, visited: set<TxHash>, result: seq<TxHash>, w: TxHash,
                    m: nat)
    requires queue != [] && (w in visited || QueuedBy(queue, w, m)) && m <= k
    ensures var (q, v, r) := Pop(edges, k, queue, visited, result); w in v || QueuedBy(q, w, m)
  {
    var (q, v, r) := Pop(edges, k, queue, visited, result);
    if w !in v {
      var i :| 0 <= i < |queue| && queue[i].0 == w && queue[i].1 <= m;
      assert q[i - 1] == queue[i];
    }
  }

  lemma NewlyQueued(edges: Edges, k: nat, queue: seq<QueueEntry>, visited: set<TxHash>, result: seq<TxHash>, w: TxHash)
    requires queue != [] && queue[0].1 <= k && queue[0].0 !in visited
    requires queue[0].0 in edges && w in edges[queue[0].0]
    ensures QueuedBy(Pop(edges, k, queue, visited, result).0, w, queue[0].1 + 1)
  {
    var (current, level) := queue[0];
    var q := Pop(edges, k, queue, visited, result).0;
    var i :| 0 <= i < |edges[current]| && edges[current][i] == w;
    assert q[|queue| - 1 + i] == (w, level + 1);
  }

  lemma PopKeepsCollected(edges: Edges, s: TxHash, k: nat, queue: seq<QueueEntry>, visited: set<TxHash>,
                          result: seq<TxHash>)
    requires queue != [] && Fifo(edges, s, queue) && Collected(edges, s, k, queue, visited, result)
    ensures var (q, v, r) := Pop(edges, k, queue, visited, result); Collected(edges, s, k, q, v, r)
  {
    var (current, level) := queue[0];
    WithinStart(edges, s, current);
    if level <= k {
      WithinMonotone(edges, s, level, k, current);
    }
  }

  lemma PopKeepsOrder(edges: Edges, s: TxHash, k: nat, queue: seq<QueueEntry>, visited: set<TxHash>,
                      result: seq<TxHash>)
    requires queue != [] && Frontier(edges, s, k, queue, visited, result)
    ensures var (q, v, r) := Pop(edges, k, queue, visited, result); NearestFirst(edges, s, q, v, r)
  {
    var (current, level) := queue[0];
    if level <= k && current !in visited {
      forall h, m: nat | h in visited && Within(edges, s, m, current)
        ensures Within(edges, s, m, h)
      {
        VisitedIsNearer(edges, s, k, queue, visited, result, h, m);
      }
    }
    var (q, v, r) := Pop(edges, k, queue, visited, result);
    if q != [] {
      forall h | h in v
        ensures Within(edges, s, q[0].1, h)
      {
        WithinMonotone(edges, s, level, q[0].1, h);
      }
    }
  }

  lemma VisitedIsNearer(edges: Edges, s: TxHash, k: nat, queue: seq<QueueEntry>, visited: set<TxHash>,
                        result: seq<TxHash>, h: TxHash, m: nat)
    requires queue != [] && Frontier(edges, s, k, queue, visited, result)
    requires queue[0].1 <= k && queue[0].0 !in visited && h in visited && Within(edges, s, m, queue[0].0)
    ensures Within(edges, s, m, h)
  {
    if m < queue[0].1 {
      NearerIsVisited(edges, s, k, queue, visited, m, queue[0].0);
    } else {
      WithinMonotone(edges, s, queue[0].1, m, h);
    }
  }

  /** When the queue is empty the result is complete. */
  lemma DrainedFrontier(edges: Edges, s: TxHash, k: nat, visited: set<TxHash>, result: seq<TxHash>)
    requires Frontier(edges, s, k, [], visited, result)
    ensures LevelBounded(edges, s, k, result)
  {
    forall h | Within(edges, s, k, h)
      ensures h in visited
    {
      NearerIsVisited(edges, s, k, [], visited, k, h);
    }
  }

  lemma FrontierStart(edges: Edges, s: TxHash, k: nat)
    ensures Frontier(edges, s, k, [(s, 0)], {}, [])
  {
    WithinStart(edges, s, s);
  }
}
