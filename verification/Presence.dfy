/** Under concurrent inserts no node is lost: whatever has joined the history has its node, or belongs to
    a call that is still going to put it there. */
module Presence {
  import opened Core
  import opened Ledgers
  import opened Dags
  import opened History
  import opened Concurrent

  /** `tx` is in the history from position `n` on. */
  ghost predicate Joined(past: seq<Past>, n: nat, tx: Transaction) {
    exists i :: n <= i < |past| && past[i].tx == tx
  }

  lemma JoinedSnoc(past: seq<Past>, p: Past, n: nat, tx: Transaction)
    requires n <= |past|
    ensures Joined(past, n, tx) ==> Joined(past + [p], n, tx)
    ensures Joined(past + [p], n, p.tx)
  {
    var now := past + [p];
    assert now[|past|] == p;
    if i :| n <= i < |past| && past[i].tx == tx {
      assert now[i].tx == tx;
    }
  }

  /** A call that has debited for `tx` and not yet put its node. */
  ghost predicate AwaitsNode(calls: map<Tid, Call>, tx: Transaction) {
    exists t :: t in calls && NodePending(calls[t].pc) && calls[t].tx == tx
  }

  /** Every history entry from position `n` on has a node, or a call that will put it. */
  ghost predicate Stored(env: Env, past: seq<Past>, nodes: Nodes, calls: map<Tid, Call>, n: nat) {
    && n <= |past|
    && forall i :: n <= i < |past| ==> env.hash(past[i].tx) in nodes || AwaitsNode(calls, past[i].tx)
  }

  /** A node was there at the start or belongs to a history entry from position `n` on. */
  ghost predicate Sourced(env: Env, past: seq<Past>, nodes: Nodes, calls: map<Tid, Call>, n: nat, start: Nodes) {
    && n <= |past|
    && (forall t :: t in calls && NodePending(calls[t].pc) ==> Joined(past, n, calls[t].tx))
    && (forall h :: h in start ==> h in nodes)
    && (forall h :: h in nodes ==> h in start || NewHash(env, past, n, h))
  }

  ghost predicate NewHash(env: Env, past: seq<Past>, n: nat, h: TxHash) {
    exists i :: n <= i < |past| && env.hash(past[i].tx) == h
  }

  lemma NewHashSnoc(env: Env, past: seq<Past>, p: Past, n: nat, h: TxHash)
    requires NewHash(env, past, n, h)
    ensures NewHash(env, past + [p], n, h)
  {
    var i :| n <= i < |past| && env.hash(past[i].tx) == h;
    assert (past + [p])[i] == past[i];
  }

  lemma StepSourced(env: Env, past: seq<Past>, nodes: Nodes, calls: map<Tid, Call>, n: nat, start: Nodes, t: Tid,
                    c: Call, past': seq<Past>, nodes': Nodes)
    requires Sourced(env, past, nodes, calls, n, start) && t in calls && c.tx == calls[t].tx
    requires forall h :: h in nodes ==> h in nodes'
    requires forall h :: h in nodes' ==> h in nodes || (NodePending(calls[t].pc) && h == env.hash(c.tx))
    requires if past' == past then NodePending(c.pc) ==> NodePending(calls[t].pc)
             else past' == past + [Past(c.tx, false)]
    ensures Sourced(env, past', nodes', calls[t := c], n, start)
  {
    var after := calls[t := c];
    forall u | u in after && NodePending(after[u].pc)
      ensures Joined(past', n, after[u].tx)
    {
      JoinedSnoc(past, Past(c.tx, false), n, after[u].tx);
    }
    forall h | h in nodes' && h !in start
      ensures NewHash(env, past', n, h)
    {
      if h !in nodes {
        assert Joined(past, n, c.tx);
        var i :| n <= i < |past| && past[i].tx == c.tx;
      }
      if past' != past {
        NewHashSnoc(env, past, Past(c.tx, false), n, h);
      }
    }
  }

  /** One call moves on: nodes stay, and a call stops owing its node only by putting it. */
  lemma StepStores(env: Env, past: seq<Past>, nodes: Nodes, calls: map<Tid, Call>, n: nat, t: Tid, c: Call,
                   past': seq<Past>, nodes': Nodes)
    requires Stored(env, past, nodes, calls, n) && t in calls && c.tx == calls[t].tx
    requires forall h :: h in nodes ==> h in nodes'
    requires NodePending(calls[t].pc) ==> NodePending(c.pc) || env.hash(c.tx) in nodes'
    requires past' == past || (past' == past + [Past(c.tx, false)] && NodePending(c.pc))
    ensures Stored(env, past', nodes', calls[t := c], n)
  {
    var after := calls[t := c];
    assert NodePending(c.pc) ==> AwaitsNode(after, c.tx) by {
      assert after[t] == c;
    }
    forall i | n <= i < |past|
      ensures env.hash(past[i].tx) in nodes' || AwaitsNode(after, past[i].tx)
    {
      if env.hash(past[i].tx) !in nodes {
        assert AwaitsNode(calls, past[i].tx);
        var u :| u in calls && NodePending(calls[u].pc) && calls[u].tx == past[i].tx;
        assert u != t ==> after[u] == calls[u];
      }
    }
  }

  lemma NodesGrow(env: Env, nodes: Nodes, c: Call)
    ensures forall h :: h in LinkNodes(env, nodes, c) <==> h in nodes || (c.pc.PutNode? && h == env.hash(c.tx))
  {}

  lemma NodeStaysPending(env: Env, nodes: Nodes, maxDepth: nat, c: Call)
    requires Linking(c.pc)
    ensures NodePending(LinkCall(env, nodes, maxDepth, c).pc) <==> NodePending(c.pc) && !c.pc.PutNode?
  {}

  lemma PaymentPendsNode(l: Ledger, c: Call)
    requires Paying(c.pc)
    ensures PayCall(l, c).tx == c.tx
    ensures NodePending(PayCall(l, c).pc)
       <==> NodePending(c.pc) || (c.pc.SwapBalance? && l.Balance(c.tx.sender) == c.pc.seen)
  {}

  /** Both, for a state that started from `start`. */
  ghost predicate Present(env: Env, s: State, start: Run) {
    && Stored(env, s.run.past, s.Dag().nodes, s.calls, |start.past|)
    && Sourced(env, s.run.past, s.Dag().nodes, s.calls, |start.past|, start.dag.nodes)
  }

  lemma StepPresent(env: Env, s: State, t: Tid, c: Call, after: State, start: Run)
    requires Present(env, s, start) && t in s.calls && c.tx == s.calls[t].tx && after.calls == s.calls[t := c]
    requires forall h :: h in after.Dag().nodes
               <==> h in s.Dag().nodes || (s.calls[t].pc.PutNode? && h == env.hash(c.tx))
    requires NodePending(s.calls[t].pc) ==> NodePending(c.pc) || s.calls[t].pc.PutNode?
    requires if after.run.past == s.run.past then NodePending(c.pc) ==> NodePending(s.calls[t].pc)
             else after.run.past == s.run.past + [Past(c.tx, false)] && NodePending(c.pc)
    ensures Present(env, after, start)
  {
    var past, nodes, n := s.run.past, s.Dag().nodes, |start.past|;
    StepStores(env, past, nodes, s.calls, n, t, c, after.run.past, after.Dag().nodes);
    StepSourced(env, past, nodes, s.calls, n, start.dag.nodes, t, c, after.run.past, after.Dag().nodes);
  }

  lemma CheckPresent(env: Env, s: State, t: Tid, supplyOk: bool, start: Run)
    requires Present(env, s, start) && t in s.calls && Checking(s.calls[t].pc)
    ensures Present(env, CheckStep(env, s, t, supplyOk), start)
  {
    var c, after := s.calls[t], CheckStep(env, s, t, supplyOk);
    CheckFrame(env, s, t, supplyOk);
    CheckAdvances(env, s.Dag(), c.tx.sender in s.locks, c, supplyOk);
    StepPresent(env, s, t, after.calls[t], after, start);
  }

  lemma PayPresent(env: Env, s: State, t: Tid, start: Run)
    requires Present(env, s, start) && t in s.calls && Paying(s.calls[t].pc)
    ensures Present(env, PayStep(env, s, t), start)
  {
    var after := PayStep(env, s, t);
    PaymentPendsNode(s.Dag().ledger, s.calls[t]);
    StepPresent(env, s, t, after.calls[t], after, start);
  }

  lemma LinkPresent(env: Env, s: State, t: Tid, start: Run)
    requires Present(env, s, start) && t in s.calls && Linking(s.calls[t].pc)
    ensures Present(env, LinkStep(env, s, t), start)
  {
    var c, d, after := s.calls[t], s.Dag(), LinkStep(env, s, t);
    LinkAdvances(env, d.nodes, d.maxDepth, c);
    NodesGrow(env, d.nodes, c);
    NodeStaysPending(env, d.nodes, d.maxDepth, c);
    StepPresent(env, s, t, LinkCall(env, d.nodes, d.maxDepth, c), after, start);
  }

  lemma BeginPresent(env: Env, s: State, t: Tid, tx: Transaction, start: Run)
    requires Present(env, s, start) && t !in s.calls
    ensures Present(env, Next(env, s, Begin(t, tx)), start)
  {
    var after, past := Next(env, s, Begin(t, tx)), s.run.past;
    forall i | 0 <= i < |past| && AwaitsNode(s.calls, past[i].tx)
      ensures AwaitsNode(after.calls, past[i].tx)
    {
      var u :| u in s.calls && NodePending(s.calls[u].pc) && s.calls[u].tx == past[i].tx;
      assert after.calls[u] == s.calls[u];
    }
  }

  /** In every state any interleaving reaches, the nodes are those of the start and of what joined the
      history since, but for the ones that calls in flight are still going to put. */
  lemma {:induction false} NoNodeLost(env: Env, ops: seq<Op>, events: seq<Event>)
    ensures Present(env, Interleave(env, ops, events), Execute(env, ops))
  {
    if events != [] {
      var s, e := Interleave(env, ops, events[..|events| - 1]), events[|events| - 1];
      NoNodeLost(env, ops, events[..|events| - 1]);
      NextPresent(env, s, e, Execute(env, ops));
    }
  }

  lemma NextPresent(env: Env, s: State, e: Event, start: Run)
    requires Present(env, s, start)
    ensures Present(env, Next(env, s, e), start)
  {
    if e.Begin? {
      if e.t !in s.calls {
        BeginPresent(env, s, e.t, e.tx, start);
      }
    } else if e.t in s.calls {
      if Checking(s.calls[e.t].pc) {
        CheckPresent(env, s, e.t, e.supplyOk, start);
      } else if Paying(s.calls[e.t].pc) {
        PayPresent(env, s, e.t, start);
      } else {
        LinkPresent(env, s, e.t, start);
      }
    }
  }

  ghost predicate AllReturned(calls: map<Tid, Call>) { forall t :: t in calls ==> calls[t].pc.Returned? }

  /** Once all calls have returned, the nodes are exactly those of the start and of what joined since. */
  lemma ReturnedNodes(env: Env, ops: seq<Op>, events: seq<Event>, h: TxHash)
    requires AllReturned(Interleave(env, ops, events).calls)
    ensures var start, s := Execute(env, ops), Interleave(env, ops, events);
            h in s.Dag().nodes <==> h in start.dag.nodes || NewHash(env, s.run.past, |start.past|, h)
  {
    NoNodeLost(env, ops, events);
    var start, s := Execute(env, ops), Interleave(env, ops, events);
    SettledNodes(env, s.run.past, s.Dag().nodes, s.calls, |start.past|, start.dag.nodes, h);
  }

  lemma SettledNodes(env: Env, past: seq<Past>, nodes: Nodes, calls: map<Tid, Call>, n: nat, start: Nodes, h: TxHash)
    requires Stored(env, past, nodes, calls, n) && Sourced(env, past, nodes, calls, n, start)
    requires AllReturned(calls)
    ensures h in nodes <==> h in start || NewHash(env, past, n, h)
  {
    if i :| n <= i < |past| && env.hash(past[i].tx) == h {
      assert !AwaitsNode(calls, past[i].tx);
    }
  }
}
