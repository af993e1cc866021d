/** Concurrent inserts with every tip operation taken access by access. A call leaves the step in which it
    removes or adds a tip only when the operation has reached all three structures of the selector, and
    other calls may come in between. */
module TipSteps {
  import opened Core
  import opened Dags
  import opened History
  import opened Structure
  import opened Concurrent
  import opened Presence
  import opened Quiescence
  import TipAccess

  /** The inserts, whose own tip set changes when a call leaves such a step, and the three structures. */
  datatype Joint = Joint(base: State, access: TipAccess.State)

  datatype Move = Plain(e: Event) | Access(t: Tid)

  /** The operation of call `t` at tip step `pc`; a call has three of them. */
  function OpId(t: Tid, pc: Pc): TipAccess.Tid
    requires MovingTips(pc)
  {
    3 * t + Rank(pc) - Rank(DropTip1)
  }

  predicate AtTip(p: Joint, t: Tid) { t in p.base.calls && MovingTips(p.base.calls[t].pc) }

  /** How many structures the operation at hand of call `t` has reached. */
  function Reach(p: Joint, t: Tid): nat
    requires AtTip(p, t)
  {
    var id := OpId(t, p.base.calls[t].pc);
    if id in p.access.calls then p.access.calls[id].reached else 0
  }

  ghost function After(env: Env, p: Joint, m: Move): Joint {
    match m
    case Plain(e) =>
      if e.Tick? && AtTip(p, e.t) && Reach(p, e.t) < 3 then p else p.(base := Next(env, p.base, e))
    case Access(t) =>
      if !AtTip(p, t) then p else
        var c := p.base.calls[t];
        var id := OpId(t, c.pc);
        p.(access := TipAccess.Next(p.access,
          if id in p.access.calls then TipAccess.Tick(id) else TipAccess.Begin(id, TipAtHand(env, c), c.pc.AddTip?)))
  }

  ghost function Begun(env: Env, ops: seq<Op>): Joint {
    var tips := Execute(env, ops).dag.tips;
    Joint(State(Execute(env, ops), map[], map[]), TipAccess.State(tips, tips, tips, map[]))
  }

  /** Any interleaving of the inserts and of the accesses of their tip operations. */
  ghost function Play(env: Env, ops: seq<Op>, moves: seq<Move>): Joint {
    if moves == [] then Begun(env, ops) else After(env, Play(env, ops, moves[..|moves| - 1]), moves[|moves| - 1])
  }

  /** The inserts alone see an interleaving. */
  lemma {:induction false} PlayInterleaves(env: Env, ops: seq<Op>, moves: seq<Move>) returns (events: seq<Event>)
    ensures Play(env, ops, moves).base == Interleave(env, ops, events)
  {
    if moves == [] {
      events := [];
    } else {
      var before, m := Play(env, ops, moves[..|moves| - 1]), moves[|moves| - 1];
      events := PlayInterleaves(env, ops, moves[..|moves| - 1]);
      if m.Plain? && After(env, before, m).base != before.base {
        assert (events + [m.e])[..|events|] == events;
        events := events + [m.e];
      }
    }
  }

  // ---- The invariant -------------------------------------------------------------------------

  /** Operation `id` belongs to the call `id / 3`: it is finished, or the call is at its step. */
  ghost predicate Owned(env: Env, calls: Calls, id: TipAccess.Tid, op: TipAccess.TipCall) {
    var t := id / 3;
    && t in calls
    && var step := Rank(calls[t].pc) - Rank(DropTip1);
       && id % 3 <= step
       && (id % 3 < step ==> op.reached >= 3)
       && (id % 3 == step ==> op.h == TipAtHand(env, calls[t]) && (op.adds <==> calls[t].pc.AddTip?))
  }

  ghost predicate AllOwned(env: Env, p: Joint) {
    forall id :: id in p.access.calls ==> Owned(env, p.base.calls, id, p.access.calls[id])
  }

  /** A hash that one call is adding is at no other call's hand. */
  ghost predicate HandsApart(env: Env, calls: Calls) {
    forall t, u :: t in calls && u in calls && t != u && calls[t].pc.AddTip? && MovingTips(calls[u].pc) ==>
      TipAtHand(env, calls[u]) != TipAtHand(env, calls[t])
  }

  ghost predicate Underway(env: Env, p: Joint, t: Tid, h: TxHash) {
    AtTip(p, t) && Reach(p, t) >= 1 && TipAtHand(env, p.base.calls[t]) == h
  }

  /** An operation under way has taken effect on the first structure; elsewhere that structure is the tip
      set of the inserts. */
  ghost predicate FirstAgrees(env: Env, p: Joint) {
    && (forall t, h :: Underway(env, p, t, h) ==> (h in p.access.tips <==> p.base.calls[t].pc.AddTip?))
    && (forall h :: (forall t :: !Underway(env, p, t, h)) ==> (h in p.access.tips <==> h in p.base.Dag().tips))
  }

  ghost predicate JointInv(env: Env, p: Joint) {
    AllOwned(env, p) && TipAccess.Inv(p.access) && FirstAgrees(env, p)
  }

  lemma OwnedApart(env: Env, p: Joint)
    requires AllOwned(env, p) && HandsApart(env, p.base.calls)
    ensures TipAccess.Apart(p.access)
  {
    var ops, calls := p.access.calls, p.base.calls;
    forall i, j | i != j && TipAccess.Unfinished(p.access, i) && TipAccess.Unfinished(p.access, j)
      ensures ops[i].h == ops[j].h ==> !ops[i].adds
    {
      assert Owned(env, calls, i, ops[i]) && Owned(env, calls, j, ops[j]);
      assert MovingTips(calls[i / 3].pc) && MovingTips(calls[j / 3].pc);
      assert i / 3 != j / 3;
    }
  }

  // ---- Each move ---------------------------------------------------------------------------------

  lemma LinkRank(env: Env, nodes: Nodes, tips: set<TxHash>, maxDepth: nat, c: Call)
    requires Linking(c.pc)
    ensures MovingTips(c.pc) ==> Follows(LinkCall(env, nodes, maxDepth, c).pc, c.pc)
    ensures Rank(c.pc) > Rank(AddTip) ==> Rank(LinkCall(env, nodes, maxDepth, c).pc) > Rank(AddTip)
    ensures !MovingTips(c.pc) ==> LinkTips(env, tips, c) == tips
  {}

  lemma StepRank(env: Env, s: State, t: Tid, supplyOk: bool)
    requires t in s.calls
    ensures var pc, pc' := s.calls[t].pc, Next(env, s, Tick(t, supplyOk)).calls[t].pc;
            && (MovingTips(pc) ==> Follows(pc', pc))
            && (Rank(pc) > Rank(AddTip) ==> Rank(pc') > Rank(AddTip))
    ensures Next(env, s, Tick(t, supplyOk)).Dag().tips
         == if MovingTips(s.calls[t].pc) then LinkTips(env, s.Dag().tips, s.calls[t]) else s.Dag().tips
  {
    if Linking(s.calls[t].pc) {
      LinkRank(env, s.Dag().nodes, s.Dag().tips, s.Dag().maxDepth, s.calls[t]);
    } else {
      TickFrame(env, s, t, supplyOk);
    }
  }

  lemma PlainOwned(env: Env, p: Joint, t: Tid, c: Call)
    requires AllOwned(env, p) && t in p.base.calls
    requires var pc := p.base.calls[t].pc;
             && (MovingTips(pc) ==> Follows(c.pc, pc) && Reach(p, t) >= 3)
             && (Rank(pc) > Rank(AddTip) ==> Rank(c.pc) > Rank(AddTip))
    ensures AllOwned(env, p.(base := p.base.(calls := p.base.calls[t := c])))
  {
    var ops, calls := p.access.calls, p.base.calls;
    forall id | id in ops
      ensures Owned(env, calls[t := c], id, ops[id])
    {
      assert Owned(env, calls, id, ops[id]);
      if id / 3 == t && MovingTips(calls[t].pc) && id % 3 == Rank(calls[t].pc) - Rank(DropTip1) {
        assert id == OpId(t, calls[t].pc);
      }
    }
  }

  lemma LinkTipsAt(env: Env, tips: set<TxHash>, c: Call, h: TxHash)
    requires MovingTips(c.pc)
    ensures h in LinkTips(env, tips, c) <==> if h == TipAtHand(env, c) then c.pc.AddTip? else h in tips
  {
    PhaseMembers(c.pc);
  }

  lemma FreshStep(env: Env, p: Joint, t: Tid, pc: Pc)
    requires AllOwned(env, p) && t in p.base.calls && MovingTips(pc) && Rank(p.base.calls[t].pc) < Rank(pc)
    ensures OpId(t, pc) !in p.access.calls
  {
    var id := OpId(t, pc);
    assert id / 3 == t && id % 3 == Rank(pc) - Rank(DropTip1);
    assert id in p.access.calls ==> Owned(env, p.base.calls, id, p.access.calls[id]);
  }

  /** A call takes a step of its own: what it leaves behind at a tip step is what the inserts do there. */
  lemma PlainFirst(env: Env, p: Joint, t: Tid, p': Joint)
    requires AllOwned(env, p) && FirstAgrees(env, p) && t in p.base.calls && p'.access == p.access
    requires t in p'.base.calls && p'.base.calls == p.base.calls[t := p'.base.calls[t]]
    requires var c, pc', tips := p.base.calls[t], p'.base.calls[t].pc, p.base.Dag().tips;
             && (MovingTips(pc') ==> Rank(c.pc) < Rank(pc'))
             && (MovingTips(c.pc) ==> Reach(p, t) >= 1)
             && p'.base.Dag().tips == if MovingTips(c.pc) then LinkTips(env, tips, c) else tips
    ensures FirstAgrees(env, p')
  {
    var c, tips, tips' := p.base.calls[t], p.base.Dag().tips, p'.base.Dag().tips;
    if MovingTips(p'.base.calls[t].pc) {
      FreshStep(env, p, t, p'.base.calls[t].pc);
    }
    assert forall u, h :: u != t ==> (Underway(env, p', u, h) <==> Underway(env, p, u, h));
    assert forall h :: !Underway(env, p', t, h);
    forall h | forall u :: !Underway(env, p', u, h)
      ensures h in p.access.tips <==> h in tips'
    {
      if MovingTips(c.pc) {
        LinkTipsAt(env, tips, c, h);
        if h == TipAtHand(env, c) {
          assert Underway(env, p, t, h);
        } else {
          assert forall u :: !Underway(env, p, u, h);
        }
      } else {
        assert forall u :: !Underway(env, p, u, h);
      }
    }
  }

  lemma TickKeeps(env: Env, p: Joint, t: Tid, supplyOk: bool)
    requires JointInv(env, p) && t in p.base.calls && (AtTip(p, t) ==> Reach(p, t) >= 3)
    ensures JointInv(env, p.(base := Next(env, p.base, Tick(t, supplyOk))))
  {
    var p' := p.(base := Next(env, p.base, Tick(t, supplyOk)));
    TickFrame(env, p.base, t, supplyOk);
    StepRank(env, p.base, t, supplyOk);
    PlainOwned(env, p, t, p'.base.calls[t]);
    PlainFirst(env, p, t, p');
  }

  lemma BeginKeeps(env: Env, p: Joint, t: Tid, tx: Transaction)
    requires JointInv(env, p) && t !in p.base.calls
    ensures JointInv(env, p.(base := Next(env, p.base, Begin(t, tx))))
  {
    var p' := p.(base := Next(env, p.base, Begin(t, tx)));
    forall id | id in p.access.calls
      ensures Owned(env, p'.base.calls, id, p.access.calls[id])
    {
      assert Owned(env, p.base.calls, id, p.access.calls[id]);
    }
    assert forall u, h :: Underway(env, p', u, h) <==> Underway(env, p, u, h);
  }

  /** An operation is announced, and has reached nothing yet. */
  lemma OpenKeeps(env: Env, p: Joint, t: Tid, p': Joint)
    requires JointInv(env, p) && HandsApart(env, p.base.calls) && AtTip(p, t) && p' == After(env, p, Access(t))
    requires OpId(t, p.base.calls[t].pc) !in p.access.calls
    ensures JointInv(env, p')
  {
    var c := p.base.calls[t];
    var id := OpId(t, c.pc);
    assert id / 3 == t && id % 3 == Rank(c.pc) - Rank(DropTip1);
    forall i | i in p'.access.calls
      ensures Owned(env, p.base.calls, i, p'.access.calls[i])
    {
      assert i != id ==> Owned(env, p.base.calls, i, p.access.calls[i]);
    }
    OwnedApart(env, p');
    TipAccess.NextKeepsInv(p.access, TipAccess.Begin(id, TipAtHand(env, c), c.pc.AddTip?));
    assert forall u, h :: Underway(env, p', u, h) <==> Underway(env, p, u, h);
  }

  lemma AccessOwned(env: Env, p: Joint, t: Tid, p': Joint)
    requires AllOwned(env, p) && AtTip(p, t) && p' == After(env, p, Access(t))
    requires OpId(t, p.base.calls[t].pc) in p.access.calls
    ensures AllOwned(env, p')
  {
    forall i | i in p'.access.calls
      ensures Owned(env, p.base.calls, i, p'.access.calls[i])
    {
      assert Owned(env, p.base.calls, i, p.access.calls[i]);
    }
  }

  /** The first access puts the operation into effect. */
  lemma AccessFirst(env: Env, p: Joint, t: Tid, p': Joint)
    requires AllOwned(env, p) && FirstAgrees(env, p) && HandsApart(env, p.base.calls)
    requires AtTip(p, t) && p' == After(env, p, Access(t)) && OpId(t, p.base.calls[t].pc) in p.access.calls
    ensures FirstAgrees(env, p')
  {
    var c, id := p.base.calls[t], OpId(t, p.base.calls[t].pc);
    assert id / 3 == t && id % 3 == Rank(c.pc) - Rank(DropTip1);
    assert Owned(env, p.base.calls, id, p.access.calls[id]);
    forall u, h | u != t
      ensures Underway(env, p', u, h) <==> Underway(env, p, u, h)
    {
      assert AtTip(p, u) ==> OpId(u, p.base.calls[u].pc) != id;
    }
    if Reach(p, t) >= 1 {
      assert forall h :: Underway(env, p', t, h) <==> Underway(env, p, t, h);
    } else {
      FirstEffect(env, p, t, p');
    }
  }

  lemma FirstEffect(env: Env, p: Joint, t: Tid, p': Joint)
    requires FirstAgrees(env, p) && HandsApart(env, p.base.calls) && AtTip(p, t) && p'.base == p.base
    requires forall u, h :: u != t ==> (Underway(env, p', u, h) <==> Underway(env, p, u, h))
    requires Reach(p, t) == 0 && Reach(p', t) == 1
    requires var c := p.base.calls[t];
             p'.access.tips == TipAccess.Put(p.access.tips, TipAccess.TipCall(TipAtHand(env, c), c.pc.AddTip?, 0))
    ensures FirstAgrees(env, p')
  {
    var c := p.base.calls[t];
    assert Underway(env, p', t, TipAtHand(env, c));
    forall u, h | Underway(env, p', u, h)
      ensures h in p'.access.tips <==> p.base.calls[u].pc.AddTip?
    {}
    forall h | forall u :: !Underway(env, p', u, h)
      ensures h in p'.access.tips <==> h in p.base.Dag().tips
    {
      assert forall u :: !Underway(env, p, u, h);
    }
  }

  lemma AccessKeeps(env: Env, p: Joint, t: Tid)
    requires JointInv(env, p) && HandsApart(env, p.base.calls)
    ensures JointInv(env, After(env, p, Access(t)))
  {
    var p' := After(env, p, Access(t));
    if AtTip(p, t) {
      var id := OpId(t, p.base.calls[t].pc);
      if id in p.access.calls {
        AccessOwned(env, p, t, p');
        OwnedApart(env, p');
        TipAccess.NextKeepsInv(p.access, TipAccess.Tick(id));
        AccessFirst(env, p, t, p');
      } else {
        OpenKeeps(env, p, t, p');
      }
    }
  }

  lemma MoveKeeps(env: Env, p: Joint, m: Move)
    requires JointInv(env, p) && HandsApart(env, p.base.calls)
    ensures JointInv(env, After(env, p, m))
  {
    match m
    case Plain(Begin(t, tx)) =>
      if t !in p.base.calls {
        BeginKeeps(env, p, t, tx);
      }
    case Plain(Tick(t, supplyOk)) =>
      if t in p.base.calls && (AtTip(p, t) ==> Reach(p, t) >= 3) {
        TickKeeps(env, p, t, supplyOk);
      }
    case Access(t) => AccessKeeps(env, p, t);
  }

  // ---- Every interleaving ------------------------------------------------------------------------

  lemma PlayedApart(env: Env, ops: seq<Op>, moves: seq<Move>)
    requires Clean(env, Play(env, ops, moves).base.run.past)
    ensures HandsApart(env, Play(env, ops, moves).base.calls)
  {
    var calls := Play(env, ops, moves).base.calls;
    var events := PlayInterleaves(env, ops, moves);
    forall t, u | t in calls && u in calls && t != u && calls[t].pc.AddTip? && MovingTips(calls[u].pc)
      ensures TipAtHand(env, calls[u]) != TipAtHand(env, calls[t])
    {
      TipOperationsApart(env, ops, events, t, u);
    }
  }

  lemma BegunKeeps(env: Env, ops: seq<Op>)
    ensures JointInv(env, Begun(env, ops))
  {}

  lemma {:induction false} PlayKeepsInv(env: Env, ops: seq<Op>, moves: seq<Move>)
    requires Clean(env, Play(env, ops, moves).base.run.past)
    ensures JointInv(env, Play(env, ops, moves))
  {
    if moves == [] {
      BegunKeeps(env, ops);
    } else {
      var init, m := moves[..|moves| - 1], moves[|moves| - 1];
      if m.Plain? {
        CleanBefore(env, Play(env, ops, init).base, m.e);
      }
      PlayKeepsInv(env, ops, init);
      PlayedApart(env, ops, init);
      MoveKeeps(env, Play(env, ops, init), m);
    }
  }

  /** Whatever the interleaving of inserts and of single accesses to the tip structures, once all calls
      have returned the three structures hold the same hashes, and these are the recorded ones that no
      transaction of the history names as a parent. */
  lemma ReturnedTipsAgree(env: Env, ops: seq<Op>, moves: seq<Move>)
    requires Clean(env, Play(env, ops, moves).base.run.past)
    requires AllReturned(Play(env, ops, moves).base.calls)
    ensures var p := Play(env, ops, moves);
            && p.access.tips == p.access.weights == p.access.ages
            && TipsAgree(env, p.base.run.past, p.access.tips)
  {
    var p := Play(env, ops, moves);
    PlayKeepsInv(env, ops, moves);
    var events := PlayInterleaves(env, ops, moves);
    AllReturnedAgrees(env, ops, events);
    ReturnedFinish(env, p);
    TipAccess.FinishedAgree(p.access);
  }

  lemma ReturnedFinish(env: Env, p: Joint)
    requires JointInv(env, p) && AllReturned(p.base.calls)
    ensures p.access.tips == p.base.Dag().tips && forall id :: !TipAccess.Unfinished(p.access, id)
  {
    forall id {
      ReturnedOwner(env, p, id);
    }
    forall h
      ensures h in p.access.tips <==> h in p.base.Dag().tips
    {
      assert forall t :: !Underway(env, p, t, h);
    }
  }

  lemma ReturnedOwner(env: Env, p: Joint, id: TipAccess.Tid)
    requires AllOwned(env, p) && AllReturned(p.base.calls)
    ensures !TipAccess.Unfinished(p.access, id)
  {
    assert id in p.access.calls ==> Owned(env, p.base.calls, id, p.access.calls[id]);
  }
}
