/** Adding and removing tips concurrently. Each operation touches the three structures of the selector
    one after the other, and others may come in between. */
module TipAccess {
  import opened Core

  type Tid = nat

  /** An operation on one tip and how many of the three structures it has reached. */
  datatype TipCall = TipCall(h: TxHash, adds: bool, reached: nat)

  /** The hashes in `tips`, `weights` and `added_at`, and every operation ever begun. */
  datatype State = State(tips: set<TxHash>, weights: set<TxHash>, ages: set<TxHash>, calls: map<Tid, TipCall>)
  {
    /** Whether structure 1, 2 or 3 holds `h`. */
    predicate Has(part: nat, h: TxHash) {
      if part == 1 then h in tips else if part == 2 then h in weights else h in ages
    }
  }

  datatype Event = Begin(t: Tid, h: TxHash, adds: bool) | Tick(t: Tid)

  function Put(s: set<TxHash>, c: TipCall): set<TxHash> { if c.adds then s + {c.h} else s - {c.h} }

  function Next(s: State, e: Event): State {
    match e
    case Begin(t, h, adds) => if t in s.calls then s else s.(calls := s.calls[t := TipCall(h, adds, 0)])
    case Tick(t) =>
      if t !in s.calls || s.calls[t].reached >= 3 then s else
        var c := s.calls[t];
        var calls := s.calls[t := c.(reached := c.reached + 1)];
        if c.reached == 0 then s.(tips := Put(s.tips, c), calls := calls)
        else if c.reached == 1 then s.(weights := Put(s.weights, c), calls := calls)
        else s.(ages := Put(s.ages, c), calls := calls)
  }

  function Run(start: set<TxHash>, events: seq<Event>): State {
    if events == [] then State(start, start, start, map[])
    else Next(Run(start, events[..|events| - 1]), events[|events| - 1])
  }

  ghost predicate Unfinished(s: State, t: Tid) { t in s.calls && s.calls[t].reached < 3 }

  /** Unfinished operations on one hash all remove it, unless there is only one. */
  ghost predicate Apart(s: State) {
    forall t, u :: Unfinished(s, t) && Unfinished(s, u) && t != u && s.calls[t].h == s.calls[u].h ==> !s.calls[t].adds
  }

  /** What an unfinished operation has reached shows its effect. */
  ghost predicate Effective(s: State) {
    forall t, part :: Unfinished(s, t) && 1 <= part <= s.calls[t].reached ==>
      s.Has(part, s.calls[t].h) == s.calls[t].adds
  }

  ghost predicate Unreached(s: State, part: nat, h: TxHash) {
    forall t :: Unfinished(s, t) && s.calls[t].h == h ==> s.calls[t].reached < part
  }

  /** Structures that no unfinished operation on `h` has reached agree about it. */
  ghost predicate RestAgrees(s: State) {
    forall p, q, h :: 1 <= p <= 3 && 1 <= q <= 3 && Unreached(s, p, h) && Unreached(s, q, h) ==>
      s.Has(p, h) == s.Has(q, h)
  }

  ghost predicate Inv(s: State) { Apart(s) && Effective(s) && RestAgrees(s) }

  lemma TickEffect(s: State, t: Tid, part: nat, h: TxHash)
    requires Unfinished(s, t) && 1 <= part <= 3
    ensures var c, after := s.calls[t], Next(s, Tick(t));
            && after.calls == s.calls[t := c.(reached := c.reached + 1)]
            && after.Has(part, h) == if part == c.reached + 1 && h == c.h then c.adds else s.Has(part, h)
  {}

  lemma TickKeepsEffective(s: State, t: Tid)
    requires Inv(s) && Unfinished(s, t)
    ensures Effective(Next(s, Tick(t)))
  {
    var c, after := s.calls[t], Next(s, Tick(t));
    forall u, part | Unfinished(after, u) && 1 <= part <= after.calls[u].reached
      ensures after.Has(part, after.calls[u].h) == after.calls[u].adds
    {
      TickEffect(s, t, part, after.calls[u].h);
      assert u != t ==> Unfinished(s, u);
    }
  }

  lemma TickKeepsRest(s: State, t: Tid, p: nat, q: nat, h: TxHash)
    requires Inv(s) && Unfinished(s, t) && 1 <= p <= 3 && 1 <= q <= 3
    requires Unreached(Next(s, Tick(t)), p, h) && Unreached(Next(s, Tick(t)), q, h)
    ensures Next(s, Tick(t)).Has(p, h) == Next(s, Tick(t)).Has(q, h)
  {
    var c, after := s.calls[t], Next(s, Tick(t));
    TickEffect(s, t, p, h);
    TickEffect(s, t, q, h);
    assert forall u :: u != t && Unfinished(s, u) ==> Unfinished(after, u) && after.calls[u] == s.calls[u];
    if h != c.h || c.reached + 1 < 3 {
      assert h == c.h ==> Unfinished(after, t);
    } else {
      assert s.Has(1, h) == s.Has(2, h) == c.adds;
    }
  }

  lemma NextKeepsInv(s: State, e: Event)
    requires Inv(s) && Apart(Next(s, e))
    ensures Inv(Next(s, e))
  {
    var after := Next(s, e);
    if e.Tick? && Unfinished(s, e.t) {
      TickKeepsEffective(s, e.t);
      forall p, q, h | 1 <= p <= 3 && 1 <= q <= 3 && Unreached(after, p, h) && Unreached(after, q, h)
        ensures after.Has(p, h) == after.Has(q, h)
      {
        TickKeepsRest(s, e.t, p, q, h);
      }
    } else if e.Begin? && e.t !in s.calls {
      BeginKeepsInv(s, e.t, e.h, e.adds);
    }
  }

  lemma BeginKeepsInv(s: State, t: Tid, h: TxHash, adds: bool)
    requires Inv(s) && t !in s.calls && Apart(Next(s, Begin(t, h, adds)))
    ensures Inv(Next(s, Begin(t, h, adds)))
  {
    var after := Next(s, Begin(t, h, adds));
    forall u, part | Unfinished(after, u) && 1 <= part <= after.calls[u].reached
      ensures after.Has(part, after.calls[u].h) == after.calls[u].adds
    {
      assert u != t && Unfinished(s, u) && after.calls[u] == s.calls[u];
      assert s.Has(part, s.calls[u].h) == s.calls[u].adds;
    }
    forall p, g | Unreached(after, p, g)
      ensures Unreached(s, p, g)
    {
      forall u | Unfinished(s, u) && s.calls[u].h == g
        ensures s.calls[u].reached < p
      {
        assert Unfinished(after, u);
      }
    }
    forall p, q, g | 1 <= p <= 3 && 1 <= q <= 3 && Unreached(after, p, g) && Unreached(after, q, g)
      ensures after.Has(p, g) == after.Has(q, g)
    {
      assert Unreached(s, p, g) && Unreached(s, q, g);
    }
  }

  ghost predicate AlwaysApart(start: set<TxHash>, events: seq<Event>) {
    forall n :: 0 <= n <= |events| ==> Apart(Run(start, events[..n]))
  }

  lemma {:induction false} RunKeepsInv(start: set<TxHash>, events: seq<Event>)
    requires AlwaysApart(start, events)
    ensures Inv(Run(start, events))
  {
    if events != [] {
      var init := events[..|events| - 1];
      assert forall n :: 0 <= n <= |init| ==> init[..n] == events[..n];
      RunKeepsInv(start, init);
      assert events[..|events|] == events;
      NextKeepsInv(Run(start, init), events[|events| - 1]);
    }
  }

  /** Whatever the interleaving: if a hash is never added while another operation on it is under way,
      the three structures hold the same hashes whenever all operations have finished. */
  lemma FinishedStructuresAgree(start: set<TxHash>, events: seq<Event>)
    requires AlwaysApart(start, events) && forall t :: !Unfinished(Run(start, events), t)
    ensures var s := Run(start, events); s.tips == s.weights == s.ages
  {
    RunKeepsInv(start, events);
    FinishedAgree(Run(start, events));
  }

  lemma FinishedAgree(s: State)
    requires Inv(s) && forall t :: !Unfinished(s, t)
    ensures s.tips == s.weights == s.ages
  {
    forall h
      ensures s.Has(1, h) == s.Has(2, h) == s.Has(3, h)
    {
      assert Unreached(s, 1, h) && Unreached(s, 2, h) && Unreached(s, 3, h);
    }
    assert forall h :: h in s.tips <==> s.Has(1, h);
    assert forall h :: h in s.weights <==> s.Has(2, h);
    assert forall h :: h in s.ages <==> s.Has(3, h);
  }

  ghost function Stage(h: TxHash, tips: set<TxHash>, weights: set<TxHash>, ages: set<TxHash>, added: nat,
                       removed: nat): State {
    State(tips, weights, ages, map[0 := TipCall(h, true, added), 1 := TipCall(h, false, removed)])
  }

  /** The condition is needed: an add that a remove of the same hash overtakes leaves a weight and an age
      without a tip. */
  lemma OvertakenAddDisagrees(h: TxHash) returns (events: seq<Event>)
    ensures var s := Run({}, events);
            && (forall t :: !Unfinished(s, t)) && s.tips == {} && s.weights == {h} && s.ages == {h}
  {
    events := [Begin(0, h, true), Begin(1, h, false)];
    BothBegun(h);
    events := Then(events, h, {}, {}, {}, 0, 0, Tick(0));
    events := Then(events, h, {h}, {}, {}, 1, 0, Tick(1));
    events := Then(events, h, {}, {}, {}, 1, 1, Tick(1));
    events := Then(events, h, {}, {}, {}, 1, 2, Tick(1));
    events := Then(events, h, {}, {}, {}, 1, 3, Tick(0));
    events := Then(events, h, {}, {h}, {}, 2, 3, Tick(0));
    assert {} + {h} == {h} && {h} - {h} == {};
  }

  lemma BothBegun(h: TxHash)
    ensures Run({}, [Begin(0, h, true), Begin(1, h, false)]) == Stage(h, {}, {}, {}, 0, 0)
  {
    var a, b := Begin(0, h, true), Begin(1, h, false);
    RunSnoc({}, [], a);
    RunSnoc({}, [a], b);
    assert [] + [a] == [a] && [a] + [b] == [a, b];
    assert map[0 := TipCall(h, true, 0)][1 := TipCall(h, false, 0)]
        == map[0 := TipCall(h, true, 0), 1 := TipCall(h, false, 0)];
  }

  lemma Then(events: seq<Event>, h: TxHash, tips: set<TxHash>, weights: set<TxHash>, ages: set<TxHash>,
             added: nat, removed: nat, e: Event) returns (more: seq<Event>)
    requires Run({}, events) == Stage(h, tips, weights, ages, added, removed)
    requires (e == Tick(0) && added < 3) || (e == Tick(1) && removed < 3)
    ensures var adds, reached := e == Tick(0), if e == Tick(0) then added else removed;
            Run({}, more) == Stage(h, if reached == 0 then Put(tips, TipCall(h, adds, 0)) else tips,
                                   if reached == 1 then Put(weights, TipCall(h, adds, 1)) else weights,
                                   if reached == 2 then Put(ages, TipCall(h, adds, 2)) else ages,
                                   if adds then added + 1 else added, if adds then removed else removed + 1)
  {
    RunSnoc({}, events, e);
    more := events + [e];
    var calls := Stage(h, tips, weights, ages, added, removed).calls;
    assert calls[0 := TipCall(h, true, added + 1)]
        == map[0 := TipCall(h, true, added + 1), 1 := TipCall(h, false, removed)];
    assert calls[1 := TipCall(h, false, removed + 1)]
        == map[0 := TipCall(h, true, added), 1 := TipCall(h, false, removed + 1)];
  }

  lemma RunSnoc(start: set<TxHash>, events: seq<Event>, e: Event)
    ensures Run(start, events + [e]) == Next(Run(start, events), e)
  {
    assert (events + [e])[..|events|] == events;
  }
}
