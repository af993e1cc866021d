/** Every run of votes and validator changes: what each finality event rests on. */
module Finality {
  import opened Core
  import opened Ledgers
  import opened Dags
  import opened Consensus

  /** What happened, in order: votes that entered a tally, with the validators at that moment, the position
      in the log, the time the vote gives and the time of the call; and finality events. */
  datatype Entry =
    | Ballot(tx: TxHash, voter: NodeId, accept: bool, power: nat, validators: map<NodeId, u64>, position: nat,
             timestamp: u64, now: u64)
    | Final(tx: TxHash, accepted: bool)

  datatype Op =
    | Receive(vote: Vote, now: u64)
    | Register(id: NodeId, power: u64)
    | Replace(validators: map<NodeId, u64>, totalPower: u64)

  datatype Run = Run(engine: Engine, log: seq<Entry>)

  /** The ballot a vote adds to the log; none when its voter is already in the open tally. */
  ghost function Cast(r: Run, v: Vote, now: u64): Option<Entry>
    requires v.voter in r.engine.validators
  {
    if v.voter in Lookup(r.engine.tallies, v.tx, NO_VOTES).voters then None
    else Some(Ballot(v.tx, v.voter, v.accept, Max(r.engine.validators[v.voter], 1), r.engine.validators, |r.log|,
                     v.timestamp, now))
  }

  ghost function Decision(o: Outcome, h: TxHash): Option<Entry> {
    match o
    case Accepted => Some(Final(h, true))
    case Refused => Some(Final(h, false))
    case Undecided => None
  }

  ghost function Logged(log: seq<Entry>, e: Option<Entry>): seq<Entry> {
    if e.Some? then log + [e.value] else log
  }

  ghost function AfterVote(c: Config, r: Run, v: Vote, now: u64): Run {
    if !Admitted(c, r.engine, v, now) then r else
      Run(Consensus.Receive(c, r.engine, v, now),
          Logged(Logged(r.log, Cast(r, v, now)), Decision(Evaluate(c, TallyAfter(r.engine, v)), v.tx)))
  }

  ghost function Step(c: Config, r: Run, op: Op): Run {
    match op
    case Receive(v, now) => AfterVote(c, r, v, now)
    case Register(id, p) => r.(engine := Consensus.Register(r.engine, id, p))
    case Replace(vs, total) => r.(engine := r.engine.(validators := vs, totalPower := total))
  }

  /** Runs from an engine that has no tallies yet. */
  ghost function Execute(c: Config, start: Engine, ops: seq<Op>): Run {
    if ops == [] then Run(start.(tallies := map[]), [])
    else Step(c, Execute(c, start, ops[..|ops| - 1]), ops[|ops| - 1])
  }

  /** The ballots on `h` since its last finality event. */
  ghost function Window(log: seq<Entry>, h: TxHash): seq<Entry> {
    if log == [] then [] else
      var last := log[|log| - 1];
      if last.tx != h then Window(log[..|log| - 1], h)
      else if last.Final? then []
      else Window(log[..|log| - 1], h) + [last]
  }

  ghost function AcceptPower(w: seq<Entry>): nat {
    if w == [] then 0 else
      AcceptPower(w[..|w| - 1]) + (if w[|w| - 1].Ballot? && w[|w| - 1].accept then w[|w| - 1].power else 0)
  }

  ghost function TotalPower(w: seq<Entry>): nat {
    if w == [] then 0 else TotalPower(w[..|w| - 1]) + (if w[|w| - 1].Ballot? then w[|w| - 1].power else 0)
  }

  ghost function AcceptCount(w: seq<Entry>): nat {
    if w == [] then 0 else
      AcceptCount(w[..|w| - 1]) + (if w[|w| - 1].Ballot? && w[|w| - 1].accept then 1 else 0)
  }

  ghost predicate Registered(c: Config, b: Entry) {
    && b.Ballot? && b.voter in b.validators
    && b.power == Max(b.validators[b.voter], 1) && b.validators[b.voter] >= c.minPower
  }

  /** Ballots on one transaction, all from different voters who were registered with enough power. */
  ghost predicate Genuine(c: Config, w: seq<Entry>, h: TxHash) {
    && (forall i :: 0 <= i < |w| ==> w[i].Ballot? && w[i].tx == h)
    && (forall i :: 0 <= i < |w| ==> Registered(c, w[i]))
    && (forall i, j :: 0 <= i < j < |w| ==> w[i].voter != w[j].voter)
  }

  /** A decision its ballots justify: quorum reached, enough total power, and accepted exactly when the
      accepting share reaches the threshold. */
  ghost predicate Justified(c: Config, w: seq<Entry>, h: TxHash, accepted: bool) {
    && Genuine(c, w, h)
    && |w| >= c.quorum && TotalPower(w) >= c.minTotalPower
    && (accepted <==> 10_000 * AcceptPower(w) >= c.thresholdBps * TotalPower(w))
  }

  /** The tally of `h` is the count of its current window. */
  ghost predicate TallyIs(t: Tally, w: seq<Entry>) {
    && t.accept == AcceptCount(w) && t.accept + t.reject == |w|
    && t.acceptWeight == AcceptPower(w) && t.acceptWeight + t.rejectWeight == TotalPower(w)
    && (forall v :: v in t.voters <==> exists i :: 0 <= i < |w| && w[i].Ballot? && w[i].voter == v)
  }

  /** Below this many votes no weight saturates and no product overflows. */
  const MANY := 0x4_0000_0000_0000

  ghost predicate TxOk(c: Config, r: Run, h: TxHash) {
    var w := Window(r.log, h);
    && TallyIs(Lookup(r.engine.tallies, h, NO_VOTES), w) && Genuine(c, w, h)
    && (h in r.engine.tallies ==> w != [] && Evaluate(c, r.engine.tallies[h]) == Undecided)
  }

  lemma {:induction false} PowerBounded(c: Config, w: seq<Entry>, h: TxHash)
    requires Genuine(c, w, h)
    ensures AcceptPower(w) <= TotalPower(w) <= |w| * TWO64
    ensures |w| <= TotalPower(w) && AcceptCount(w) <= |w|
  {
    if w != [] {
      PowerBounded(c, w[..|w| - 1], h);
    }
  }

  lemma Snoc(w: seq<Entry>, b: Entry)
    ensures AcceptPower(w + [b]) == AcceptPower(w) + (if b.Ballot? && b.accept then b.power else 0)
    ensures TotalPower(w + [b]) == TotalPower(w) + (if b.Ballot? then b.power else 0)
    ensures AcceptCount(w + [b]) == AcceptCount(w) + (if b.Ballot? && b.accept then 1 else 0)
  {
    assert (w + [b])[..|w|] == w;
  }

  lemma WindowSnoc(log: seq<Entry>, b: Entry, h: TxHash)
    ensures Window(log + [b], h) ==
            if b.tx != h then Window(log, h) else if b.Final? then [] else Window(log, h) + [b]
  {
    assert (log + [b])[..|log|] == log;
  }

  lemma {:induction false} WindowShorter(log: seq<Entry>, h: TxHash)
    ensures |Window(log, h)| <= |log|
  {
    if log != [] {
      WindowShorter(log[..|log| - 1], h);
    }
  }

  /** Counting one more vote extends the window by one ballot. */
  lemma CountExtends(c: Config, t: Tally, w: seq<Entry>, b: Entry, h: TxHash)
    requires TallyIs(t, w) && Genuine(c, w, h) && |w| < MANY
    requires Registered(c, b) && b.tx == h && b.voter !in t.voters
    ensures TallyIs(Counted(t, b.voter, b.accept, b.validators[b.voter]), w + [b]) && Genuine(c, w + [b], h)
  {
    PowerBounded(c, w, h);
    TallyExtends(c, t, w, b);
    GenuineExtends(c, t, w, b, h);
  }

  lemma TallyExtends(c: Config, t: Tally, w: seq<Entry>, b: Entry)
    requires TallyIs(t, w) && Registered(c, b) && b.voter !in t.voters
    requires AcceptPower(w) <= TotalPower(w) <= |w| * TWO64 && |w| < MANY
    ensures TallyIs(Counted(t, b.voter, b.accept, b.validators[b.voter]), w + [b])
  {
    Snoc(w, b);
    var now := w + [b];
    assert now[|w|] == b && forall i :: 0 <= i < |w| ==> now[i] == w[i];
  }

  lemma GenuineExtends(c: Config, t: Tally, w: seq<Entry>, b: Entry, h: TxHash)
    requires TallyIs(t, w) && Genuine(c, w, h) && Registered(c, b) && b.tx == h && b.voter !in t.voters
    ensures Genuine(c, w + [b], h)
  {}

  /** The wrapping, flooring arithmetic of `evaluate` decides exactly the inequality between shares. */
  lemma EvaluateDecides(c: Config, t: Tally, w: seq<Entry>, h: TxHash)
    requires TallyIs(t, w) && Genuine(c, w, h) && w != [] && |w| <= MANY
    ensures Evaluate(c, t) != Undecided ==> Justified(c, w, h, Evaluate(c, t) == Accepted)
    ensures Evaluate(c, t) == Undecided <==> |w| < c.quorum || TotalPower(w) < c.minTotalPower
  {
    PowerBounded(c, w, h);
    EvaluateExact(c, t);
  }

  lemma EvaluateExact(c: Config, t: Tally)
    requires 0 < t.acceptWeight + t.rejectWeight <= MANY * TWO64
    ensures var n := t.acceptWeight + t.rejectWeight;
            Evaluate(c, t) == if t.accept + t.reject < c.quorum || n < c.minTotalPower then Undecided
                              else if 10_000 * t.acceptWeight >= c.thresholdBps * n then Accepted
                              else Refused
  {
    var a, n := t.acceptWeight, t.acceptWeight + t.rejectWeight;
    ShareIsExact(a, n, c.thresholdBps);
    BpsExact(t, n);
  }

  lemma BpsExact(t: Tally, n: nat)
    requires t.acceptWeight <= n && 0 < n <= MANY * TWO64
    ensures AcceptBps(t, n) == t.acceptWeight * 10_000 / n
  {
    ShareIsExact(t.acceptWeight, n, 0);
  }

  lemma ShareIsExact(a: nat, n: nat, bps: nat)
    requires a <= n && 0 < n
    ensures a * 10_000 / n <= 10_000 < TWO64
    ensures a * 10_000 / n >= bps <==> 10_000 * a >= bps * n
  {
    var q := a * 10_000 / n;
    assert q * n <= a * 10_000 < (q + 1) * n;
    MonotoneProduct(q, 10_001, n);
    MonotoneProduct(bps, q, n);
    MonotoneProduct(q + 1, bps, n);
  }

  lemma MonotoneProduct(x: nat, y: nat, n: nat)
    ensures x <= y ==> x * n <= y * n
    ensures x >= y ==> x * n >= y * n
  {
    if x <= y {
      assert y * n == x * n + (y - x) * n;
    } else {
      assert x * n == y * n + (x - y) * n;
    }
  }

  // ---- Over every run --------------------------------------------------------------------------

  /** The engine's events, in order, are the finality entries of the log. */
  ghost function FinalsOf(log: seq<Entry>): seq<Event> {
    if log == [] then [] else
      var before, last := FinalsOf(log[..|log| - 1]), log[|log| - 1];
      if last.Final? then before + [Finalized(last.tx, last.accepted)] else before
  }

  ghost predicate FinalsJustified(c: Config, log: seq<Entry>) {
    forall i :: 0 <= i < |log| && log[i].Final? ==>
      Justified(c, Window(log[..i], log[i].tx), log[i].tx, log[i].accepted)
  }

  /** Every ballot knows its own place in the log. */
  ghost predicate Placed(log: seq<Entry>) {
    forall i :: 0 <= i < |log| && log[i].Ballot? ==> log[i].position == i
  }

  ghost predicate RunOk(c: Config, start: Engine, r: Run) {
    && (forall h :: TxOk(c, r, h))
    && FinalsJustified(c, r.log) && Placed(r.log)
    && r.engine.events == start.events + FinalsOf(r.log)
  }

  lemma CastCounts(c: Config, r: Run, v: Vote, now: u64)
    requires TxOk(c, r, v.tx) && Admitted(c, r.engine, v, now) && |r.log| < MANY
    ensures var w := Window(Logged(r.log, Cast(r, v, now)), v.tx);
            TallyIs(TallyAfter(r.engine, v), w) && Genuine(c, w, v.tx) && w != [] && |w| <= MANY
  {
    WindowShorter(r.log, v.tx);
    var t, w := Lookup(r.engine.tallies, v.tx, NO_VOTES), Window(r.log, v.tx);
    if v.voter !in t.voters {
      var b := Cast(r, v, now).value;
      WindowSnoc(r.log, b, v.tx);
      CountExtends(c, t, w, b, v.tx);
    } else {
      WindowPlus(r.log, Cast(r, v, now), v.tx);
    }
  }

  /** What one more entry, if any, does to a window. */
  lemma WindowPlus(log: seq<Entry>, e: Option<Entry>, h: TxHash)
    ensures (e.None? || e.value.tx != h) ==> Window(Logged(log, e), h) == Window(log, h)
    ensures e.Some? && e.value.tx == h && e.value.Final? ==> Window(Logged(log, e), h) == []
  {
    if e.Some? {
      WindowSnoc(log, e.value, h);
    }
  }

  lemma VoteKeepsVoted(c: Config, r: Run, v: Vote, now: u64)
    requires TxOk(c, r, v.tx) && Admitted(c, r.engine, v, now) && |r.log| < MANY
    ensures TxOk(c, AfterVote(c, r, v, now), v.tx)
  {
    CastCounts(c, r, v, now);
    var log, o, after := Logged(r.log, Cast(r, v, now)), Evaluate(c, TallyAfter(r.engine, v)), AfterVote(c, r, v, now);
    WindowPlus(log, Decision(o, v.tx), v.tx);
    if o == Undecided {
      assert Lookup(after.engine.tallies, v.tx, NO_VOTES) == TallyAfter(r.engine, v);
      assert Window(after.log, v.tx) == Window(log, v.tx);
    } else {
      NothingCounted(c, Window(after.log, v.tx), v.tx);
      assert Lookup(after.engine.tallies, v.tx, NO_VOTES) == NO_VOTES && Window(after.log, v.tx) == [];
    }
  }

  lemma NothingCounted(c: Config, w: seq<Entry>, h: TxHash)
    requires |w| == 0
    ensures TallyIs(NO_VOTES, w) && Genuine(c, w, h)
  {}

  lemma VoteKeepsOther(c: Config, r: Run, v: Vote, now: u64, h: TxHash)
    requires TxOk(c, r, h) && Admitted(c, r.engine, v, now) && h != v.tx
    ensures TxOk(c, AfterVote(c, r, v, now), h)
  {
    WindowPlus(r.log, Cast(r, v, now), h);
    WindowPlus(Logged(r.log, Cast(r, v, now)), Decision(Evaluate(c, TallyAfter(r.engine, v)), v.tx), h);
    var after := AfterVote(c, r, v, now);
    assert Window(after.log, h) == Window(r.log, h);
    assert h in after.engine.tallies <==> h in r.engine.tallies;
  }

  lemma EntriesKeepFinals(c: Config, log: seq<Entry>, e: Option<Entry>)
    requires FinalsJustified(c, log) && Placed(log)
    requires e.Some? && e.value.Ballot? ==> e.value.position == |log|
    requires e.Some? && e.value.Final? ==>
               Justified(c, Window(log, e.value.tx), e.value.tx, e.value.accepted)
    ensures FinalsJustified(c, Logged(log, e)) && Placed(Logged(log, e))
  {
    var now := Logged(log, e);
    forall i | 0 <= i < |now| && now[i].Final?
      ensures Justified(c, Window(now[..i], now[i].tx), now[i].tx, now[i].accepted)
    {
      if i < |log| {
        assert now[..i] == log[..i];
      } else {
        assert now[..i] == log;
      }
    }
  }

  lemma VoteJustifies(c: Config, r: Run, v: Vote, now: u64)
    requires TxOk(c, r, v.tx) && Admitted(c, r.engine, v, now) && |r.log| < MANY
    requires FinalsJustified(c, r.log) && Placed(r.log)
    ensures FinalsJustified(c, AfterVote(c, r, v, now).log) && Placed(AfterVote(c, r, v, now).log)
  {
    CastCounts(c, r, v, now);
    var log := Logged(r.log, Cast(r, v, now));
    EvaluateDecides(c, TallyAfter(r.engine, v), Window(log, v.tx), v.tx);
    EntriesKeepFinals(c, r.log, Cast(r, v, now));
    EntriesKeepFinals(c, log, Decision(Evaluate(c, TallyAfter(r.engine, v)), v.tx));
  }

  lemma FinalsPlus(log: seq<Entry>, e: Option<Entry>)
    ensures FinalsOf(Logged(log, e))
         == if e.Some? && e.value.Final? then FinalsOf(log) + [Finalized(e.value.tx, e.value.accepted)]
            else FinalsOf(log)
  {
    if e.Some? {
      assert (log + [e.value])[..|log|] == log;
    }
  }

  ghost function Announced(events: seq<Event>, o: Outcome, h: TxHash): seq<Event> {
    if o == Undecided then events else events + [Finalized(h, o == Accepted)]
  }

  lemma LogAppended(log: seq<Entry>, ballot: Option<Entry>, o: Outcome, h: TxHash)
    requires ballot.Some? ==> ballot.value.Ballot?
    ensures FinalsOf(Logged(Logged(log, ballot), Decision(o, h))) == Announced(FinalsOf(log), o, h)
  {
    FinalsPlus(log, ballot);
    FinalsPlus(Logged(log, ballot), Decision(o, h));
  }

  lemma VoteKeepsEvents(c: Config, start: Engine, r: Run, v: Vote, now: u64)
    requires Admitted(c, r.engine, v, now) && r.engine.events == start.events + FinalsOf(r.log)
    ensures AfterVote(c, r, v, now).engine.events == start.events + FinalsOf(AfterVote(c, r, v, now).log)
  {
    var o := Evaluate(c, TallyAfter(r.engine, v));
    LogAppended(r.log, Cast(r, v, now), o, v.tx);
    assert Consensus.Receive(c, r.engine, v, now).events == Announced(r.engine.events, o, v.tx);
    assert (start.events + FinalsOf(r.log)) + [Finalized(v.tx, o == Accepted)]
        == start.events + (FinalsOf(r.log) + [Finalized(v.tx, o == Accepted)]);
  }

  lemma VoteKeepsRun(c: Config, start: Engine, r: Run, v: Vote, now: u64)
    requires RunOk(c, start, r) && |r.log| < MANY && Admitted(c, r.engine, v, now)
    ensures RunOk(c, start, AfterVote(c, r, v, now))
  {
    forall h
      ensures TxOk(c, AfterVote(c, r, v, now), h)
    {
      if h == v.tx {
        VoteKeepsVoted(c, r, v, now);
      } else {
        VoteKeepsOther(c, r, v, now, h);
      }
    }
    VoteJustifies(c, r, v, now);
    VoteKeepsEvents(c, start, r, v, now);
  }

  lemma StepKeepsRun(c: Config, start: Engine, r: Run, op: Op)
    requires RunOk(c, start, r) && |r.log| < MANY
    ensures RunOk(c, start, Step(c, r, op))
  {
    match op
    case Receive(v, now) =>
      if Admitted(c, r.engine, v, now) {
        VoteKeepsRun(c, start, r, v, now);
      }
    case Register(_, _) => assert forall h :: TxOk(c, r, h) ==> TxOk(c, Step(c, r, op), h);
    case Replace(_, _) => assert forall h :: TxOk(c, r, h) ==> TxOk(c, Step(c, r, op), h);
  }

  lemma {:induction false} LogBounded(c: Config, start: Engine, ops: seq<Op>)
    ensures |Execute(c, start, ops).log| <= 2 * |ops|
  {
    if ops != [] {
      LogBounded(c, start, ops[..|ops| - 1]);
    }
  }

  lemma NothingYet(c: Config, start: Engine, r: Run)
    requires r.log == [] && r.engine.tallies == map[] && r.engine.events == start.events
    ensures RunOk(c, start, r)
  {
    assert start.events + [] == start.events;
    forall h
      ensures TxOk(c, r, h)
    {
      NothingCounted(c, Window(r.log, h), h);
    }
  }

  /** Over every run of votes and validator changes: every finality event is justified by its own
      window of ballots, and every tally still stored is undecided. */
  lemma {:induction false} FinalityJustified(c: Config, start: Engine, ops: seq<Op>)
    requires 2 * |ops| < MANY
    ensures RunOk(c, start, Execute(c, start, ops))
  {
    if ops == [] {
      NothingYet(c, start, Execute(c, start, ops));
    } else {
      var init := ops[..|ops| - 1];
      FinalityJustified(c, start, init);
      LogBounded(c, start, init);
      StepKeepsRun(c, start, Execute(c, start, init), ops[|ops| - 1]);
    }
  }

  /** A window holds exactly the ballots on its transaction since the last finality event before it. */
  lemma {:induction false} WindowMembers(log: seq<Entry>, h: TxHash, b: Entry)
    requires Placed(log)
    ensures b in Window(log, h) <==>
            && b.Ballot? && b.tx == h && b.position < |log| && log[b.position] == b
            && forall k :: b.position < k < |log| ==> !(log[k].Final? && log[k].tx == h)
  {
    if log != [] {
      var init, last := log[..|log| - 1], log[|log| - 1];
      SplitLast(log);
      WindowMembers(init, h, b);
      WindowSnoc(init, last, h);
    }
  }

  /** No ballot counts towards two finality events: the windows of different events are disjoint. */
  lemma WindowsDisjoint(c: Config, start: Engine, ops: seq<Op>, i: nat, j: nat, b: Entry)
    requires 2 * |ops| < MANY
    requires var log := Execute(c, start, ops).log;
             && i < j < |log| && log[i].Final? && log[j].Final?
             && b in Window(log[..i], log[i].tx)
    ensures b !in Window(Execute(c, start, ops).log[..j], Execute(c, start, ops).log[j].tx)
  {
    FinalityJustified(c, start, ops);
    var log := Execute(c, start, ops).log;
    assert Placed(log[..i]) && Placed(log[..j]);
    WindowMembers(log[..i], log[i].tx, b);
    WindowMembers(log[..j], log[j].tx, b);
    assert log[..j][i] == log[i];
  }

  ghost function LatestOn(log: seq<Entry>, h: TxHash): Option<Entry> {
    if log == [] then None
    else if log[|log| - 1].tx == h then Some(log[|log| - 1])
    else LatestOn(log[..|log| - 1], h)
  }

  lemma LatestPlus(log: seq<Entry>, e: Option<Entry>, h: TxHash)
    ensures LatestOn(Logged(log, e), h) == if e.Some? && e.value.tx == h then e else LatestOn(log, h)
  {
    if e.Some? {
      assert (log + [e.value])[..|log|] == log;
    }
  }

  /** The status of a node says what the log last said about it: confirmed or rejected exactly when its
      latest entry is that decision, voting exactly when it is a ballot. */
  ghost predicate StatusTold(start: Engine, r: Run, h: TxHash) {
    h in r.engine.nodes ==>
      match LatestOn(r.log, h)
      case None => h in start.nodes && r.engine.nodes[h].status == start.nodes[h].status
      case Some(Ballot(_, _, _, _, _, _, _, _)) => r.engine.nodes[h].status == Voting
      case Some(Final(_, accepted)) => r.engine.nodes[h].status == if accepted then Confirmed else Rejected
  }

  lemma {:induction false} OpenTallyIsLatest(log: seq<Entry>, h: TxHash)
    ensures Window(log, h) != [] <==> LatestOn(log, h).Some? && LatestOn(log, h).value.Ballot?
  {
    if log != [] {
      OpenTallyIsLatest(log[..|log| - 1], h);
    }
  }

  lemma VoteSetsStatus(c: Config, e: Engine, v: Vote, now: u64, h: TxHash)
    requires Admitted(c, e, v, now)
    ensures var after := Consensus.Receive(c, e, v, now);
            && (h in after.nodes <==> h in e.nodes)
            && (h in e.nodes && h != v.tx ==> after.nodes[h] == e.nodes[h])
            && (h in e.nodes && h == v.tx ==>
                  after.nodes[h].status == match Evaluate(c, TallyAfter(e, v))
                                           case Accepted => Confirmed
                                           case Refused => Rejected
                                           case Undecided => Voting)
  {}

  /** An undecided vote is itself the latest entry, or repeats a voter of the open tally, whose latest
      entry is a ballot. */
  lemma VoteIsLatest(c: Config, r: Run, v: Vote, now: u64, h: TxHash)
    requires TxOk(c, r, v.tx) && v.voter in r.engine.validators
    ensures var o := Evaluate(c, TallyAfter(r.engine, v));
            var latest := LatestOn(Logged(Logged(r.log, Cast(r, v, now)), Decision(o, v.tx)), h);
            if h != v.tx then latest == LatestOn(r.log, h)
            else match o
                 case Accepted => latest == Some(Final(h, true))
                 case Refused => latest == Some(Final(h, false))
                 case Undecided => latest.Some? && latest.value.Ballot?
  {
    var o := Evaluate(c, TallyAfter(r.engine, v));
    LatestPlus(r.log, Cast(r, v, now), h);
    LatestPlus(Logged(r.log, Cast(r, v, now)), Decision(o, v.tx), h);
    if h == v.tx && Cast(r, v, now).None? {
      OpenTallyIsLatest(r.log, h);
    }
  }

  lemma VoteTellsStatus(c: Config, start: Engine, r: Run, v: Vote, now: u64, h: TxHash)
    requires TxOk(c, r, v.tx) && StatusTold(start, r, h) && Admitted(c, r.engine, v, now)
    ensures StatusTold(start, AfterVote(c, r, v, now), h)
  {
    VoteSetsStatus(c, r.engine, v, now, h);
    VoteIsLatest(c, r, v, now, h);
  }

  lemma {:induction false} StatusReflectsLog(c: Config, start: Engine, ops: seq<Op>, h: TxHash)
    requires 2 * |ops| < MANY
    ensures StatusTold(start, Execute(c, start, ops), h)
  {
    if ops != [] {
      var init := ops[..|ops| - 1];
      StatusReflectsLog(c, start, init, h);
      FinalityJustified(c, start, init);
      var r, op := Execute(c, start, init), ops[|ops| - 1];
      if op.Receive? && Admitted(c, r.engine, op.vote, op.now) {
        assert TxOk(c, r, op.vote.tx);
        VoteTellsStatus(c, start, r, op.vote, op.now, h);
      }
    }
  }

  // ---- Which votes count -------------------------------------------------------------------------

  /** The voter has no ballot on the transaction since its last decision. */
  ghost predicate NotYetIn(log: seq<Entry>, v: Vote) {
    var w := Window(log, v.tx);
    forall i :: 0 <= i < |w| && w[i].Ballot? ==> w[i].voter != v.voter
  }

  lemma TallyVoters(c: Config, r: Run, v: Vote)
    requires TxOk(c, r, v.tx)
    ensures NotYetIn(r.log, v) <==> v.voter !in Lookup(r.engine.tallies, v.tx, NO_VOTES).voters
  {}

  /** A vote, accepting or rejecting, enters the log as a ballot exactly when it is recent by the clock of the
      call, its voter is registered with enough power and has not voted since the last decision. Any other
      vote changes no tally and announces nothing. */
  ghost predicate CountsIffDue(c: Config, r: Run, v: Vote, now: u64) {
    var after, e := Step(c, r, Receive(v, now)), r.engine;
    if now <= v.timestamp + c.voteMaxAge && v.voter in e.validators && e.validators[v.voter] >= c.minPower
       && NotYetIn(r.log, v) then
      && |r.log| < |after.log| && after.log[..|r.log|] == r.log
      && after.log[|r.log|] == Ballot(v.tx, v.voter, v.accept, Max(e.validators[v.voter], 1), e.validators,
                                      |r.log|, v.timestamp, now)
    else
      after.log == r.log && after.engine.tallies == e.tallies && after.engine.events == e.events
  }

  lemma VoteCountsIff(c: Config, start: Engine, ops: seq<Op>, v: Vote, now: u64)
    requires 2 * |ops| < MANY
    ensures CountsIffDue(c, Execute(c, start, ops), v, now)
  {
    FinalityJustified(c, start, ops);
    VoteCounted(c, Execute(c, start, ops), v, now);
  }

  lemma VoteCounted(c: Config, r: Run, v: Vote, now: u64)
    requires TxOk(c, r, v.tx)
    ensures CountsIffDue(c, r, v, now)
  {
    TallyVoters(c, r, v);
    if Admitted(c, r.engine, v, now) {
      if NotYetIn(r.log, v) {
        NewVoteIsLogged(c, r, v, now);
      } else {
        RepeatChangesNothing(c, r, v, now);
      }
    }
  }

  lemma NewVoteIsLogged(c: Config, r: Run, v: Vote, now: u64)
    requires Admitted(c, r.engine, v, now)
    requires v.voter !in Lookup(r.engine.tallies, v.tx, NO_VOTES).voters
    ensures var log := AfterVote(c, r, v, now).log;
            && |r.log| < |log| && log[..|r.log|] == r.log && Some(log[|r.log|]) == Cast(r, v, now)
  {}

  lemma RepeatChangesNothing(c: Config, r: Run, v: Vote, now: u64)
    requires TxOk(c, r, v.tx) && Admitted(c, r.engine, v, now)
    requires v.voter in Lookup(r.engine.tallies, v.tx, NO_VOTES).voters
    ensures var after := AfterVote(c, r, v, now);
            && after.log == r.log && after.engine.tallies == r.engine.tallies
            && after.engine.events == r.engine.events
  {
    assert v.tx in r.engine.tallies && TallyAfter(r.engine, v) == r.engine.tallies[v.tx];
  }

  /** Over every run, each ballot was recent when it was cast and its voter registered with enough power. */
  ghost predicate BallotsSound(c: Config, log: seq<Entry>) {
    forall i :: 0 <= i < |log| && log[i].Ballot? ==>
      && log[i].now <= log[i].timestamp + c.voteMaxAge
      && log[i].voter in log[i].validators && log[i].validators[log[i].voter] >= c.minPower
  }

  lemma {:induction false} BallotsAreSound(c: Config, start: Engine, ops: seq<Op>)
    ensures BallotsSound(c, Execute(c, start, ops).log)
  {
    if ops != [] {
      BallotsAreSound(c, start, ops[..|ops| - 1]);
    }
  }

  // ---- Finality is not sticky --------------------------------------------------------------------

  /** A vote that opens a tally leaves it undecided exactly when it cannot decide on its own. */
  lemma FirstVoteUndecided(c: Config, e: Engine, v: Vote)
    requires v.voter in e.validators && v.tx !in e.tallies
    ensures Evaluate(c, TallyAfter(e, v)) == Undecided
       <==> 1 < c.quorum || Max(e.validators[v.voter], 1) < c.minTotalPower
  {
    var t, p := TallyAfter(e, v), Max(e.validators[v.voter], 1);
    assert t.accept + t.reject == 1 && t.acceptWeight + t.rejectWeight == p;
    EvaluateExact(c, t);
  }

  /** Over every run: once a transaction is decided, a further vote takes its status away from
      Confirmed and Rejected, back to Voting, exactly when the vote is on that transaction, is admitted,
      and cannot decide on its own: the quorum asks for more than one vote, or its power falls short. */
  lemma LateVoteReopens(c: Config, start: Engine, ops: seq<Op>, v: Vote, now: u64, h: TxHash)
    requires 2 * |ops| < MANY && h in Execute(c, start, ops).engine.nodes
    requires var last := LatestOn(Execute(c, start, ops).log, h); last.Some? && last.value.Final?
    ensures var e := Execute(c, start, ops).engine;
            var after := Consensus.Receive(c, e, v, now);
            && e.nodes[h].status in {Confirmed, Rejected} && h in after.nodes
            && (after.nodes[h].status !in {Confirmed, Rejected} <==>
                  && v.tx == h && now <= v.timestamp + c.voteMaxAge
                  && v.voter in e.validators && e.validators[v.voter] >= c.minPower
                  && (1 < c.quorum || Max(e.validators[v.voter], 1) < c.minTotalPower))
            && (after.nodes[h].status !in {Confirmed, Rejected} ==> after.nodes[h].status == Voting)
  {
    var r := Execute(c, start, ops);
    StatusReflectsLog(c, start, ops, h);
    DecidedHasNoTally(c, start, ops, h);
    if v.tx == h && Admitted(c, r.engine, v, now) {
      FirstVoteUndecided(c, r.engine, v);
    }
  }

  lemma DecidedHasNoTally(c: Config, start: Engine, ops: seq<Op>, h: TxHash)
    requires 2 * |ops| < MANY
    requires var last := LatestOn(Execute(c, start, ops).log, h); last.Some? && last.value.Final?
    ensures h !in Execute(c, start, ops).engine.tallies
  {
    var r := Execute(c, start, ops);
    FinalityJustified(c, start, ops);
    OpenTallyIsLatest(r.log, h);
    assert TxOk(c, r, h);
  }

  /** For instance: with a quorum of one vote and a minimum power of 2, the vote of a validator of power
      2 confirms a transaction, and the later vote of one of power 1 sets it back to Voting. */
  lemma ConfirmedThenVoting(h: TxHash, n: Node, strong: NodeId, weak: NodeId, now: u64)
    requires strong != weak && n.status == Pending
    ensures var c := Config(1, 5_000, 0, 1, 2);
            var start := Engine(map[], map[strong := 2, weak := 1], 3, map[h := n], []);
            var decided := Consensus.Receive(c, start, Vote(strong, h, true, now), now);
            var reopened := Consensus.Receive(c, decided, Vote(weak, h, true, now), now);
            && decided.nodes[h].status == Confirmed && decided.events == [Finalized(h, true)]
            && reopened.nodes[h].status == Voting
  {
    var c := Config(1, 5_000, 0, 1, 2);
    var start := Engine(map[], map[strong := 2, weak := 1], 3, map[h := n], []);
    var v := Vote(strong, h, true, now);
    EvaluateExact(c, TallyAfter(start, v));
    FirstVoteUndecided(c, Consensus.Receive(c, start, v, now), Vote(weak, h, true, now));
  }
}
