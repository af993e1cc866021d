/** Weighted voting: the vote tallies, the engine that finalizes transactions, and its value model. */
module Consensus {
  import opened Core
  import opened Sums
  import opened Ledgers
  import opened Dags

  datatype NodeId = NodeId(text: string)

  datatype Vote = Vote(voter: NodeId, tx: TxHash, accept: bool, timestamp: u64)

  datatype Outcome = Undecided | Accepted | Refused

  datatype Tally = Tally(accept: nat, reject: nat, acceptWeight: nat, rejectWeight: nat, voters: set<NodeId>)

  const NO_VOTES := Tally(0, 0, 0, 0, {})

  datatype Config = Config(quorum: u64, thresholdBps: u64, voteMaxAge: u64, minPower: u64, minTotalPower: u64)

  function SaturatingAdd128(a: nat, b: nat): nat { Min(a + b, TWO128 - 1) }

  /** A tally with one more voter; a voter already counted changes nothing. */
  function Counted(t: Tally, voter: NodeId, accept: bool, power: u64): Tally {
    var p := Max(power, 1);
    if voter in t.voters then t
    else if accept then
      t.(accept := t.accept + 1, acceptWeight := SaturatingAdd128(t.acceptWeight, p), voters := t.voters + {voter})
    else
      t.(reject := t.reject + 1, rejectWeight := SaturatingAdd128(t.rejectWeight, p), voters := t.voters + {voter})
  }

  /** Basis points as the code computes them: a wrapping u128 product, a division, a cast to u64. */
  function AcceptBps(t: Tally, total: nat): nat {
    if total == 0 then 0 else t.acceptWeight * 10_000 % TWO128 / total % TWO64
  }

  function Evaluate(c: Config, t: Tally): Outcome {
    var total := SaturatingAdd128(t.acceptWeight, t.rejectWeight);
    if t.accept + t.reject < c.quorum then Undecided
    else if total < c.minTotalPower then Undecided
    else if AcceptBps(t, total) >= c.thresholdBps then Accepted
    else Refused
  }

  datatype Event = Finalized(tx: TxHash, accepted: bool)

  datatype Engine = Engine(
    tallies: map<TxHash, Tally>, validators: map<NodeId, u64>, totalPower: u64, nodes: Nodes, events: seq<Event>)

  function Marked(nodes: Nodes, h: TxHash, s: Status): Nodes {
    if h in nodes then nodes[h := nodes[h].(status := s)] else nodes
  }

  /** A vote reaches the tally when it is fresh and its voter is registered with enough power. */
  predicate Admitted(c: Config, e: Engine, v: Vote, now: u64) {
    && Max(now - v.timestamp, 0) <= c.voteMaxAge
    && v.voter in e.validators
    && e.validators[v.voter] >= c.minPower
  }

  function TallyAfter(e: Engine, v: Vote): Tally
    requires v.voter in e.validators
  {
    Counted(Lookup(e.tallies, v.tx, NO_VOTES), v.voter, v.accept, e.validators[v.voter])
  }

  function Receive(c: Config, e: Engine, v: Vote, now: u64): Engine {
    if !Admitted(c, e, v, now) then e else
      var tally := TallyAfter(e, v);
      match Evaluate(c, tally)
      case Accepted =>
        e.(tallies := e.tallies - {v.tx}, nodes := Marked(e.nodes, v.tx, Confirmed),
           events := e.events + [Finalized(v.tx, true)])
      case Refused =>
        e.(tallies := e.tallies - {v.tx}, nodes := Marked(e.nodes, v.tx, Rejected),
           events := e.events + [Finalized(v.tx, false)])
      case Undecided =>
        e.(tallies := e.tallies[v.tx := tally], nodes := Marked(e.nodes, v.tx, Voting))
  }

  function Register(e: Engine, id: NodeId, power: u64): Engine {
    var p: u64 := Max(power, 1);
    e.(validators := e.validators[id := p],
       totalPower := WrappingAdd(WrappingSub(e.totalPower, Lookup(e.validators, id, 0)), p))
  }

  class VoteAggregator {
    const config: Config
    var tallies: map<TxHash, Tally>

    constructor (config: Config)
      ensures this.config == config && tallies == map[]
    {
      this.config := config;
      tallies := map[];
    }

    method RecordVoteWeighted(v: Vote, power: u64) returns (r: Outcome)
      modifies this
      ensures tallies == old(tallies)[v.tx := Counted(Lookup(old(tallies), v.tx, NO_VOTES), v.voter, v.accept, power)]
      ensures r == Evaluate(config, tallies[v.tx])
    {
      var tally := Lookup(tallies, v.tx, NO_VOTES);
      if v.voter !in tally.voters {
        tally := tally.(voters := tally.voters + {v.voter});
        var p := Max(power, 1);
        if v.accept {
          tally := tally.(accept := tally.accept + 1, acceptWeight := SaturatingAdd128(tally.acceptWeight, p));
        } else {
          tally := tally.(reject := tally.reject + 1, rejectWeight := SaturatingAdd128(tally.rejectWeight, p));
        }
      }
      tallies := tallies[v.tx := tally];
      r := Evaluate(config, tally);
    }

    method Finalize(h: TxHash)
      modifies this
      ensures tallies == old(tallies) - {h}
    {
      tallies := tallies - {h};
    }
  }

  class ConsensusEngine {
    const config: Config
    const dag: DagGraph
    const aggregator: VoteAggregator
    const localNode: NodeId
    var validators: map<NodeId, u64>
    var totalPower: u64
    var events: seq<Event>

    ghost function Model(): Engine
      reads this, aggregator, dag
    {
      Engine(aggregator.tallies, validators, totalPower, dag.nodes, events)
    }

    ghost predicate Valid() { aggregator.config == config }

    constructor (dag: DagGraph, config: Config, localNode: NodeId)
      ensures Valid() && this.config == config && this.dag == dag && fresh(aggregator)
      ensures Model() == Engine(map[], map[localNode := 1], 1, dag.nodes, [])
    {
      this.dag, this.config, this.localNode := dag, config, localNode;
      aggregator := new VoteAggregator(config);
      validators, totalPower, events := map[localNode := 1], 1, [];
    }

    method ReceiveVote(v: Vote, now: u64)
      requires Valid()
      modifies this`events, aggregator, dag`nodes
      ensures Model() == Receive(config, old(Model()), v, now)
      ensures v.timestamp + config.voteMaxAge < now ==> Model() == old(Model())
      ensures v.voter !in validators || validators[v.voter] < config.minPower ==> Model() == old(Model())
    {
      var age := if now < v.timestamp then 0 else now - v.timestamp;
      if age > config.voteMaxAge {
        return;
      }
      if v.voter !in validators {
        return;
      }
      var power := validators[v.voter];
      if power < config.minPower {
        return;
      }
      var outcome := aggregator.RecordVoteWeighted(v, power);
      match outcome
      case Accepted =>
        dag.SetStatus(v.tx, Confirmed);
        aggregator.Finalize(v.tx);
        events := events + [Finalized(v.tx, true)];
      case Refused =>
        dag.SetStatus(v.tx, Rejected);
        aggregator.Finalize(v.tx);
        events := events + [Finalized(v.tx, false)];
      case Undecided =>
        dag.SetStatus(v.tx, Voting);
    }

    method RegisterValidator(id: NodeId, power: u64)
      modifies this`validators, this`totalPower
      ensures Model() == Register(old(Model()), id, power)
      ensures validators == old(validators)[id := Max(power, 1)]
    {
      var p: u64 := Max(power, 1);
      var previous: u64 := Lookup(validators, id, 0);
      validators := validators[id := p];
      totalPower := WrappingSub(totalPower, previous);
      totalPower := WrappingAdd(totalPower, p);
    }

    /** The recorded total is the saturated power of the given list and the local node. */
    method SetValidatorSet(list: seq<(NodeId, u64)>)
      modifies this`validators, this`totalPower
      ensures validators == WithLocal(FromList(list), localNode)
      ensures totalPower == Min(ListPower(list) + (if localNode in FromList(list) then 0 else 1), TWO64 - 1)
    {
      validators := map[];
      var total: u64 := 0;
      for i := 0 to |list|
        invariant validators == FromList(list[..i]) && Saturated(total, ListPower(list[..i]))
      {
        FromListSnoc(list, i);
        var (id, power) := list[i];
        var p: u64 := Max(power, 1);
        SaturatesFurther(total, ListPower(list[..i]), p);
        total := SaturatingAdd(total, p);
        validators := validators[id := p];
      }
      assert list[..|list|] == list;
      SaturatesFurther(total, ListPower(list), 1);
      if localNode !in validators {
        total := SaturatingAdd(total, 1);
        validators := validators[localNode := 1];
      }
      totalPower := total;
    }
  }

  ghost predicate Saturated(total: u64, sum: nat) { total == Min(sum, TWO64 - 1) }

  lemma SaturatesFurther(total: u64, sum: nat, p: u64)
    requires Saturated(total, sum)
    ensures Saturated(SaturatingAdd(total, p), sum + p)
  {}

  lemma FromListSnoc(list: seq<(NodeId, u64)>, i: nat)
    requires i < |list|
    ensures FromList(list[..i + 1]) == FromList(list[..i])[list[i].0 := Max(list[i].1, 1)]
    ensures ListPower(list[..i + 1]) == ListPower(list[..i]) + Max(list[i].1, 1)
  {
    assert list[..i + 1][..i] == list[..i];
  }

  /** No later entry of the list names the same id. */
  predicate LastListed(list: seq<(NodeId, u64)>, i: nat)
    requires i < |list|
  {
    forall j :: i < j < |list| ==> list[j].0 != list[i].0
  }

  function FromList(list: seq<(NodeId, u64)>): map<NodeId, u64> {
    if list == [] then map[] else
      FromList(list[..|list| - 1])[list[|list| - 1].0 := Max(list[|list| - 1].1, 1)]
  }

  function WithLocal(validators: map<NodeId, u64>, local: NodeId): map<NodeId, u64> {
    if local in validators then validators else validators[local := 1]
  }

  function ListPower(list: seq<(NodeId, u64)>): nat {
    if list == [] then 0 else ListPower(list[..|list| - 1]) + Max(list[|list| - 1].1, 1)
  }

  ghost predicate DistinctIds(list: seq<(NodeId, u64)>) {
    forall i, j :: 0 <= i < j < |list| ==> list[i].0 != list[j].0
  }

  lemma {:induction false} FromListMembers(list: seq<(NodeId, u64)>, id: NodeId)
    ensures id in FromList(list) <==> exists i :: 0 <= i < |list| && list[i].0 == id
    ensures id in FromList(list) ==> FromList(list)[id] >= 1
  {
    if list != [] {
      var init, last := list[..|list| - 1], list[|list| - 1];
      FromListMembers(init, id);
      if i :| 0 <= i < |list| && list[i].0 == id {
        assert i < |init| ==> init[i].0 == id;
      }
      if i :| 0 <= i < |init| && init[i].0 == id {
        assert list[i].0 == id;
      }
      assert list[|list| - 1].0 == last.0;
    }
  }

  lemma {:induction false} FromListLatest(list: seq<(NodeId, u64)>, i: nat)
    requires i < |list| && LastListed(list, i)
    ensures list[i].0 in FromList(list) && FromList(list)[list[i].0] == Max(list[i].1, 1)
  {
    if i < |list| - 1 {
      FromListLatest(list[..|list| - 1], i);
    }
  }

  ghost predicate Listed(list: seq<(NodeId, u64)>, id: NodeId) {
    exists i :: 0 <= i < |list| && list[i].0 == id
  }

  /** The listed ids and the local one, each with the power it is listed with last, at least 1; the local
      node has power 1 if it is not listed. */
  ghost predicate SetFrom(list: seq<(NodeId, u64)>, local: NodeId, validators: map<NodeId, u64>) {
    && (forall id :: id in validators <==> id == local || Listed(list, id))
    && (forall i :: 0 <= i < |list| && LastListed(list, i) ==>
          list[i].0 in validators && validators[list[i].0] == Max(list[i].1, 1))
    && (!Listed(list, local) ==> local in validators && validators[local] == 1)
  }

  /** This is what set_validator_set leaves registered. */
  lemma SetIs(list: seq<(NodeId, u64)>, local: NodeId)
    ensures SetFrom(list, local, WithLocal(FromList(list), local))
  {
    forall id
      ensures id in FromList(list) <==> Listed(list, id)
    {
      FromListMembers(list, id);
    }
    forall i | 0 <= i < |list| && LastListed(list, i) {
      FromListLatest(list, i);
    }
  }

  /** The power of a list is the power of the set it makes exactly when no id is listed twice. */
  lemma {:induction false} ListPowerIsSum(list: seq<(NodeId, u64)>)
    ensures Sum(FromList(list)) <= ListPower(list)
    ensures Sum(FromList(list)) == ListPower(list) <==> DistinctIds(list)
  {
    if list != [] {
      var init, last := list[..|list| - 1], list[|list| - 1];
      ListPowerIsSum(init);
      FromListMembers(init, last.0);
      SumUpdate(FromList(init), last.0, Max(last.1, 1));
      DistinctSnoc(list);
    }
  }

  /** So after set_validator_set the recorded total is the sum of the registered powers exactly when no
      id is listed twice, as long as nothing saturates. */
  lemma SetTotalExact(list: seq<(NodeId, u64)>, local: NodeId)
    ensures ListPower(list) + (if local in FromList(list) then 0 else 1) == Sum(WithLocal(FromList(list), local))
       <==> DistinctIds(list)
  {
    ListPowerIsSum(list);
    SumUpdate(FromList(list), local, 1);
  }

  lemma DistinctSnoc(list: seq<(NodeId, u64)>)
    requires list != []
    ensures var init, last := list[..|list| - 1], list[|list| - 1];
            DistinctIds(list) <==> DistinctIds(init) && !exists i :: 0 <= i < |init| && init[i].0 == last.0
  {
    var init := list[..|list| - 1];
    assert forall i :: 0 <= i < |init| ==> init[i] == list[i];
  }

  /** Registering keeps the recorded total equal to the sum of the registered powers modulo 2^64. */
  lemma RegisterKeepsTotal(e: Engine, id: NodeId, power: u64)
    requires e.totalPower == Sum(e.validators) % TWO64
    ensures Register(e, id, power).totalPower == Sum(Register(e, id, power).validators) % TWO64
  {
    var p: u64, previous: u64 := Max(power, 1), Lookup(e.validators, id, 0);
    var before, after := Sum(e.validators), Sum(e.validators[id := p]);
    SumUpdate(e.validators, id, p);
    TotalShifts(before, after, before / TWO64, e.totalPower, previous, p);
  }

  lemma TotalShifts(before: nat, after: nat, wraps: nat, total: u64, previous: u64, p: u64)
    requires before == Dropped(wraps) + total && after == before - previous + p
    ensures WrappingAdd(WrappingSub(total, previous), p) == after % TWO64
  {
    var left := WrappingSub(total, previous);
    var shifted := wraps - (if previous <= total then 0 else 1) + (if left + p < TWO64 then 0 else 1);
    RemainderIs(after, shifted, WrappingAdd(left, p));
  }
}
