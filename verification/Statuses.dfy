/** The status of every node over every run, and what pruning can and cannot take. */
module Statuses {
  import opened Core
  import opened Ledgers
  import opened Dags
  import opened History
  import opened Structure

  /** What the run last said about `h`: the latest mark on it, or, if it joined after that, confirmed for a
      genesis transaction and pending for one sent through insert. */
  ghost function Told(env: Env, ops: seq<Op>, h: TxHash): Option<Status> {
    if ops == [] then None else
      var init, op := ops[..|ops| - 1], ops[|ops| - 1];
      var before, after := Execute(env, init).past, Execute(env, ops).past;
      if op.Mark? && op.h == h then Some(op.status)
      else if |before| < |after| && env.hash(after[|after| - 1].tx) == h then
        Some(if after[|after| - 1].minted then Confirmed else Pending)
      else Told(env, init, h)
  }

  lemma StepStatus(env: Env, r: Run, op: Op, h: TxHash)
    requires h in Step(env, r, op).dag.nodes
    ensures var after := Step(env, r, op);
            var status := after.dag.nodes[h].status;
            if op.Mark? && op.h == h then status == op.status
            else if |r.past| < |after.past| && env.hash(after.past[|after.past| - 1].tx) == h then
              status == if after.past[|after.past| - 1].minted then Confirmed else Pending
            else h in r.dag.nodes && status == r.dag.nodes[h].status
  {
    if op.Submit? && Refusal(env, r.dag, op.tx).None? {
      SubmitStatus(env, r, op.tx, h);
    }
  }

  lemma SubmitStatus(env: Env, r: Run, tx: Transaction, h: TxHash)
    requires Refusal(env, r.dag, tx).None? && h in Step(env, r, Submit(tx)).dag.nodes
    ensures var after := Step(env, r, Submit(tx));
            && after.past == r.past + [Past(tx, false)]
            && (h == env.hash(tx) ==> after.dag.nodes[h].status == Pending)
            && (h != env.hash(tx) ==> h in r.dag.nodes && after.dag.nodes[h].status == r.dag.nodes[h].status)
  {
    AttachAt(env, r.dag.nodes, tx, h);
  }

  /** Over every run, a present node has the status that the run last told. */
  lemma {:induction false} StatusIsTold(env: Env, ops: seq<Op>, h: TxHash)
    requires h in Execute(env, ops).dag.nodes
    ensures Told(env, ops, h) == Some(Execute(env, ops).dag.nodes[h].status)
  {
    if ops != [] {
      var init := ops[..|ops| - 1];
      StepStatus(env, Execute(env, init), ops[|ops| - 1], h);
      if h in Execute(env, init).dag.nodes {
        StatusIsTold(env, init, h);
      }
    }
  }

  ghost predicate EverMarked(ops: seq<Op>, h: TxHash) { Mark(h, Confirmed) in ops }

  ghost predicate EverMinted(env: Env, past: seq<Past>, h: TxHash) {
    exists i :: 0 <= i < |past| && past[i].minted && env.hash(past[i].tx) == h
  }

  lemma MintedStays(env: Env, past: seq<Past>, p: Past, h: TxHash)
    ensures EverMinted(env, past, h) ==> EverMinted(env, past + [p], h)
    ensures p.minted && env.hash(p.tx) == h ==> EverMinted(env, past + [p], h)
  {
    var now := past + [p];
    assert now[|past|] == p;
    if i :| 0 <= i < |past| && past[i].minted && env.hash(past[i].tx) == h {
      assert now[i] == past[i];
    }
  }

  /** Confirmed is only what was marked so or came as genesis. */
  lemma {:induction false} ConfirmedHasReason(env: Env, ops: seq<Op>, h: TxHash)
    requires Told(env, ops, h) == Some(Confirmed)
    ensures EverMarked(ops, h) || EverMinted(env, Execute(env, ops).past, h)
  {
    if ops != [] {
      var init, op := ops[..|ops| - 1], ops[|ops| - 1];
      var before, after := Execute(env, init).past, Execute(env, ops).past;
      StepGrows(env, Execute(env, init), op);
      SplitLast(ops);
      if Told(env, init, h) == Some(Confirmed) {
        ConfirmedHasReason(env, init, h);
      }
      if after != before {
        var p :| after == before + [p];
        MintedStays(env, before, p, h);
      }
    }
  }

  lemma StepKeepsUnconfirmed(env: Env, r: Run, op: Op, h: TxHash)
    requires h in r.dag.nodes && r.dag.nodes[h].status != Confirmed
    ensures h in Step(env, r, op).dag.nodes
  {
    if op.Submit? && Refusal(env, r.dag, op.tx).None? {
      AttachAt(env, r.dag.nodes, op.tx, h);
    }
  }

  /** A transaction sent through insert that nobody ever marked confirmed keeps its node, however much is
      pruned. */
  lemma {:induction false} UnconfirmedNeverPruned(env: Env, ops: seq<Op>, i: nat)
    requires Clean(env, Execute(env, ops).past)
    requires i < |Execute(env, ops).past| && !Execute(env, ops).past[i].minted
    requires !EverMarked(ops, env.hash(Execute(env, ops).past[i].tx))
    ensures env.hash(Execute(env, ops).past[i].tx) in Execute(env, ops).dag.nodes
  {
    if ops != [] {
      var init, op := ops[..|ops| - 1], ops[|ops| - 1];
      var before, after := Execute(env, init), Execute(env, ops);
      var h := env.hash(after.past[i].tx);
      SplitLast(ops);
      StepGrows(env, before, op);
      if i < |before.past| {
        CleanPrefix(env, before.past, after.past);
        UnconfirmedNeverPruned(env, init, i);
        StatusIsTold(env, init, h);
        if before.dag.nodes[h].status == Confirmed {
          ConfirmedHasReason(env, init, h);
          NotMinted(env, before.past, i);
        }
        StepKeepsUnconfirmed(env, before, op, h);
      }
    }
  }

  lemma CleanPrefix(env: Env, before: seq<Past>, after: seq<Past>)
    requires Clean(env, after) && (after == before || exists p :: after == before + [p])
    ensures Clean(env, before) && |before| <= |after| && forall i :: 0 <= i < |before| ==> before[i] == after[i]
  {
    assert forall i :: 0 <= i < |before| ==> before[i] == after[i];
  }

  lemma NotMinted(env: Env, past: seq<Past>, i: nat)
    requires Clean(env, past) && i < |past| && !past[i].minted
    ensures !EverMinted(env, past, env.hash(past[i].tx))
  {}
}
