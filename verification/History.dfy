/** Every run of the node's operations, with the history of all transactions ever inserted. */
module History {
  import opened Core
  import opened Ledgers
  import opened Dags

  datatype Op =
    | Mint(tx: Transaction)
    | Submit(tx: Transaction)
    | Mark(h: TxHash, status: Status)
    | PruneAt(confirmations: nat)
    | AddStake(a: Address, amount: u64)
    | RequestUnstake(a: Address, amount: u64, time: u64, epoch: u64)
    | ProcessUnstakes(a: Address, time: u64, epoch: u64)

  /** A transaction in the history; `minted` when it came through insert_genesis. */
  datatype Past = Past(tx: Transaction, minted: bool)

  /** The node, every transaction ever inserted in order, the coins ever minted (genesis amounts and
      added stake) and the fees ever taken out of circulation. */
  datatype Run = Run(dag: Dag, past: seq<Past>, minted: nat, burned: nat)

  const START := Run(EMPTY_DAG, [], 0, 0)

  ghost function Step(env: Env, r: Run, op: Op): Run {
    var d := r.dag;
    match op
    case Mint(tx) =>
      if tx.IsGenesis() then Run(AfterGenesis(env, d, tx), r.past + [Past(tx, true)], r.minted + tx.amount, r.burned)
      else r
    case Submit(tx) =>
      if Refusal(env, d, tx).None?
      then Run(AfterInsert(env, d, tx), r.past + [Past(tx, false)], r.minted, r.burned + tx.fee) else r
    case Mark(h, s) => r.(dag := AfterStatus(d, h, s))
    case PruneAt(c) => r.(dag := AfterPrune(d, c))
    case AddStake(a, n) => r.(dag := d.(ledger := d.ledger.AddStake(a, n)), minted := r.minted + n)
    case RequestUnstake(a, n, t, e) => r.(dag := d.(ledger := d.ledger.RequestUnstake(a, n, t, e)))
    case ProcessUnstakes(a, t, e) => r.(dag := d.(ledger := d.ledger.ProcessUnstakes(a, t, e)))
  }

  ghost function Execute(env: Env, ops: seq<Op>): Run {
    if ops == [] then START else Step(env, Execute(env, ops[..|ops| - 1]), ops[|ops| - 1])
  }

  // ---- Conservation --------------------------------------------------------------------------

  /** What circulates is exactly what was minted less the fees, and no balance addition ever wraps,
      as long as what is minted fits in a u64. */
  ghost predicate Balanced(r: Run) {
    r.minted < TWO64 ==> r.dag.ledger.Circulating() + r.burned == r.minted
  }

  lemma StepBalanced(env: Env, r: Run, op: Op)
    requires Balanced(r)
    ensures Balanced(Step(env, r, op))
  {
    var l := r.dag.ledger;
    if Step(env, r, op).minted < TWO64 {
      match op
      case Mint(tx) =>
        if tx.IsGenesis() {
          CreditAdds(l, tx.receiver, tx.amount);
        }
      case Submit(tx) =>
        if Refusal(env, r.dag, tx).None? {
          PayBurnsFee(l, tx);
        }
      case Mark(h, s) =>
      case PruneAt(c) =>
      case AddStake(a, n) => AddStakeAdds(l, a, n);
      case RequestUnstake(a, n, t, e) => RequestConserves(l, a, n, t, e);
      case ProcessUnstakes(a, t, e) => ProcessConserves(l, a, t, e);
    }
  }

  lemma {:induction false} RunBalanced(env: Env, ops: seq<Op>)
    ensures Balanced(Execute(env, ops))
  {
    if ops != [] {
      RunBalanced(env, ops[..|ops| - 1]);
      StepBalanced(env, Execute(env, ops[..|ops| - 1]), ops[|ops| - 1]);
    }
  }

  // ---- The nonce index -----------------------------------------------------------------------

  /** The transactions sent by `s` through insert, in order. */
  ghost function SentBy(past: seq<Past>, s: Address): seq<Transaction> {
    if past == [] then [] else
      var before, last := SentBy(past[..|past| - 1], s), past[|past| - 1];
      if !last.minted && last.tx.sender == s then before + [last.tx] else before
  }

  /** For one sender: the index holds exactly the keys 1..nonce, mapped to that sender's transactions
      in order, and the n-th transaction carries nonce n. */
  ghost predicate Indexed(env: Env, r: Run, s: Address) {
    IndexedBy(env, r.dag.ledger.Nonce(s), r.dag.committed, SentBy(r.past, s), s)
  }

  ghost predicate IndexedBy(env: Env, nonce: nat, committed: map<(Address, u64), TxHash>, sent: seq<Transaction>,
                            s: Address) {
    && nonce == |sent| < TWO64
    && (forall n: u64 :: (s, n) in committed <==> 1 <= n <= |sent|)
    && (forall k :: 0 <= k < |sent| ==> sent[k].nonce == k + 1 && committed[(s, k + 1)] == env.hash(sent[k]))
  }

  lemma SentBySnoc(past: seq<Past>, p: Past, s: Address)
    ensures SentBy(past + [p], s) == if !p.minted && p.tx.sender == s then SentBy(past, s) + [p.tx] else SentBy(past, s)
  {
    assert (past + [p])[..|past|] == past;
  }

  lemma IndexGrows(env: Env, nonce: nat, committed: map<(Address, u64), TxHash>, sent: seq<Transaction>, s: Address,
                   tx: Transaction)
    requires IndexedBy(env, nonce, committed, sent, s) && tx.sender == s && tx.nonce == nonce + 1
    ensures IndexedBy(env, nonce + 1, committed[(s, tx.nonce) := env.hash(tx)], sent + [tx], s)
  {}

  /** What an accepted insert does to nonces, index and history. */
  lemma SubmitEffect(env: Env, r: Run, tx: Transaction, s: Address)
    requires Refusal(env, r.dag, tx).None?
    ensures var after := Step(env, r, Submit(tx));
            && tx.nonce == r.dag.ledger.Nonce(tx.sender) + 1
            && after.dag.ledger.Nonce(s) == r.dag.ledger.Nonce(s) + (if tx.sender == s then 1 else 0)
            && after.dag.committed == r.dag.committed[(tx.sender, tx.nonce) := env.hash(tx)]
            && after.past == r.past + [Past(tx, false)]
  {}

  lemma IndexUnaffected(env: Env, nonce: nat, committed: map<(Address, u64), TxHash>, sent: seq<Transaction>,
                        s: Address, tx: Transaction)
    requires IndexedBy(env, nonce, committed, sent, s) && tx.sender != s
    ensures IndexedBy(env, nonce, committed[(tx.sender, tx.nonce) := env.hash(tx)], sent, s)
  {}

  lemma SubmitIndexed(env: Env, r: Run, tx: Transaction, s: Address)
    requires Indexed(env, r, s) && Refusal(env, r.dag, tx).None?
    ensures Indexed(env, Step(env, r, Submit(tx)), s)
  {
    var nonce, committed, sent := r.dag.ledger.Nonce(s), r.dag.committed, SentBy(r.past, s);
    SubmitEffect(env, r, tx, s);
    SentBySnoc(r.past, Past(tx, false), s);
    if tx.sender == s {
      IndexGrows(env, nonce, committed, sent, s, tx);
    } else {
      IndexUnaffected(env, nonce, committed, sent, s, tx);
    }
  }

  lemma StepIndexed(env: Env, r: Run, op: Op, s: Address)
    requires Indexed(env, r, s)
    ensures Indexed(env, Step(env, r, op), s)
  {
    match op
    case Mint(tx) => SentBySnoc(r.past, Past(tx, true), s);
    case Submit(tx) =>
      if Refusal(env, r.dag, tx).None? {
        SubmitIndexed(env, r, tx, s);
      }
    case Mark(_, _) =>
    case PruneAt(_) =>
    case AddStake(_, _) =>
    case RequestUnstake(_, _, _, _) =>
    case ProcessUnstakes(_, _, _) =>
  }

  lemma {:induction false} RunIndexed(env: Env, ops: seq<Op>, s: Address)
    ensures Indexed(env, Execute(env, ops), s)
  {
    if ops != [] {
      RunIndexed(env, ops[..|ops| - 1], s);
      StepIndexed(env, Execute(env, ops[..|ops| - 1]), ops[|ops| - 1], s);
    }
  }

  /** So the index check and the counter check of insert never disagree: a refusal for a nonce means
      the nonce is not the sender's next one. */
  lemma NonceChecksAgree(env: Env, ops: seq<Op>, tx: Transaction)
    ensures var r := Execute(env, ops);
            (tx.sender, tx.nonce) in r.dag.committed ==> tx.nonce != r.dag.ledger.Nonce(tx.sender) + 1
  {
    RunIndexed(env, ops, tx.sender);
  }

  lemma {:induction false} SentByPosition(past: seq<Past>, i: nat) returns (n: nat)
    requires i < |past| && !past[i].minted
    ensures n == |SentBy(past[..i], past[i].tx.sender)| < |SentBy(past, past[i].tx.sender)|
    ensures SentBy(past, past[i].tx.sender)[n] == past[i].tx
  {
    var init := past[..|past| - 1];
    SplitLast(past);
    SentBySnoc(init, past[|past| - 1], past[i].tx.sender);
    if i == |past| - 1 {
      n := |SentBy(init, past[i].tx.sender)|;
    } else {
      n := SentByPosition(init, i);
      assert init[..i] == past[..i];
    }
  }

  lemma SentByGrows(past: seq<Past>, i: nat, j: nat)
    requires i < j <= |past| && !past[i].minted
    ensures |SentBy(past[..i], past[i].tx.sender)| < |SentBy(past[..j], past[i].tx.sender)|
  {
    var n := SentByPosition(past[..j], i);
    assert past[..j][..i] == past[..i];
  }

  /** No transaction sent through insert is ever inserted through it a second time, pruned or not. */
  lemma NeverSentTwice(env: Env, ops: seq<Op>, i: nat, j: nat)
    requires i < j < |Execute(env, ops).past|
    requires !Execute(env, ops).past[i].minted && !Execute(env, ops).past[j].minted
    ensures Execute(env, ops).past[i].tx != Execute(env, ops).past[j].tx
  {
    var past := Execute(env, ops).past;
    if past[i].tx == past[j].tx {
      var s := past[i].tx.sender;
      RunIndexed(env, ops, s);
      var m := SentByPosition(past, i);
      var n := SentByPosition(past, j);
      SentByGrows(past, i, j);
    }
  }
}
