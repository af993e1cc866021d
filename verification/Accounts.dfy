/** Balances and stakes over every run: what each address has been credited and debited for. */
module Accounts {
  import opened Core
  import opened Sums
  import opened Ledgers
  import opened Dags
  import opened History

  /** What the transactions of the history have moved into the balance of `a`: amounts received, less the
      amounts and fees of what it sent through insert. */
  ghost function Received(past: seq<Past>, a: Address): int {
    if past == [] then 0 else
      var last := past[|past| - 1];
      Received(past[..|past| - 1], a)
        + (if last.tx.receiver == a then last.tx.amount else 0)
        - (if !last.minted && last.tx.sender == a then last.tx.amount + last.tx.fee else 0)
  }

  /** What processing has paid out to `a`. */
  ghost function PaidOut(env: Env, ops: seq<Op>, a: Address): nat {
    if ops == [] then 0 else
      var init, op := ops[..|ops| - 1], ops[|ops| - 1];
      PaidOut(env, init, a)
        + if op.ProcessUnstakes? && op.a == a then Execute(env, init).dag.ledger.Payout(a, op.time, op.epoch) else 0
  }

  /** What `a` has staked and not asked back, granted requests only. */
  ghost function Staked(env: Env, ops: seq<Op>, a: Address): int {
    if ops == [] then 0 else
      var init, op := ops[..|ops| - 1], ops[|ops| - 1];
      var before := Staked(env, init, a);
      match op
      case AddStake(b, n) => if a == b then before + n else before
      case RequestUnstake(b, n, _, _) => if a == b && n <= before then before - n else before
      case _ => before
  }

  lemma ReceivedSnoc(past: seq<Past>, p: Past, a: Address)
    ensures Received(past + [p], a)
         == Received(past, a) + (if p.tx.receiver == a then p.tx.amount else 0)
            - (if !p.minted && p.tx.sender == a then p.tx.amount + p.tx.fee else 0)
  {
    assert (past + [p])[..|past|] == past;
  }

  lemma CreditExact(l: Ledger, a: Address, n: u64, b: Address)
    requires l.Circulating() + n < TWO64
    ensures l.Credit(a, n).Balance(b) == l.Balance(b) + if a == b then n else 0
  {
    CreditAdds(l, a, n);
  }

  lemma PayExact(l: Ledger, tx: Transaction, a: Address)
    requires tx.amount + tx.fee <= l.Balance(tx.sender) && l.Circulating() < TWO64
    ensures Pay(l, tx).Balance(a)
         == l.Balance(a) + (if tx.receiver == a then tx.amount else 0)
            - (if tx.sender == a then tx.amount + tx.fee else 0)
  {
    DebitTakes(l, tx.sender, tx.amount + tx.fee);
    CreditExact(l.Debit(tx.sender, tx.amount + tx.fee), tx.receiver, tx.amount, a);
  }

  lemma PayoutExact(l: Ledger, a: Address, time: u64, epoch: u64, b: Address)
    requires l.Circulating() < TWO64
    ensures l.ProcessUnstakes(a, time, epoch).Balance(b)
         == l.Balance(b) + if a == b then l.Payout(a, time, epoch) else 0
  {
    if a in l.unstakes {
      var kept := Kept(l.unstakes[a], time, epoch);
      SumBounds(Totals(l.unstakes), a);
      KeptPlusReleased(l.unstakes[a], time, epoch);
      QueueUpdate(l, a, kept);
      CreditExact(l.(unstakes := l.unstakes[a := kept]), a, l.Payout(a, time, epoch), b);
    }
  }

  lemma StakeFits(l: Ledger, a: Address)
    ensures l.StakeOf(a) <= l.Circulating()
  {
    if a in l.stakes {
      SumBounds(l.stakes, a);
    }
  }

  ghost predicate Squared(env: Env, ops: seq<Op>, a: Address) {
    var l := Execute(env, ops).dag.ledger;
    && l.Balance(a) == Received(Execute(env, ops).past, a) + PaidOut(env, ops, a)
    && l.StakeOf(a) == Staked(env, ops, a)
  }

  lemma MintedOnlyGrows(env: Env, r: Run, op: Op)
    ensures r.minted <= Step(env, r, op).minted
  {}

  /** Over every run each balance is what the history moved into it plus what was paid out to it, and each
      stake is what was staked less the requests granted. */
  lemma {:induction false} RunSquared(env: Env, ops: seq<Op>, a: Address)
    requires Execute(env, ops).minted < TWO64
    ensures Squared(env, ops, a)
  {
    if ops != [] {
      var init, op := ops[..|ops| - 1], ops[|ops| - 1];
      MintedOnlyGrows(env, Execute(env, init), op);
      RunSquared(env, init, a);
      RunBalanced(env, init);
      StepBalance(env, Execute(env, init), op, a);
      StepStake(env, Execute(env, init), op, a);
    }
  }

  /** What one operation does to the balance of `a`. */
  lemma StepBalance(env: Env, r: Run, op: Op, a: Address)
    requires Balanced(r) && Step(env, r, op).minted < TWO64
    ensures var l, after := r.dag.ledger, Step(env, r, op);
            after.dag.ledger.Balance(a)
            == l.Balance(a) + Received(after.past, a) - Received(r.past, a)
               + if op.ProcessUnstakes? && op.a == a then l.Payout(a, op.time, op.epoch) else 0
  {
    match op
    case Mint(tx) =>
      if tx.IsGenesis() {
        CreditExact(r.dag.ledger, tx.receiver, tx.amount, a);
        ReceivedSnoc(r.past, Past(tx, true), a);
      }
    case Submit(tx) =>
      if Refusal(env, r.dag, tx).None? {
        PayExact(r.dag.ledger, tx, a);
        ReceivedSnoc(r.past, Past(tx, false), a);
      }
    case ProcessUnstakes(b, time, epoch) => PayoutExact(r.dag.ledger, b, time, epoch, a);
    case _ =>
  }

  /** And to its stake. */
  lemma StepStake(env: Env, r: Run, op: Op, a: Address)
    requires Balanced(r) && Step(env, r, op).minted < TWO64
    ensures var before, after := r.dag.ledger.StakeOf(a), Step(env, r, op).dag.ledger.StakeOf(a);
            after == match op
                     case AddStake(b, n) => if a == b then before + n else before
                     case RequestUnstake(b, n, _, _) => if a == b && n <= before then before - n else before
                     case _ => before
  {
    StakeFits(r.dag.ledger, a);
  }
}
