/** The transaction DAG: the value model `Dag` with its operations, and the class `DagGraph`. */
module Dags {
  import opened Core
  import opened Ledgers
  import opened Conflicts
  import opened Tips
  import opened Bfs

  datatype Node = Node(tx: Transaction, hash: TxHash, status: Status, children: seq<TxHash>, weight: nat, depth: nat)

  type Nodes = map<TxHash, Node>

  datatype Dag = Dag(
    ledger: Ledger,
    committed: map<(Address, u64), TxHash>,
    nodes: Nodes,
    tips: set<TxHash>,
    totalCount: nat,
    maxDepth: nat)

  const EMPTY_DAG := Dag(EMPTY, map[], map[], {}, 0, 0)

  function AddChild(nodes: Nodes, parent: TxHash, child: TxHash): Nodes {
    if parent in nodes then nodes[parent := nodes[parent].(children := nodes[parent].children + [child])] else nodes
  }

  function PropagateWeight(nodes: Nodes, h: TxHash): Nodes {
    if h in nodes then nodes[h := nodes[h].(weight := nodes[h].weight + 1)] else nodes
  }

  /** The nodes after `child` is hung under both parent slots of `tx`. */
  function Attach(nodes: Nodes, tx: Transaction, child: TxHash): Nodes {
    if tx.IsGenesis() then nodes else
      PropagateWeight(PropagateWeight(
        AddChild(AddChild(nodes, tx.parent1, child), tx.parent2, child), tx.parent1), tx.parent2)
  }

  function DepthOf(nodes: Nodes, h: TxHash): nat {
    if h in nodes then nodes[h].depth else 0
  }

  function NewDepth(nodes: Nodes, tx: Transaction): nat {
    if tx.IsGenesis() then 0 else Max(DepthOf(nodes, tx.parent1), DepthOf(nodes, tx.parent2)) + 1
  }

  /** The checks of `insert`, in its order: the first that fails, if any. */
  ghost function Refusal(env: Env, d: Dag, tx: Transaction): Option<Error> {
    var balance := d.ledger.Balance(tx.sender);
    if !env.Validates(tx) then env.Validation(tx)
    else if tx.amount + tx.fee >= TWO64 then Some(InvalidTransaction)
    else if balance < tx.amount + tx.fee then Some(InsufficientBalance(balance, tx.amount + tx.fee))
    else if env.hash(tx) in d.nodes then Some(InvalidTransaction)
    else if !tx.IsGenesis() && tx.parent1 !in d.nodes then Some(InvalidParent(tx.parent1))
    else if !tx.IsGenesis() && tx.parent2 !in d.nodes then Some(InvalidParent(tx.parent2))
    else if SaturatingAdd(d.ledger.Circulating() % TWO64, tx.amount) > TOTAL_SUPPLY then Some(SupplyCapExceeded)
    else match Check(d.committed, tx, balance, 0)
      case NonceConflict(_) => Some(DuplicateNonce(tx.nonce))
      case OverSpend(_, _) => Some(DoubleSpend(env.hash(tx)))
      case NoConflict =>
        if tx.nonce != d.ledger.Nonce(tx.sender) + 1 then Some(DuplicateNonce(tx.nonce)) else None
  }

  /** The sender is debited amount and fee; the receiver is credited the amount only. */
  function Pay(l: Ledger, tx: Transaction): Ledger
    requires tx.amount + tx.fee < TWO64
  {
    l.Debit(tx.sender, tx.amount + tx.fee).Credit(tx.receiver, tx.amount).BumpNonce(tx.sender)
  }

  /** A payment takes its fee out of circulation, and nothing wraps. */
  lemma PayBurnsFee(l: Ledger, tx: Transaction)
    requires tx.amount + tx.fee <= l.Balance(tx.sender) && l.Circulating() < TWO64
    ensures Pay(l, tx).Circulating() == l.Circulating() - tx.fee
  {
    var debited := l.Debit(tx.sender, tx.amount + tx.fee);
    DebitTakes(l, tx.sender, tx.amount + tx.fee);
    CreditAdds(debited, tx.receiver, tx.amount);
    var credited := debited.Credit(tx.receiver, tx.amount);
    assert Pay(l, tx) == credited.BumpNonce(tx.sender) == credited.(nonces := Pay(l, tx).nonces);
  }

  function Apply(env: Env, d: Dag, tx: Transaction): Dag
    requires tx.amount + tx.fee < TWO64
  {
    var h := env.hash(tx);
    var depth := NewDepth(d.nodes, tx);
    Dag(
      Pay(d.ledger, tx),
      d.committed[(tx.sender, tx.nonce) := h],
      Attach(d.nodes, tx, h)[h := Node(tx, h, Pending, [], 1, depth)],
      d.tips - {tx.parent1} - {tx.parent2} + {h},
      d.totalCount + 1,
      Max(d.maxDepth, depth))
  }

  ghost function AfterInsert(env: Env, d: Dag, tx: Transaction): Dag {
    if Refusal(env, d, tx).None? then Apply(env, d, tx) else d
  }

  function AfterGenesis(env: Env, d: Dag, tx: Transaction): Dag {
    if !tx.IsGenesis() then d else
      var h := env.hash(tx);
      d.(ledger := d.ledger.Credit(tx.receiver, tx.amount),
         nodes := d.nodes[h := Node(tx, h, Confirmed, [], 1, 0)],
         tips := d.tips + {h},
         totalCount := d.totalCount + 1)
  }

  function AfterStatus(d: Dag, h: TxHash, status: Status): Dag {
    if h in d.nodes then d.(nodes := d.nodes[h := d.nodes[h].(status := status)]) else d
  }

  predicate Prunable(n: Node, maxDepth: nat, confirmations: nat) {
    n.status == Confirmed && Max(maxDepth - n.depth, 0) > confirmations
  }

  /** Pruning drops nodes and nothing else: tips, counters, the nonce index, the ledger and the child
      lists of other nodes keep their entries. */
  function AfterPrune(d: Dag, confirmations: nat): Dag {
    d.(nodes := map h | h in d.nodes && !Prunable(d.nodes[h], d.maxDepth, confirmations) :: d.nodes[h])
  }

  /** What is gone after pruning is confirmed and deep enough, and all of that is gone. */
  lemma RipeGone(before: Nodes, after: Nodes, pruned: seq<TxHash>, maxDepth: nat, confirmations: nat)
    requires forall h :: h in after ==> h in before && after[h] == before[h]
    requires forall h :: h in before ==> (h in after <==> !Prunable(before[h], maxDepth, confirmations))
    requires forall h :: h in pruned <==> h in before && h !in after
    ensures forall h :: h in pruned <==>
              h in before && before[h].status == Confirmed && before[h].depth + confirmations < maxDepth
    ensures after == map h | h in before && h !in pruned :: before[h]
    ensures after == map h | h in before && !Prunable(before[h], maxDepth, confirmations) :: before[h]
  {}

  function ParentsOf(n: Node): seq<TxHash> {
    (if n.tx.parent1 != ZERO_HASH then [n.tx.parent1] else []) +
    (if n.tx.parent2 != ZERO_HASH then [n.tx.parent2] else [])
  }

  /** The edges an ancestor walk follows, and those a descendant walk follows. */
  ghost function ParentEdges(nodes: Nodes): Edges { map h | h in nodes :: ParentsOf(nodes[h]) }
  ghost function ChildEdges(nodes: Nodes): Edges { map h | h in nodes :: nodes[h].children }

  class DagGraph {
    const env: Env
    const state: LedgerState
    const tips: TipSelector
    const conflicts: ConflictDetector
    var nodes: Nodes
    var totalCount: nat
    var maxDepth: nat

    ghost function Model(): Dag
      reads this, state, tips, conflicts
    {
      Dag(state.Model(), conflicts.committed, nodes, tips.tips, totalCount, maxDepth)
    }

    ghost predicate Valid()
      reads this, tips, conflicts
    {
      tips.Valid() && conflicts.env == env
    }

    constructor (env: Env)
      ensures Valid() && this.env == env && Model() == EMPTY_DAG
      ensures fresh(state) && fresh(tips) && fresh(conflicts)
    {
      this.env := env;
      state := new LedgerState();
      tips := new TipSelector();
      conflicts := new ConflictDetector(env);
      nodes, totalCount, maxDepth := map[], 0, 0;
    }

    method InsertGenesis(tx: Transaction, now: nat) returns (r: Result<TxHash>)
      requires Valid()
      modifies this, state, tips
      ensures Valid() && Model() == AfterGenesis(env, old(Model()), tx)
      ensures r == if tx.IsGenesis() then Ok(env.hash(tx)) else Err(InvalidTransaction)
      ensures r.Err? ==> Model() == old(Model())
      ensures r.Ok? ==> var h := env.hash(tx);
                        && nodes == old(nodes)[h := Node(tx, h, Confirmed, [], 1, 0)]
                        && tips.tips == old(tips.tips) + {h} && totalCount == old(totalCount) + 1
                        && tips.weights == old(tips.weights)[h := 1] && tips.addedAt == old(tips.addedAt)[h := now]
                        && state.Model() == old(state.Model()).Credit(tx.receiver, tx.amount)
    {
      if !tx.IsGenesis() {
        return Err(InvalidTransaction);
      }
      var h := env.hash(tx);
      state.Credit(tx.receiver, tx.amount);
      nodes := nodes[h := Node(tx, h, Confirmed, [], 1, 0)];
      tips.Add(h, now);
      totalCount := totalCount + 1;
      r := Ok(h);
    }

    /** The checks of `insert`, in order. Nothing runs between the two balance checks of the original
        here, so the second cannot fail; Concurrent.dfy keeps it. */
    method CheckInsert(tx: Transaction) returns (refusal: Option<Error>)
      requires Valid()
      ensures refusal == Refusal(env, Model(), tx)
    {
      refusal := env.Validation(tx);
      if refusal.Some? {
        return;
      }
      if tx.amount + tx.fee >= TWO64 {
        return Some(InvalidTransaction);
      }
      var debit := tx.amount + tx.fee;
      var balance := state.Balance(tx.sender);
      if balance < debit {
        return Some(InsufficientBalance(balance, debit));
      }
      var h := env.hash(tx);
      if h in nodes {
        return Some(InvalidTransaction);
      }
      if !tx.IsGenesis() {
        if tx.parent1 !in nodes {
          return Some(InvalidParent(tx.parent1));
        }
        if tx.parent2 !in nodes {
          return Some(InvalidParent(tx.parent2));
        }
      }
      var circulating := state.TotalCirculating();
      if SaturatingAdd(circulating, tx.amount) > TOTAL_SUPPLY {
        return Some(SupplyCapExceeded);
      }
      var conflict := conflicts.CheckTransaction(tx, balance, 0);
      match conflict
      case NonceConflict(_) => return Some(DuplicateNonce(tx.nonce));
      case OverSpend(_, _) => return Some(DoubleSpend(h));
      case NoConflict =>
      var nonce := state.Nonce(tx.sender);
      refusal := if tx.nonce != nonce + 1 then Some(DuplicateNonce(tx.nonce)) else None;
    }

    method Insert(tx: Transaction, now: nat) returns (r: Result<TxHash>)
      requires Valid()
      modifies this, state, tips, conflicts
      ensures Valid() && Model() == AfterInsert(env, old(Model()), tx)
      ensures r == match Refusal(env, old(Model()), tx)
                   case Some(e) => Err(e)
                   case None => Ok(env.hash(tx))
      ensures r.Err? ==> Model() == old(Model())
      ensures r.Err? ==> tips.weights == old(tips.weights) && tips.addedAt == old(tips.addedAt)
      ensures r.Ok? ==>
                && tips.weights == (old(tips.weights) - {tx.parent1} - {tx.parent2})[env.hash(tx) := 1]
                && tips.addedAt == (old(tips.addedAt) - {tx.parent1} - {tx.parent2})[env.hash(tx) := now]
    {
      var refusal := CheckInsert(tx);
      if refusal.Some? {
        return Err(refusal.value);
      }
      var h := env.hash(tx);
      var debited := ApplyPayment(tx, tx.amount + tx.fee);
      if debited.Err? {
        assert false;  // the balance check has just passed
      }
      conflicts.CommitTransaction(tx);
      Link(tx, h, now);
      r := Ok(h);
    }

    /** The part of `insert` that changes the ledger. */
    method ApplyPayment(tx: Transaction, debit: u64) returns (r: Result<()>)
      requires debit == tx.amount + tx.fee
      modifies state
      ensures r == if debit <= old(state.Model()).Balance(tx.sender) then Ok(())
                   else Err(InsufficientBalance(old(state.Model()).Balance(tx.sender), debit))
      ensures r.Ok? ==> state.Model() == Pay(old(state.Model()), tx)
    {
      r := state.Debit(tx.sender, debit);
      if r.Ok? {
        state.Credit(tx.receiver, tx.amount);
        state.IncrementNonce(tx.sender);
      }
    }

    /** The part of `insert` that changes the graph. */
    method Link(tx: Transaction, h: TxHash, now: nat)
      requires Valid()
      modifies this, tips
      ensures Valid() && tips.tips == old(tips.tips) - {tx.parent1} - {tx.parent2} + {h}
      ensures tips.weights == (old(tips.weights) - {tx.parent1} - {tx.parent2})[h := 1]
      ensures tips.addedAt == (old(tips.addedAt) - {tx.parent1} - {tx.parent2})[h := now]
      ensures nodes == Attach(old(nodes), tx, h)[h := Node(tx, h, Pending, [], 1, NewDepth(old(nodes), tx))]
      ensures totalCount == old(totalCount) + 1 && maxDepth == Max(old(maxDepth), NewDepth(old(nodes), tx))
    {
      var depth := 0;
      if !tx.IsGenesis() {
        depth := Max(DepthOf(nodes, tx.parent1), DepthOf(nodes, tx.parent2)) + 1;
      }
      if depth > maxDepth {
        maxDepth := depth;
      }
      if !tx.IsGenesis() {
        nodes := AddChild(nodes, tx.parent1, h);
        nodes := AddChild(nodes, tx.parent2, h);
        nodes := PropagateWeight(nodes, tx.parent1);
        nodes := PropagateWeight(nodes, tx.parent2);
      }
      tips.Remove(tx.parent1);
      tips.Remove(tx.parent2);
      tips.Add(h, now);
      nodes := nodes[h := Node(tx, h, Pending, [], 1, depth)];
      totalCount := totalCount + 1;
    }

    method SetStatus(h: TxHash, status: Status)
      modifies this`nodes
      ensures Model() == AfterStatus(old(Model()), h, status)
      ensures nodes == if h in old(nodes) then old(nodes)[h := old(nodes)[h].(status := status)] else old(nodes)
    {
      if h in nodes {
        nodes := nodes[h := nodes[h].(status := status)];
      }
    }

    /** What separates a present node from the deepest level, if it is not deeper than that itself. */
    method ConfirmationDepth(h: TxHash) returns (r: nat)
      ensures h in nodes && nodes[h].depth <= maxDepth ==> nodes[h].depth + r == maxDepth
      ensures h !in nodes || maxDepth < nodes[h].depth ==> r == 0
    {
      r := if h in nodes then Max(maxDepth - nodes[h].depth, 0) else 0;
    }

    /** The retain loop visits the nodes in an arbitrary order. */
    method PruneConfirmed(confirmations: nat) returns (pruned: seq<TxHash>)
      modifies this`nodes
      ensures Model() == AfterPrune(old(Model()), confirmations)
      ensures forall h :: h in pruned <==>
                h in old(nodes) && old(nodes)[h].status == Confirmed && old(nodes)[h].depth + confirmations < maxDepth
      ensures nodes == map h | h in old(nodes) && h !in pruned :: old(nodes)[h]
      ensures forall i, j :: 0 <= i < j < |pruned| ==> pruned[i] != pruned[j]
    {
      pruned := [];
      var rest := nodes.Keys;
      while rest != {}
        invariant rest <= nodes.Keys <= old(nodes).Keys
        invariant forall h :: h in nodes ==> nodes[h] == old(nodes)[h]
        invariant forall h :: h in old(nodes) && h !in rest ==>
                    (h in nodes <==> !Prunable(old(nodes)[h], maxDepth, confirmations))
        invariant forall h :: h in pruned <==> h in old(nodes) && h !in nodes
        invariant forall i, j :: 0 <= i < j < |pruned| ==> pruned[i] != pruned[j]
        decreases |rest|
      {
        var h :| h in rest;
        if Prunable(nodes[h], maxDepth, confirmations) {
          pruned := pruned + [h];
          nodes := nodes - {h};
        }
        rest := rest - {h};
      }
      RipeGone(old(nodes), nodes, pruned, maxDepth, confirmations);
    }

    method GetAncestors(h: TxHash, maxLevels: nat) returns (result: seq<TxHash>)
      ensures LevelBounded(ParentEdges(nodes), h, maxLevels, result)
    {
      ghost var edges := ParentEdges(nodes);
      var queue: seq<QueueEntry>, visited := [(h, 0)], {};
      result := [];
      FrontierStart(edges, h, maxLevels);
      while queue != []
        invariant Frontier(edges, h, maxLevels, queue, visited, result)
        decreases |Hashes(edges, h) - visited|, |queue|
      {
        PopKeepsFrontier(edges, h, maxLevels, queue, visited, result);
        queue, visited, result := VisitTowardsParents(maxLevels, queue, visited, result);
      }
      DrainedFrontier(edges, h, maxLevels, visited, result);
    }

    /** The loop body of GetAncestors. */
    method VisitTowardsParents(maxLevels: nat, queue: seq<QueueEntry>, visited: set<TxHash>, result: seq<TxHash>)
      returns (queue': seq<QueueEntry>, visited': set<TxHash>, result': seq<TxHash>)
      requires queue != []
      ensures (queue', visited', result') == Pop(ParentEdges(nodes), maxLevels, queue, visited, result)
    {
      var (current, level) := queue[0];
      queue', visited', result' := queue[1..], visited, result;
      if level > maxLevels || current in visited {
        return;
      }
      visited' := visited + {current};
      if current in nodes {
        if level > 0 {
          result' := result + [current];
        }
        var tx := nodes[current].tx;
        if tx.parent1 != ZERO_HASH {
          queue' := queue' + [(tx.parent1, level + 1)];
        }
        if tx.parent2 != ZERO_HASH {
          queue' := queue' + [(tx.parent2, level + 1)];
        }
        assert queue' == queue[1..] + AtLevel(ParentsOf(nodes[current]), level + 1);
      }
    }

    method GetDescendants(h: TxHash, maxLevels: nat) returns (result: seq<TxHash>)
      ensures LevelBounded(ChildEdges(nodes), h, maxLevels, result)
    {
      ghost var edges := ChildEdges(nodes);
      var queue: seq<QueueEntry>, visited := [(h, 0)], {};
      result := [];
      FrontierStart(edges, h, maxLevels);
      while queue != []
        invariant Frontier(edges, h, maxLevels, queue, visited, result)
        decreases |Hashes(edges, h) - visited|, |queue|
      {
        PopKeepsFrontier(edges, h, maxLevels, queue, visited, result);
        queue, visited, result := VisitTowardsChildren(maxLevels, queue, visited, result);
      }
      DrainedFrontier(edges, h, maxLevels, visited, result);
    }

    /** The loop body of GetDescendants. */
    method VisitTowardsChildren(maxLevels: nat, queue: seq<QueueEntry>, visited: set<TxHash>, result: seq<TxHash>)
      returns (queue': seq<QueueEntry>, visited': set<TxHash>, result': seq<TxHash>)
      requires queue != []
      ensures (queue', visited', result') == Pop(ChildEdges(nodes), maxLevels, queue, visited, result)
    {
      var (current, level) := queue[0];
      queue', visited', result' := queue[1..], visited, result;
      if level > maxLevels || current in visited {
        return;
      }
      visited' := visited + {current};
      if current in nodes {
        if level > 0 {
          result' := result + [current];
        }
        var children := nodes[current].children;
        for i := 0 to |children|
          invariant queue' == queue[1..] + AtLevel(children[..i], level + 1)
        {
          assert children[..i + 1][..i] == children[..i];
          queue' := queue' + [(children[i], level + 1)];
        }
        assert children[..|children|] == children;
      }
    }
  }
}
