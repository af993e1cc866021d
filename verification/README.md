# Relyo: a verified model of the ledger, the DAG and what surrounds them

Relyo keeps an account-based ledger on a DAG in which every transaction names two parents. This project
models the parts that carry its promises and proves those promises in Dafny 4.11:

    dafny verify dfyconfig.toml

Code that changes state in the original (the graph, the ledger, the tips, the mempool, the vote
aggregator, the rate limiter) is modelled by classes whose methods are proved against functions on
immutable values; what the system promises over runs is proved about those functions.

| files | part |
|---|---|
| `Core`, `Sums` | machine words, transactions, errors; sums over maps |
| `Ledger`, `Unstaking` | balances, nonces, stakes, the unstaking queue and its life over runs |
| `Conflict`, `Tips`, `Bfs`, `Dag` | the nonce index, the tips, the level-bounded search, the graph |
| `History`, `Structure`, `Paths` | runs with pruning against the history of everything ever inserted |
| `Rules`, `Accounts`, `Statuses` | what insert accepts, what every balance and every status is, over every run |
| `Concurrent`, `Presence`, `Quiescence`, `Settlement`, `Alone` | interleavings of any number of concurrent inserts |
| `TipAccess`, `TipSteps` | the three structures behind the tips, access by access, and inserts that use them |
| `Alongside`, `PrunedDepths`, `PrunedParents` | inserts with genesis, status, pruning and staking calls beside them |
| `Merkle`, `Emission`, `Signable` | the flat Merkle tree, the reward schedule, the canonical bytes |
| `Consensus`, `Finality` | weighted votes and the justification of finality events |
| `Mempool`, `RateLimiter` | the pool and the sliding window |

## Reading the model

- *Histories.* Pruning deletes nodes but not their effects, so runs carry a ghost history of every
  transaction ever inserted, and the structural statements are about it. `Clean` says that no two
  transactions of the history share a hash and none hashes to the zero sentinel. It can fail only through
  the hash or through `insert_genesis`, which has no duplicate check (`Structure.RunCleanIff`,
  `Quiescence.InterleaveCleanIff`).
- *Concurrency.* In `Concurrent` each step of a call is one access to shared state: a read, one attempt
  of a compare-exchange loop, an atomic add, one update of one map entry. Any number of calls advance in
  any order, each holding its sender's lock from the duplicate check to the end. `Presence` and
  `Quiescence` say what each call in flight still owes to the graph, `Settlement` what it owes to
  balances, and `Alone` that a call left alone is the sequential `insert` of `Dag`. `TipSteps` refines the
  tip operations of inserts to single accesses, and `Alongside` adds the node's other calls.
- *Integers.* Cargo.toml enables no overflow checks for release builds, so a plain `+` wraps modulo
  2^64. Balances, stakes, unlock fields, tip weights, fees and powers are u64 with wrapping, saturating or
  checked arithmetic as in the source.
- *Cryptography.* The transaction hash, the address of a public key and the verdict of the signature
  check are parameters. Where injectivity of the Merkle hash would be needed, a function extracts an
  explicit collision instead.
- *Fees.* README.md:34 of Relyo says that validators receive all transaction fees. The code debits
  amount + fee and credits the amount only (`crates/relyo-dag/src/graph.rs:153-154`); the model follows
  the code, and what fees take out of circulation is counted as burned.
- *Where a promise fails.* Each failure comes with its exact condition. Finality is not sticky: a vote
  reopens a decided transaction exactly when it cannot decide alone (`Finality.LateVoteReopens`). Merkle
  roots do not fix the leaf count: they decide levels (`Merkle.RootsDecideLevels`), and the length of an
  accepted proof says of which level (`Merkle.InnerNodesPassAsLeaves`, `Merkle.ShorterProofsBind`). The
  signable bytes truncate list lengths to 32 bits and determine a transaction exactly up to the number of
  its inputs, outputs and parents (`Signable.SameBytesIffSameLengths`). The confirmation depth counts
  layers of descendants exactly on longest paths (`Paths.ConfirmationCountsLayers`). Weighted selection is
  proportional exactly while the weights fit a u64 (`Tips.ProportionalIffFits`), and an unstaking lock lasts
  30 days or 10 epochs exactly while its fields do (`Unstaking.LockIsPromised`). Pruning beside inserts
  keeps depths right exactly while each insert still finds a deepest parent to read
  (`PrunedDepths.DepthsRightIffSeen`, `PrunedParents.PrunedParentRun`).

## Model

| member | source | states |
|---|---|---|
| `Concurrent.DebitNeverFails` | crates/relyo-dag/src/graph.rs:96-153 | in every interleaving of any number of concurrent inserts, a call that has passed its balance check finds the money still there at the debit |
| `Concurrent.NoncesConsumedOnce` | crates/relyo-dag/src/graph.rs:146-156 | in every interleaving, two history entries of one sender carry different, increasing nonces |
| `Concurrent.ValueConserved` | crates/relyo-dag/src/graph.rs:152-156 | between any two steps: balances + stakes + queued unstakes + debited-but-not-credited + burned fees = everything minted |
| `Concurrent.InterleaveKeepsInv` | crates/relyo-dag/src/graph.rs:82-205 | conservation, soundness of every call, lock ownership and the lagging nonce index hold in every state any interleaving reaches |
| `Concurrent.TickKeepsInv` | crates/relyo-dag/src/graph.rs:82-205 | each single access to shared state by any call keeps that invariant |
| `Concurrent.OtherCallKept` | crates/relyo-dag/src/graph.rs:96-156 | a step of one call never takes another call's lock, lowers a balance under another call's lock, or touches its nonce |
| `Concurrent.TickIndexes` | crates/relyo-dag/src/graph.rs:136-156 | each step keeps the nonce index and counter of every sender within one transaction of the history, by exactly the step the lock holder has reached |
| `Concurrent.CreditConserves` | crates/relyo-dag/src/state.rs:57-61 | under conservation the atomic add of a credit cannot wrap |
| `Quiescence.InterleaveKeepsShape` | crates/relyo-dag/src/graph.rs:159-201 | between any two steps the child lists, weights, depths, tips, max_depth and total_count differ from what the history calls for by exactly what the calls in flight still owe, and the nodes present are those of the start and of every transaction that joined since, but for the nodes that calls in flight will still put |
| `Quiescence.MoveShape` | crates/relyo-dag/src/graph.rs:159-201 | whatever one tick of one call did, that relation survives it |
| `Quiescence.AllReturnedAgrees` | crates/relyo-dag/src/graph.rs:159-201 | once all calls have returned, for any interleaving: the nodes are exactly those of the start and of every transaction that joined since, each holding its own transaction; child lists (up to sibling order), weights, depths, tips, count and maximum agree with the history |
| `Presence.NoNodeLost` | crates/relyo-dag/src/graph.rs:190-201 | in every reachable state each history entry since the start has its node or a call that will still put it, and no other node has appeared |
| `Presence.ReturnedNodes` | crates/relyo-dag/src/graph.rs:190-201 | once all calls have returned a hash has a node iff it had one at the start or a new history entry has it |
| `Quiescence.AllReturnedSettles` | crates/relyo-dag/src/graph.rs:96-156 | once all calls have returned every lock is free, each sender's index holds exactly nonces 1..counter, and circulating + burned = minted |
| `Quiescence.ParentStepAt` | crates/relyo-dag/src/graph.rs:180-183 | a push or a weight increment under a parent settles exactly that part of the call's debt to the node, also when both parents are the same |
| `Quiescence.TipDropped` | crates/relyo-dag/src/graph.rs:187-188 | dropping a parent from the tips is right for every node whatever other calls are in flight |
| `Quiescence.TipOperationsApart` | crates/relyo-dag/src/graph.rs:187-200 | while a call adds a tip no other call adds or removes the same one, in every reachable state |
| `Quiescence.InterleaveCleanIff` | crates/relyo-dag/src/graph.rs:92-149 | the same for every interleaving: locks and nonces rule out every other way, one transaction submitted twice included |
| `TipAccess.FinishedStructuresAgree` | crates/relyo-dag/src/tips.rs:26-42 | adds and removes that touch the three structures one after the other, interleaved in any way, leave them with the same keys once all have finished, if no hash is added while another operation on it is under way |
| `TipAccess.OvertakenAddDisagrees` | crates/relyo-dag/src/tips.rs:26-42 | without that condition it fails: an add overtaken by a remove leaves a weight and an age without a tip |
| `TipSteps.ReturnedTipsAgree` | crates/relyo-dag/src/graph.rs:186-200 | with each tip operation of each concurrent insert taken access by access: once all calls have returned the three structures hold the same hashes, and these are exactly the recorded ones without a child |
| `TipSteps.MoveKeeps` | crates/relyo-dag/src/tips.rs:26-42 | each step of an insert and each single access to a tip structure keeps the relation between the three structures, the operations under way and the tip set of the inserts |
| `Alongside.UnfoldKeepsInv` | crates/relyo-dag/src/graph.rs:55-211 | genesis transactions, status changes, pruning entry by entry, and staking, unstaking and payouts access by access, interleaved with inserts in any way, keep the books, the locks, the funds checked and the nonce index |
| `Alongside.WorldConserved` | crates/relyo-dag/src/state.rs:57-209 | with all of these running at once, between any two steps: circulating + in flight + taken from stake or queue and not yet put back + burned fees = minted |
| `Alongside.InsertsUndisturbed` | crates/relyo-dag/src/graph.rs:96-156 | with all of these running at once the debit after the balance check still finds the money and the nonces of each sender still strictly increase |
| `PrunedDepths.DepthsRightIffSeen` | crates/relyo-dag/src/graph.rs:159-165 | with pruning and the rest running beside inserts, all depths are at all times the longest paths of the history iff each insert, when it read its parents' depths, still found a deepest one (or had nothing deeper than 0 to find) |
| `PrunedDepths.ReadIsExact` | crates/relyo-dag/src/graph.rs:162-164 | the depth computed from the two reads is never too deep, and right iff a deepest parent was seen |
| `PrunedDepths.SparedIsRight` | crates/relyo-dag/src/graph.rs:335-347 | a guard pruning could keep: if it drops no node that a call in flight has found as a parent and not yet read, all depths are right |
| `PrunedParents.PruningMisleads` | crates/relyo-dag/src/graph.rs:335-347 | any transaction insert would accept while both its parents are ripe for pruning has an interleaving that gives it depth 1 |
| `PrunedParents.PrunedParentRun` | crates/relyo-dag/src/graph.rs:159-165 | a concrete run in which a transaction that belongs at depth 2 gets depth 1 |
| `Settlement.BalancesAccounted` | crates/relyo-dag/src/graph.rs:152-154 | between any two steps each balance plus the credits on their way to it is the starting balance plus what the history since has moved |
| `Settlement.ReturnedBalances` | crates/relyo-dag/src/graph.rs:152-154 | once all calls have returned each balance is exactly the one the history accounts for |
| `Settlement.ResultsHonest` | crates/relyo-dag/src/graph.rs:82-205 | in every reachable state the calls that have debited and the new history entries correspond one to one; a success reports the hash of its own entry and every other finished call an error |
| `Settlement.ReturnedResults` | crates/relyo-dag/src/graph.rs:82-205 | once all calls have returned, a transaction has joined the history iff a call on it returned Ok(hash); it joined once, and of any number of racing submissions of it exactly that one succeeded |
| `Alone.UninterruptedIsInsert` | crates/relyo-dag/src/graph.rs:82-205 | a call that runs without interruption from any state with its sender's lock free leaves the DAG, and gives the answer, that the sequential insert specifies, error for error |
| `Dags.DagGraph.Insert` | crates/relyo-dag/src/graph.rs:82-205 | new state is the specified one; the result is the error of the first failing check or the hash; a rejected insert changes nothing |
| `Dags.DagGraph.CheckInsert` | crates/relyo-dag/src/graph.rs:83-149 | the refusal of the state the graph is in; which it is, is told by `Rules.RefusedByFirstBroken` |
| `Rules.RefusedByFirstBroken` | crates/relyo-dag/src/graph.rs:83-149 | over every run insert refuses a transaction with the error of the first of thirteen rules it breaks, in the order of the code, and accepts it if it breaks none; supply is what was minted and not burned, the next nonce the number of transactions sent |
| `Rules.ValidationIsFirstBroken` | crates/relyo-core/src/transaction.rs:173-198 | validate passes exactly transactions of the key owner with a right signature, a positive transfer amount to somebody else and a fee of at least 0.01 RLY unless genesis; otherwise it gives the error of the first of these rules broken |
| `Rules.RunIsProper` | crates/relyo-core/src/transaction.rs:173-198 | over every run, whatever came into the history through insert meets all rules of validate |
| `Rules.InterleaveIsProper` | crates/relyo-dag/src/graph.rs:82-156 | the same for every interleaving of inserts |
| `Rules.UnfoldIsProper` | crates/relyo-dag/src/graph.rs:82-156 | and for inserts interleaved with genesis, status, pruning and staking calls |
| `Dags.DagGraph.ApplyPayment` | crates/relyo-dag/src/graph.rs:152-155 | amount + fee leave the sender, amount reaches the receiver, the counter goes up; a refused debit is the source's error |
| `Dags.DagGraph.Link` | crates/relyo-dag/src/graph.rs:159-201 | depth, maximum, both parents' children and weights, tips with weight and age, node and count after an insert, also for equal parents |
| `Dags.DagGraph.InsertGenesis` | crates/relyo-dag/src/graph.rs:56-79 | a genesis transaction credits its receiver and becomes a node of depth 0 with status Confirmed, a tip of weight 1 and one more in the count; any other is refused and changes nothing |
| `Alongside.GenesisAlone` | crates/relyo-dag/src/graph.rs:61-77 | its four steps, when nobody interrupts them, are that insert |
| `Alongside.EvictTakesRipe` | crates/relyo-dag/src/graph.rs:339-348 | pruning beside other calls takes an entry only if it is confirmed and deep enough |
| `Alongside.RequestAlone` | crates/relyo-dag/src/state.rs:161-182 | the two steps of an unstaking request, uninterrupted, are the sequential request, granted or refused |
| `Alongside.PayoutAlone` | crates/relyo-dag/src/state.rs:185-209 | so are those of a payout |
| `Dags.DagGraph.SetStatus` | crates/relyo-dag/src/graph.rs:207-211 | only the status of the named node changes, and only if it is present |
| `Dags.DagGraph.ConfirmationDepth` | crates/relyo-dag/src/graph.rs:263-269 | depth plus result is the maximum depth for a present node no deeper than that; otherwise 0 |
| `Paths.ConfirmationCountsLayers` | crates/relyo-dag/src/graph.rs:262-269 | over every run: nothing saturates, the result is at least the number of layers of any chain of descendants, and some chain has that many iff the node lies on a longest path |
| `Dags.DagGraph.PruneConfirmed` | crates/relyo-dag/src/graph.rs:335-354 | exactly the nodes with status Confirmed more than the given bound below max_depth go, each reported once; the others stay as they are, child lists included |
| `Statuses.StatusIsTold` | crates/relyo-dag/src/graph.rs:56-211 | over every run, pruning included, a present node has the status last set on it since it joined, or Confirmed if it came as genesis and Pending if it was sent |
| `Statuses.UnconfirmedNeverPruned` | crates/relyo-dag/src/graph.rs:335-354 | over every run a transaction sent through insert that nobody marked confirmed keeps its node, however much is pruned |
| `Accounts.RunSquared` | crates/relyo-dag/src/state.rs:57-209 | over every run each balance is exactly what the history moved into it (genesis amounts, receipts, less amounts and fees sent) plus payouts, and each stake what was staked less the requests granted |
| `Dags.DagGraph.GetAncestors` | crates/relyo-dag/src/graph.rs:272-302 | terminates; returns without duplicates, nearest first, exactly the present nodes at shortest distance 1..max_levels along parents |
| `Dags.DagGraph.GetDescendants` | crates/relyo-dag/src/graph.rs:305-332 | the same along child lists |
| `Bfs.PopKeepsFrontier` | crates/relyo-dag/src/graph.rs:283-299 | the FIFO-level invariant: levels in the queue span at most two values, and the search ends, although a node is marked only at its first pop |
| `Bfs.DrainedFrontier` | crates/relyo-dag/src/graph.rs:283-302 | when the queue is empty the result is exactly the level-bounded neighbourhood |
| `Dags.PayBurnsFee` | crates/relyo-dag/src/graph.rs:153-154 | a payment takes exactly the fee out of circulation and nothing wraps while circulation fits a u64 |
| `History.RunBalanced` | crates/relyo-dag/src/graph.rs:55-205 | over every run: circulating + burned fees = genesis amounts + added stake, while minting fits a u64 |
| `History.RunIndexed` | crates/relyo-dag/src/graph.rs:136-156 | over every run, pruning included: the index of each sender holds exactly the keys 1..nonce, mapped to its transactions in order |
| `History.NonceChecksAgree` | crates/relyo-dag/src/conflict.rs:53-82 | an index conflict only happens for a nonce that the counter check would refuse as well |
| `History.NeverSentTwice` | crates/relyo-dag/src/graph.rs:335-354 | no transaction sent through insert is inserted through it again, even after its node is pruned |
| `Structure.RunStructured` | crates/relyo-dag/src/graph.rs:159-201 | over every run, pruning included: nodes agree with the history on children, weight = 1 + children and depth; tips are the childless recorded hashes; count and maximum are right |
| `Structure.RunCleanIff` | crates/relyo-dag/src/graph.rs:83-107 | over every run the history is clean, as the structural results assume, iff no hash is zero, no genesis transaction was there already, and no two different transactions share a hash |
| `Structure.JoinKeepsTips` | crates/relyo-dag/src/graph.rs:187-200 | dropping both parents and adding the new hash keeps the tips exact |
| `Paths.NodeDepthIsLongestPath` | crates/relyo-dag/src/graph.rs:159-165 | the depth of a present node is the length of the longest parent path to a genesis in the history of everything ever inserted |
| `Paths.MaxDepthIsDeepest` | crates/relyo-dag/src/graph.rs:168-176 | max_depth is the depth of the deepest transaction ever inserted, pruned or not |
| `Paths.EdgesDescend` | crates/relyo-dag/src/graph.rs:159-165 | depth strictly grows along every edge, so the graph is acyclic |
| `Paths.DepthBounded` | crates/relyo-dag/src/graph.rs:159-165 | depth never exceeds the number of earlier transactions |
| `Paths.EdgesMirror` | crates/relyo-dag/src/graph.rs:179-184 | between present nodes the child lists are exactly the parent slots read backwards |
| `Paths.AncestorsMirrorDescendants` | crates/relyo-dag/src/graph.rs:272-332 | a is among the ancestors of b within k levels iff b is among the descendants of a within k levels |
| `Paths.TipsAreChildless` | crates/relyo-dag/src/graph.rs:186-201 | without pruning the tips are exactly the childless nodes |
| `Paths.TipsNeverEmpty` | crates/relyo-dag/src/graph.rs:186-201 | there is a tip as soon as anything was inserted |
| `Ledgers.LedgerState.Credit` | crates/relyo-dag/src/state.rs:57-61 | adds to one balance (wrapping), nothing else changes |
| `Ledgers.LedgerState.Debit` | crates/relyo-dag/src/state.rs:64-84 | takes the amount or refuses with have/need; nothing else changes |
| `Ledgers.LedgerState.AddStake` | crates/relyo-dag/src/state.rs:115-119 | adds stake without debiting any balance |
| `Ledgers.LedgerState.RemoveStake` | crates/relyo-dag/src/state.rs:129-149 | takes the stake or refuses with have/need |
| `Ledgers.LedgerState.RequestUnstake` | crates/relyo-dag/src/state.rs:161-182 | moves stake into a queued request unlocking after 30 days or 10 epochs, or refuses |
| `Ledgers.LedgerState.ProcessUnstakes` | crates/relyo-dag/src/state.rs:185-208 | keeps the still locked requests in order, pays the total of the others and returns it |
| `Ledgers.LedgerState.TotalCirculating` | crates/relyo-dag/src/state.rs:218-239 | the wrapping fold over balances, stakes and queued requests is the true total modulo 2^64 |
| `Ledgers.RequestConserves` | crates/relyo-dag/src/state.rs:161-182 | a request, granted or refused, neither creates nor loses coins |
| `Ledgers.ProcessConserves` | crates/relyo-dag/src/state.rs:185-208 | processing the queue neither creates nor loses coins while circulation fits a u64 |
| `Unstaking.QueueIsOutstanding` | crates/relyo-dag/src/state.rs:161-209 | over every run the queue of an address is exactly its outstanding requests in the order they were made, each with its own lock |
| `Unstaking.OutstandingIsOpen` | crates/relyo-dag/src/state.rs:161-209 | a request is outstanding iff it was granted and no call since has found its lock over |
| `Unstaking.ProcessPaysFirstDue` | crates/relyo-dag/src/state.rs:185-208 | a processing call pays exactly the requests for which it is the first to find the lock over, in order; so each is paid at most once, whatever the clock |
| `Unstaking.ProcessPaysOnlyOwner` | crates/relyo-dag/src/state.rs:185-208 | the payout reaches the address of the call and no other balance |
| `Unstaking.FirstCallAfterLockPays` | crates/relyo-dag/src/state.rs:185-208 | with time and epoch never going back: once the lock of a request is over, the next processing call of its address finds it paid by then, and the call that paid it found the lock over |
| `Unstaking.LockIsPromised` | crates/relyo-dag/src/state.rs:171-175 | a lock is over exactly after 30 days or 10 epochs, whichever comes first, iff neither unlock field overflows its u64; one that overflows is over at once |
| `Conflicts.ConflictDetector.CheckTransaction` | crates/relyo-dag/src/conflict.rs:53-82 | any indexed nonce of the sender is a conflict; otherwise the spend, saturated at a u64, is compared with what is available |
| `Conflicts.ConflictDetector.CommitTransaction` | crates/relyo-dag/src/conflict.rs:84-88 | indexes exactly this sender and nonce |
| `Tips.TipSelector.AddWeighted` | crates/relyo-dag/src/tips.rs:32-36 | the three structures keep the same keys; only this tip's weight changes |
| `Tips.TipSelector.Remove` | crates/relyo-dag/src/tips.rs:38-42 | the three structures lose exactly this key |
| `Tips.TipSelector.UpdateWeight` | crates/relyo-dag/src/tips.rs:45-49 | only a present tip is reweighted |
| `Tips.TipSelector.PruneStale` | crates/relyo-dag/src/tips.rs:139-156 | exactly the tips older than the bound go, each reported once, from all three structures |
| `Tips.TipSelector.SelectWeighted` | crates/relyo-dag/src/tips.rs:75-131 | for every outcome of the draws and any weights: two distinct current tips, the first being the one the loop picks for the drawn target; a redraw that must settle is asked for only when the weights add up to 0 modulo 2^64 |
| `Tips.TipSelector.SelectTwo` | crates/relyo-dag/src/tips.rs:52-72 | for every outcome of the draws: two distinct current tips when there are two |
| `Tips.ProportionalIffFits` | crates/relyo-dag/src/tips.rs:75-107 | each tip is first choice for exactly weight(tip) of the targets drawn from iff the weights add up to less than 2^64 |
| `Tips.WrappedWeightsMislead` | crates/relyo-dag/src/tips.rs:83-107 | beyond that, of two tips weighing 2^63 and 2^63 + 1 the one listed first always wins |
| `Tips.OnePick` | crates/relyo-dag/src/tips.rs:97-107 | every target below the running total, wrapped or not, is picked for exactly one position |
| `Mempools.Mempool.Insert` | crates/relyo-dag/src/mempool.rs:62-84 | refuses duplicates and a full pool; otherwise adds, keeping by_sender the grouping, the fee counter the sum and the size within bounds |
| `Mempools.Mempool.Remove` | crates/relyo-dag/src/mempool.rs:87-105 | returns and forgets the transaction in all three structures, leaving no empty group |
| `Mempools.Mempool.Drain` | crates/relyo-dag/src/mempool.rs:108-145 | removes exactly min(count, len) transactions in the order of the given ranking, and leaves the rest untouched; none left strictly beats one drained |
| `Mempools.Mempool.DrainByPriority` | crates/relyo-dag/src/mempool.rs:108-127 | that with the ranking of weight(): highest price first, none left pays more than one drained |
| `Mempools.RankIsPrice` | crates/relyo-core/src/transaction.rs:212-218 | the price is a thousand times the fee, saturated, over the bytes signed and 64 more, rounded down |
| `Mempools.Mempool.DrainBatch` | crates/relyo-dag/src/mempool.rs:130-145 | that with the ranking of age: oldest timestamp first, none left is older than one drained |
| `Mempools.Mempool.HasConflict` | crates/relyo-dag/src/mempool.rs:161-172 | true iff a pooled transaction of the same sender carries the same nonce |
| `Mempools.ConsistentWith` | crates/relyo-dag/src/mempool.rs:62-84 | an insertion keeps pool, grouping and fee total consistent |
| `Mempools.ConsistentWithout` | crates/relyo-dag/src/mempool.rs:87-105 | a removal keeps pool, grouping and fee total consistent |
| `Merkle.FromHashes` | crates/relyo-core/src/merkle.rs:30-69 | the flat vector holds all levels, 2 * padded - 1 entries, last the root; the empty list gives one zero hash |
| `Merkle.FlatParentIsHash` | crates/relyo-core/src/merkle.rs:50-66 | every inner entry is the hash of the bytes of its two children, left before right |
| `Merkle.Prove` | crates/relyo-core/src/merkle.rs:77-104 | in bounds; the true siblings and directions for an index below the leaf count, nothing otherwise; direction k is the sibling on the right iff bit k of the index is 0 |
| `Merkle.Verify` | crates/relyo-core/src/merkle.rs:125-143 | accepts exactly the proofs that hash up to the expected root |
| `Merkle.GeneratedProofsVerify` | crates/relyo-core/src/merkle.rs:77-143 | every generated proof has log2(padded) siblings and is accepted against the root |
| `Merkle.TruePathClimbs` | crates/relyo-core/src/merkle.rs:125-143 | hashing the true path of any leaf ends at the root |
| `Merkle.ClimbBinds` | crates/relyo-core/src/merkle.rs:125-143 | a full-length path that climbs to the root is the true one, or the search yields two colliding inputs |
| `Merkle.AcceptedProofsBind` | crates/relyo-core/src/merkle.rs:125-143 | an accepted full-length proof carries the padded leaf and the true siblings at the position its directions spell, or an explicit hash collision is found |
| `Merkle.EqualRootsEqualLeaves` | crates/relyo-core/src/merkle.rs:30-69 | equal roots at equal leaf count come from equal leaves, or an explicit hash collision is found |
| `Merkle.PaddingIsNotBound` | crates/relyo-core/src/merkle.rs:30-48 | without equal leaf counts this fails: appending a zero hash to a list that needs padding, the empty list included, keeps the root |
| `Merkle.RootsDecideLevels` | crates/relyo-core/src/merkle.rs:30-74 | for any two leaf lists, empty ones included: the roots of their trees are equal iff, short of an explicit collision, the smaller padded list is a level of the tree of the larger |
| `Merkle.EmptyOrZeroLeaf` | crates/relyo-core/src/merkle.rs:30-37 | for instance no leaves and one zero leaf: one root, two leaf counts |
| `Merkle.InnerNodesPassAsLeaves` | crates/relyo-core/src/merkle.rs:125-143 | without the full length this fails: every entry of the level k steps up, for every k, is accepted as a leaf by a proof k shorter |
| `Merkle.ShorterProofsBind` | crates/relyo-core/src/merkle.rs:125-143 | and nothing else is: an accepted proof that is k shorter carries the entry and true siblings of that level at the position its directions spell, or an explicit collision is found |
| `Merkle.ExtraIsIgnored` | crates/relyo-core/src/merkle.rs:127-140 | siblings without a direction and directions without a sibling never matter |
| `Emission.RewardAtEpoch` | crates/relyo-core/src/primitives.rs:626-641 | the loop with its early exit returns the u128 iteration cut to u64, for any decay factor; up to 10000 bps that is the repeated floored decay |
| `Emission.TotalEmittedThroughEpoch` | crates/relyo-core/src/primitives.rs:644-650 | the saturating loop and the clamp return the exact sum cut at the cap, for any decay factor |
| `Emission.RewardAtDepth` | crates/relyo-core/src/primitives.rs:653-661 | the reward of the epoch the depth falls into |
| `Emission.NothingTruncated` | crates/relyo-core/src/primitives.rs:626-641 | a decay factor of at most 10000 bps never wraps the u128 product and never truncates |
| `Emission.EmissionLedger` | crates/relyo-core/src/primitives.rs:626-650 | exact accounting at every horizon: emitted + 1000 * next reward + floor losses = 1000 * first reward |
| `Emission.EmissionBound` | crates/relyo-core/src/primitives.rs:626-650 | for a first reward of at least 999 every horizon stays 499500 below 1000 times it |
| `Emission.ClampNeverActs` | crates/relyo-core/src/primitives.rs:644-650 | for every first reward up to TOTAL_SUPPLY / 1000 + 499 the sum stays below the cap, so neither the saturating add nor the clamp acts |
| `Emission.RewardFallsToZero` | crates/relyo-core/src/primitives.rs:626-641 | the reward strictly falls until it is 0, reaches 0, and stays there |
| `Signable.BuildSignableBytes` | crates/relyo-core/src/primitives.rs:318-350 | the buffer built field by field is the canonical encoding |
| `Signable.SignableIsLaidOut` | crates/relyo-core/src/primitives.rs:318-350 | in it every field stands at its place: version, kind, then inputs, outputs and parents of 68, 40 and 32 bytes each after their lengths, timestamp, fee, and the memo after its length |
| `Signable.DigitAt` | crates/relyo-core/src/primitives.rs:324-347 | integers are little-endian |
| `Signable.ParseUndoesSign` | crates/relyo-core/src/primitives.rs:318-350 | a parser recovers every field but the input signatures, for list lengths below 2^32 |
| `Signable.SignUndoesParse` | crates/relyo-core/src/primitives.rs:318-350 | whatever the parser accepts to the end is canonical and printed back byte for byte |
| `Signable.SameBytesSameTransaction` | crates/relyo-core/src/primitives.rs:318-350 | with fewer than 2^32 inputs, outputs and parents, whatever the memo, equal signable bytes come from transactions equal in everything but input signatures |
| `Signable.SameBytesIffSameLengths` | crates/relyo-core/src/primitives.rs:318-350 | whatever the lengths: transactions with equal signable bytes are equal in everything but input signatures iff they have as many inputs, outputs and parents as each other |
| `Signable.TruncatedLengthsCollide` | crates/relyo-core/src/primitives.rs:324-345 | without the bound on lengths this fails: two concrete transactions with the same bytes |
| `Consensus.ConsensusEngine.ReceiveVote` | crates/relyo-consensus/src/engine.rs:134-183 | stale, unregistered and weak votes change nothing; otherwise the tally, the status of the node and the events are the specified ones |
| `Consensus.VoteAggregator.RecordVoteWeighted` | crates/relyo-consensus/src/vote.rs:83-105 | a voter counts once per open tally; the outcome is that of the tally |
| `Consensus.ConsensusEngine.RegisterValidator` | crates/relyo-consensus/src/engine.rs:196-205 | the id gets the given power, at least 1, the others keep theirs; the total moves by the difference modulo 2^64 |
| `Consensus.ConsensusEngine.SetValidatorSet` | crates/relyo-consensus/src/engine.rs:208-223 | the given set with powers at least 1, the local node added if missing, the total saturating |
| `Consensus.SetIs` | crates/relyo-consensus/src/engine.rs:208-221 | that set is the listed ids, each with the power it is listed with last, at least 1, and the local node, with 1 if it is not listed |
| `Consensus.SetTotalExact` | crates/relyo-consensus/src/engine.rs:208-223 | for distinct ids the stored total is the sum of the registered powers, saturated |
| `Consensus.RegisterKeepsTotal` | crates/relyo-consensus/src/engine.rs:196-205 | registering keeps the stored total equal to the sum of the registered powers modulo 2^64 |
| `Finality.EvaluateDecides` | crates/relyo-consensus/src/vote.rs:107-130 | the wrapping, flooring arithmetic decides exactly 10000 * accept >= threshold * total once quorum and total power are reached |
| `Finality.FinalityJustified` | crates/relyo-consensus/src/engine.rs:134-183 | over every run each Finalized event is justified by its own window of genuine votes, and every stored tally evaluates to Pending |
| `Finality.WindowsDisjoint` | crates/relyo-consensus/src/engine.rs:160-182 | the windows of two events on one transaction share no vote |
| `Finality.WindowMembers` | crates/relyo-consensus/src/vote.rs:148-150 | a window holds exactly the ballots on the transaction since its last decision |
| `Finality.VoteCountsIff` | crates/relyo-consensus/src/engine.rs:134-157 | over every run a vote, accepting or rejecting, becomes a ballot iff it is at most the maximum age old, its voter is registered with the minimum power, and has no ballot on the transaction since its last decision; any other vote changes no tally and announces nothing |
| `Finality.BallotsAreSound` | crates/relyo-consensus/src/engine.rs:135-157 | over every run each ballot was recent when cast and its voter registered with the minimum power |
| `Finality.LateVoteReopens` | crates/relyo-consensus/src/engine.rs:134-183 | finality is not sticky: over every run, a vote takes a decided transaction from Confirmed or Rejected back to Voting iff it is on it, is admitted, and cannot decide alone (quorum above 1, or power below the minimum total) |
| `Finality.ConfirmedThenVoting` | crates/relyo-consensus/src/engine.rs:160-182 | a concrete configuration and two votes for which that happens |
| `Finality.StatusReflectsLog` | crates/relyo-consensus/src/engine.rs:160-182 | the status of a node is told by the latest log entry on it |
| `RateLimiters.RateLimiter.Check` | crates/relyo-node/src/rate_limiter.rs:26-44 | accepts iff the last second holds fewer than max_tps accepted checks of the address, and keeps only those |
| `RateLimiters.RateLimiter.Cleanup` | crates/relyo-node/src/rate_limiter.rs:47-54 | forgets exactly what is older than a second, and addresses left empty |
| `RateLimiters.RefusedIffFull` | crates/relyo-node/src/rate_limiter.rs:26-44 | over every run on a clock that never goes back, a check is refused iff the last 10^9 nanoseconds already hold max_tps accepted ones |
| `RateLimiters.NoWindowOverflows` | crates/relyo-node/src/rate_limiter.rs:26-44 | no window (x, x + 1s] ever holds more than max_tps accepted checks of one address |
| `RateLimiters.CleanupsInvisible` | crates/relyo-node/src/rate_limiter.rs:47-54 | cleanups, however many and wherever, change no answer |

Sizes of lists in `Finality` are bounded by `MANY` (2^50 log entries), below which no u128 product of the
vote arithmetic overflows. In `Alongside` what is minted in all must fit a u64.

## Left out

- Concurrent.Interleave: inserts only; genesis, status, pruning and staking calls run beside them in `Alongside`, and before them here. So of the graph under pruning it is depths that are characterised (`PrunedDepths`), not `max_depth`, child lists, weights, count and tips.
- Concurrent.CheckCall: the supply total is read entry by entry while others write, so whether the cap check passes is left open; either way circulation never exceeds what was minted (`Concurrent.ValueConserved`).
- Concurrent.LinkTips: adding or removing a tip is one step here; `TipSteps` takes the three accesses one by one. `prune_stale` and `update_weight` do not interleave with them.
- Alongside.Act: the compare-exchange loop of `remove_stake` is one step, and `Evict` may use any maximum depth, not only one read earlier.
- Dags.DagGraph.Insert: the sender lock map is not part of the class, which has one caller at a time; `Concurrent` models the locks.
- Dags.Node: depths, weights, nonces and counters are unbounded; overflowing one takes 2^64 transactions (`Paths.DepthBounded`).
- Dags.DagGraph.Link: two helper methods split `insert`, and the loop bodies of the two searches are methods of their own, to keep each proof small.
- Tips.TipSelector.SelectWeighted: random draws are parameters; that the redraw loop of `select_two` ends is an assumption on them (`settles`).
- Tips.TipSelector.PruneStale: the clock is a parameter.
- Mempools.Mempool.Drain: the library sort is modelled by insertion, and both drains share one method with the order as a parameter; ties are in arbitrary order.
- Mempools.Mempool.Insert: the locks around the three structures are not modelled.
- Merkle.FromHashes: `from_leaves`, which hashes raw leaves first, only adds a map over the list.
- Emission.ClampNeverActs: `EmissionSchedule::new` computes the first reward in f64, slightly above TOTAL_SUPPLY / 1000, so the first reward is a parameter with slack 499.
- Consensus.ConsensusEngine.ReceiveVote: concurrent votes, the event channel's capacity and logging.
- Signable.BuildSignableBytes: the account-model `signable_bytes` has no length prefix on addresses and is not proved injective.
- RateLimiters.RateLimiter.Check: time is an integer number of nanoseconds.
- Conflict sets, `revert_transaction`, `pending_spend_for_sender`: not on the insert path.
- `set_balance`, `set_nonce`, `set_stake`, snapshots and `state_hash`: administrative; not part of the runs.
- Checkpoints: built from unsorted map iteration, so there is no canonical value.
- `FeeMarket`, `RewardCalculator`, `NodeScore`: floating point.
- Networking, RPC, explorer, wallet, storage and the SDK: I/O.
- `PeerManager` and `MempoolEntry` ordering: an easier version of the mempool index, and unused by the drains.
