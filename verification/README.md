# A verified model of the distributed training cluster

This project models, in Dafny, three protocols of the cluster and proves what
they guarantee on every run:

1. **Paxos** (`paxos/`): multi-instance consensus with ballots, adoption and
   forgetting, and the leader election built on it.
2. **The parameter protocol** (`paramserver/`, `coordinator/`): primary-backup
   replication of the model parameters and its recovery, over one leader's
   tenure.
3. **The training step** (`coordinator/`, `datastore/`, `worker/`): sharding,
   gradient aggregation, SGD on flat vectors, early stopping, ring replication.

`dafny verify dfyconfig.toml` checks everything.

## How it is built

| files | what they hold |
|---|---|
| `PaxosNode`, `PaxosServer` | one node: each critical section as a function, and the mutable class proved against those functions |
| `PaxosProtocol` | the cluster as a step relation: any number of `propose` goroutines on any node and seq, one acceptor call per step, messages lost, late, repeated or reordered |
| `PaxosInvariant`, `PaxosBooks`, `PaxosSafe`, `PaxosSafety`, `PaxosMemory` | the invariant, that every step keeps it, and the theorems about runs |
| `PaxosPass`, `PaxosRefinement` | one `propose` without rivals, as a function of the network's choices and as a run of the protocol |
| `PaxosLaws` | what one node's answers and records mean, and how watermarks travel until a slot is forgotten |
| `PaxosRivals`, `PaxosPropose` | the mutable nodes among other proposers and callers, and the loops of `propose` over them |
| `Election` | leader election on top of Paxos |
| `ParamProtocol`, `ParamInvariant`, `ParamTheorems` | one tenure as a step relation with a crash possible between any two calls; what every step keeps; the theorems |
| `ParamServers`, `ParamProgress`, `Coordinator` | the mutable param servers; when recovery succeeds; and the leader's methods up to the whole epoch loop, which take only steps of that relation |
| `Sharding`, `Gradients`, `Convergence`, `Losses`, `EarlyStopping`, `FlatVectors`, `RingReplication` | the training step and the data layer |
| `Numbers`, `Sums` | arithmetic, and sums and concatenations in any order |

A slot is the source's Seq, a ballot its N, a sender its PeerID. In the step
relations some state is history only: `marks` (largest value passed to `Done`),
`depths`, `acked`, `failures` and `survived`. A slot is live while some node has not
given it up with `Done`.

## Assumptions

Paxos:

- every node has the same `peers`, and `me` is in range;
- proposed values are not nil (the coordinator passes an int);
- crash-stop: no node comes back with its memory lost;
- after `Done(s)` a node neither starts nor still runs a `propose` for a seq
  <= s (nobody calls `Done` in this repository);
- the network delivers only what was sent, and pairs a reply with its call.

Parameter protocol:

- the first tenure, distinct `paramPeers` addresses, and one writer: `epochLoop`
  is one goroutine that makes synchronous calls;
- a param server that crashes stays down; a call takes effect if and only if the
  callee is up, and a caller that crashes sends nothing more (its reply to an
  earlier call may or may not get out);
- workers and sidecars may fail at any time, but one that answers has computed
  what it was asked to on its own shard.

Training: at least one row per node, so that no shard is empty; numbers are
reals; a network is an arbitrary derivative per row and coordinate, plus the set
of coordinates under weight decay. `Convergence` takes least squares for the network,
where the closed form of training is known.

## Where the code differs from its documentation

- README.md:51 of the repository calls restarting an epoch idempotent. It is exactly
  if no failed write survives (`ParamTheorems.ExactlyOnce`), and a failed write
  survives exactly if it got past the replication call and the primary is down
  (`ParamTheorems.FailedWrite`); `ParamTheorems.FailedWriteSurvives` is such a run.
- `coordinator/coordinator.go:538` promises zero-initialized params when there is
  no checkpoint. The code takes the sidecar's initial vector for empty params and
  fails when no source answers; `Coordinator.Leader.FetchParams` says exactly when.
- `coordinator/coordinator.go:903-905` treats the plain mean of the losses as
  exact. For given losses `Losses.ExactForTheseLosses` says when it is; it is for
  whatever losses are reported exactly if the nodes divide the rows evenly
  (`Losses.ExactForAllLosses`); and the bound on the error is attained
  (`Losses.BoundIsReached`).
- `paxos/paxos.go:254` tells "no vote" from "a vote" by the value being nil, which
  is right only because proposed values are not nil
  (`PaxosSafe.AdoptTakesHighestVote` has the exact condition).

## Model

| member | source | states |
|---|---|---|
| `PaxosServer.Paxos.constructor` | paxos/paxos.go:40-50 | a new node has no instances, counter 0, and watermark -1 for every peer |
| `PaxosServer.Paxos.GetInstance` | paxos/paxos.go:345-350 | a missing instance is created pending with zero fields; an existing one is untouched |
| `PaxosServer.Paxos.Prepare` | paxos/paxos.go:138-159 | the acceptor records the sender's watermark, promises exactly a ballot above `n_p` and reports its last vote, else refuses with `n_p`; the whole new state |
| `PaxosServer.Paxos.Accept` | paxos/paxos.go:162-183 | the acceptor votes exactly for a ballot not below `n_p`, else refuses with `n_p`; the whole new state |
| `PaxosServer.Paxos.Inform` | paxos/paxos.go:186-200 | the value is decided unconditionally; the whole new state |
| `PaxosServer.Paxos.MinLocked` | paxos/paxos.go:326-342 | returns one more than the least watermark (capped at MaxInt32) and keeps exactly the instances above it, in whatever order the maps are visited |
| `PaxosServer.DeleteUnless` | paxos/paxos.go:334-339 | deleting entries one at a time while ranging over the map leaves exactly the entries to keep |
| `PaxosServer.Paxos.Status` | paxos/paxos.go:101-111 | forgotten below the minimum, else the instance's fate and decision, creating a pending instance if there is none |
| `PaxosServer.Paxos.Done` | paxos/paxos.go:114-120 | raises only its own watermark, and never lowers it |
| `PaxosServer.Paxos.OpenPass` | paxos/paxos.go:213-222 | takes the next ballot and advances the counter in one critical section |
| `PaxosServer.Paxos.SetPropCounter` | paxos/paxos.go:314-321 | the counter jumps past a reported ballot and is otherwise unchanged |
| `PaxosServer.Paxos.Kill` | paxos/paxos.go:76-81 | only marks the node dead |
| `PaxosNode.MinDoneIsMinimum` | paxos/paxos.go:327-332 | the value that minLocked computes is the greatest lower bound of all watermarks and MaxInt32 |
| `PaxosNode.JumpExceeds` | paxos/paxos.go:314-321 | after setPropCounter the next ballot exceeds the reported one and has not moved down |
| `PaxosNode.BallotOwner` | paxos/paxos.go:214 | a node's ballots are congruent to its index modulo the number of peers |
| `PaxosBooks.NextIsFresh` | paxos/paxos.go:213-215 | the ballot a node draws next has never been sent by anyone in a prepare or an accept request, for any seq |
| `PaxosBooks.KeepWinningPrepare` | paxos/paxos.go:246-267 | a ballot carries at most one accept request: the goroutine stops preparing as the request goes out |
| `PaxosBooks.KeepBooks` | paxos/paxos.go:138-350 | every step keeps ballots unique and rising, replies genuine, and recorded watermarks at most what was passed to Done |
| `PaxosSafe.QuorumsMeet` | paxos/paxos.go:246 | two sets of len(peers)/2+1 peers share one |
| `PaxosSafe.HighestIsHighest` | paxos/paxos.go:225-244 | the adoption loop from 0 with a strict > ends on the highest vote among the OK replies and its value, and on (0, nil) if there is none |
| `PaxosSafe.AdoptTakesHighestVote` | paxos/paxos.go:252-256 | the proposer takes the value of the highest vote exactly unless that value is nil and its own is not |
| `PaxosSafe.LiveIsKept` | paxos/paxos.go:326-342 | a slot that some node has not given up with Done is above every node's minimum, so it is never collected |
| `PaxosSafe.PromiseAfterAccept` | paxos/paxos.go:162-172 | what a promise reported stays the sender's highest vote below the promised ballot, whatever is accepted later |
| `PaxosSafe.KeepSafe` | paxos/paxos.go:138-311 | every step keeps every live slot (one that some node has not given up with Done) safe: acceptor memory exact, promises exact, requests justified by a majority of promises, informs by a majority of votes |
| `PaxosSafety.AdoptedBetween` | paxos/paxos.go:224-267 | in a safe slot, a request above a chosen one takes its value from a request with a ballot between the two |
| `PaxosSafety.ChosenIsFinal` | paxos/paxos.go:224-267 | in any run: once a majority accepted (b, v) for a live slot, every accept request ever built for it with a ballot >= b carries v |
| `PaxosSafety.WinnersAgree` | paxos/paxos.go:258-289 | two values that majorities accepted for the same safe slot are equal |
| `PaxosSafety.KeepInv` | paxos/paxos.go:138-350 | every step of any interleaving keeps the whole invariant |
| `PaxosSafety.Agreement` | paxos/paxos.go:138-311 | in any run from the start, a value decided anywhere at any time equals every value decided anywhere later for that seq; it is not nil and was proposed for that seq |
| `PaxosSafety.InformsAgree` | paxos/paxos.go:186-200 | all values ever sent in Inform for a seq are equal, although acceptors delete and recreate instances |
| `PaxosSafety.DecisionIsStable` | paxos/paxos.go:186-200 | a decision is neither changed nor lost while its slot is live |
| `PaxosSafety.DecidedForEver` | paxos/paxos.go:186-200 | in a run without Done calls, a decision once made stays on that node for ever |
| `PaxosSafety.ForgettingIsJustified` | paxos/paxos.go:326-342 | an instance disappears from any node only after every node has called Done at or above its seq |
| `PaxosSafety.BallotsAreUnique` | paxos/paxos.go:213-215 | ballots never repeat over nodes, goroutines and seqs, and a node's next ballot is above all it has drawn |
| `PaxosSafety.AcceptorRemembers` | paxos/paxos.go:145-172 | in any run, for a live slot: every ballot the acceptor ever accepted is at most n_a, and every one it ever promised is at most n_p |
| `PaxosSafety.TiesAgree` | paxos/paxos.go:237-240 | in any run, for a live slot: promises that report the same positive N_a report the same V_a, so the strict > loses nothing |
| `PaxosSafety.AdoptedWasProposed` | paxos/paxos.go:252-256 | what a proposer goes on with is not nil and was proposed by somebody for that seq |
| `PaxosMemory.AcceptorMemory` | paxos/paxos.go:145-172 | in any run, for every node and every slot, live, forgotten or recreated: 0 <= n_a <= n_p, and n_a = 0 exactly when v_a is nil |
| `PaxosMemory.VotesArePositive` | paxos/paxos.go:145-150 | in any run, for every slot: ballot 0 never gains a promise, so every accept request and every vote has a ballot above 0 and a value |
| `PaxosPass.LosingPassJumps` | paxos/paxos.go:246-250 | after a losing Phase 1 or Phase 2 the node's next ballot exceeds every n_p that the pass was refused with |
| `PaxosPass.PhaseTwoWins` | paxos/paxos.go:258-289 | Phase 2 wins if and only if a majority answers whose n_p is not above the ballot, whoever promised in Phase 1 and whatever becomes of the other calls |
| `PaxosPass.PassWinsExactly` | paxos/paxos.go:205-311 | a pass wins if and only if the slot is open, a majority answers Prepare with n_p below the ballot, and a majority, not necessarily the same, answers Accept with n_p not above it |
| `PaxosPass.BeatingPassWins` | paxos/paxos.go:206-311 | a pass whose ballot is above every promise of an answering majority wins |
| `PaxosPass.LostAcceptLifts` | paxos/paxos.go:269-289 | a lost Phase 2 lifts the next ballot above all that the answering majority has promised |
| `PaxosPass.LosingPassLearns` | paxos/paxos.go:246-289 | a pass that loses, in Phase 1 or in Phase 2, leaves the proposer with a ballot that beats the answering majority, and not returned |
| `PaxosPass.WinnerInforms` | paxos/paxos.go:291-309 | when a pass wins, every node that its Inform reached, the proposer at least, has decided its value |
| `PaxosPass.TwoPassesSuffice` | paxos/paxos.go:205-321 | from any acceptor memory, without rivals and with an answering majority, whatever becomes of each call to the other peers in each pass, propose returns within two passes: at the loop top exactly if Status or dead says so at once, else with a win |
| `PaxosPass.FirstPassOnNewCluster` | paxos/paxos.go:213-215 | on a new cluster, with an answering majority, the first pass wins if and only if the proposer is not node 0, whose first ballot is 0 |
| `PaxosLaws.PromiseExactly` | paxos/paxos.go:138-159 | what one Prepare changes and answers, from n_p alone: OK exactly above it, n_p becomes the maximum, the vote and the decision stay and the vote is reported, every other slot and watermark stays |
| `PaxosLaws.VoteExactly` | paxos/paxos.go:162-183 | what one Accept changes and answers, from n_p alone: OK exactly if the ballot is not below it, promised here or not; a refusal leaves the vote |
| `PaxosLaws.InformExactly` | paxos/paxos.go:186-200 | an Inform decides the value and leaves promise, vote and every other slot |
| `PaxosLaws.DoneExactly` | paxos/paxos.go:114-120 | the own watermark becomes the maximum of itself and the slot, and nothing else changes |
| `PaxosLaws.StatusExactly` | paxos/paxos.go:101-111 | forgotten if and only if every watermark the node knows has reached the slot (and it is at most MaxInt32); else exactly the fate and value it holds; what is deleted is exactly what is forgotten |
| `PaxosLaws.DecisionIsReported` | paxos/paxos.go:101-111 | a decision that some peer is not known to be done with is reported with its value |
| `PaxosLaws.OpenExactly` | paxos/paxos.go:206-210 | propose goes on if and only if the node is up and has neither decided the slot nor heard from all that they are done with it |
| `PaxosLaws.LeavesExactly` | paxos/paxos.go:206-210 | propose returns at the loop top if and only if the slot is decided or given up, or the node is dead; it then asks nobody and draws no ballot |
| `PaxosLaws.PassTells` | paxos/paxos.go:138-145 | a pass tells the proposer's watermark to every node that its Prepare reaches, and no other watermark moves |
| `PaxosLaws.RoundForgets` | paxos/paxos.go:326-342 | forgetting happens: once every node has called Done at or above a slot and later told a node, in any order, Status on that node says Forgotten |
| `PaxosLaws.JumpIsShort` | paxos/paxos.go:314-321 | setPropCounter goes less than two rounds of ballots beyond the reported one, and moves nothing if and only if the counter is already past it |
| `PaxosRefinement.PassRuns` | paxos/paxos.go:206-310 | one pass, with any loss of calls and replies, is a run of the protocol |
| `PaxosRefinement.PassesRun` | paxos/paxos.go:205-311 | so is the whole loop, with the same outcome |
| `PaxosRefinement.WinningValueIsTheDecision` | paxos/paxos.go:205-311 | a propose that wins in any reachable cluster wins with the value that anybody has already decided for that seq |
| `PaxosRefinement.DecisionHappens` | paxos/paxos.go:205-321 | from every reachable state, a proposer without rivals and with an answering majority gets a value decided that was proposed for the slot, on its own node and on every node that its Informs reach |
| `PaxosRefinement.FirstDecision` | paxos/paxos.go:205-321 | on a new cluster the only proposer gets its own value decided |
| `PaxosRivals.Perform` | paxos/paxos.go:138-350 | each kind of step is what the mutable node does: the objects go from the nodes of one state to those of the next |
| `PaxosRivals.Meddle` | paxos/paxos.go:61-98 | whatever the others do while a goroutine waits is a run that leaves its own state and all messages sent in place |
| `PaxosRivals.ObjectsAgree` | paxos/paxos.go:185-200 | in any reachable state no two mutable nodes have decided different values for a slot |
| `PaxosPropose.CallPrepare` | paxos/paxos.go:229-234 | a call reaches the handler or not, and its reply comes back or leaves the reply empty, with rivals moving before the call and while its reply is on the way |
| `PaxosPropose.PreparePhase` | paxos/paxos.go:224-244 | with rivals between any two calls, the loop is a run and its tallies are those of the replies: OK count, highest vote, highest refusal; without rivals it is the loop of the pass function |
| `PaxosPropose.AcceptPhase` | paxos/paxos.go:258-283 | the same for Phase 2 |
| `PaxosPropose.InformPhase` | paxos/paxos.go:291-308 | with rivals the loop is a run; without, exactly the peers whose call got through have handled the Inform |
| `PaxosPropose.ProposePass` | paxos/paxos.go:206-310 | with rivals at every point between critical sections the pass is a run, and a win is the informed value of the slot; without, it ends in the nodes and outcome of the pass function |
| `PaxosPropose.Propose` | paxos/paxos.go:205-311 | the same for the loop over any number of passes |
| `Election.CandidatesAreOwn` | coordinator/coordinator.go:206-211 | if Start is only called by runElection, every proposer proposes its own index |
| `Election.PollsExactly` | coordinator/coordinator.go:213-217 | the poll returns a value if and only if the node has decided it and has not heard from every peer that it is done with the instance |
| `Election.DecidedPollReturns` | coordinator/coordinator.go:213-217 | in any run, a node that has decided a live instance returns that decision to its poll |
| `Election.ElectionEnds` | coordinator/coordinator.go:206-221 | from every reachable state, a node that campaigns without rivals and with an answering majority gets a winner decided, and the polls then return it on that node and on every node the Informs reach |
| `Election.OneWinner` | coordinator/coordinator.go:191-221 | all runElection calls on an instance that return, on any node at any time, return the same winner: an int, a peer index, and that peer ran in this instance |
| `Election.OneLeader` | coordinator/coordinator.go:192-200 | at most one node takes the lead from an instance |
| `ParamServers.ParamServer.ReadParams` | paramserver/paramserver.go:89-94 | returns the params and changes nothing |
| `ParamServers.ParamServer.OpenWrite` | paramserver/paramserver.go:97-108 | first critical section of WriteParams: only a primary goes on, with its backup address |
| `ParamServers.ParamServer.CloseWrite` | paramserver/paramserver.go:115-119 | second critical section of WriteParams: stores the params and nothing else |
| `ParamServers.ParamServer.ReplicateParams` | paramserver/paramserver.go:123-129 | stores the params, whatever the role |
| `ParamServers.ParamServer.SetRole` | paramserver/paramserver.go:132-139 | sets role and backup address, and keeps the params |
| `ParamServers.ParamServer.LoadCheckpoint` | paramserver/paramserver.go:159-165 | the persisted params, or an error without a file |
| `ParamProtocol.NewParamsIsFullStep` | coordinator/coordinator.go:590-597 | whatever the order of the workers' answers, what writeParams sends is one full-batch gradient step |
| `ParamInvariant.KeepInv` | coordinator/coordinator.go:394-437 | every step of a tenure, with a crash between any two calls, keeps contents, roles and depths of all copies |
| `ParamTheorems.Lineage` | coordinator/coordinator.go:367-437 | in every run a live primary or backup holds exactly one full-batch step per completed epoch, one per failed write that survived, and one while a write is under way |
| `ParamTheorems.ExactlyOnce` | coordinator/coordinator.go:413-416 | between operations, epochs were exactly-once if and only if no failed write survived; in particular if none failed |
| `ParamTheorems.FailedWrite` | paramserver/paramserver.go:97-120 | a failed write survives if and only if it got past the replication call and the primary is down: exactly then is every live role holder one step deeper than what the write started from |
| `ParamTheorems.FetchIsDeep` | coordinator/coordinator.go:539-585 | what plan A or B of fetchParams returns, at the start of an epoch or for the accuracy, has one step per acknowledged write and per survived failure, and after the first acknowledged write it never comes from re-initialisation |
| `ParamTheorems.CheckpointNeverLands` | coordinator/coordinator.go:560-567 | a write that started from a checkpoint (plan C) can never reach a param server in this tenure |
| `ParamTheorems.RolesAtRest` | coordinator/coordinator.go:711-770 | between operations primary and backup are distinct, in range and not the leader; only the recorded primary, if up, has the primary role, pointing at the recorded backup; and two live role holders hold equal params |
| `ParamTheorems.FailedWriteSurvives` | paramserver/paramserver.go:97-120 | such a run exists: no epoch completed, one write failed, and the backup is one step deep |
| `ParamServers.ObjectsHoldSteps` | paramserver/paramserver.go:97-129 | the exact lineage holds of the mutable servers in any state reached |
| `ParamProgress.BrokenByCrash` | paramserver/paramserver.go:97-113 | a write fails only because the recorded primary or backup is down |
| `ParamProgress.UpIsRestored` | coordinator/coordinator.go:749-766 | between operations, two role holders that are up know their roles and hold equal params |
| `ParamProgress.HopelessStays` | coordinator/coordinator.go:727-747 | once both param nodes are down, or nobody is left to replace one, it stays so whoever crashes and however roles move, and no recovery is possible |
| `Coordinator.Delegate` | coordinator/coordinator.go:471-535 | every worker is counted once, the losses come back in order of arrival, and with nobody failed the lists average to the gradient over all rows |
| `Coordinator.NewWeights` | coordinator/coordinator.go:590-597 | rejects exactly a gradient of another length; else each coordinate has moved by -0.1 times its gradient, so that the move times the gradient is -0.1 times the gradient's squared length |
| `Coordinator.Leader.AssignRoles` | coordinator/coordinator.go:259-276 | the two SetRole calls of becomeLeader, with crashes before each, are steps of the protocol |
| `Coordinator.Leader.ProbeParamServer` | coordinator/coordinator.go:690-697 | succeeds exactly if the server is up, and returns what it holds |
| `Coordinator.Leader.FetchParams` | coordinator/coordinator.go:539-585 | the primary's params if it is up, else the backup's, else those of the first checkpoint of a peer that is up, empty ones replaced by the sidecar's; it fails if and only if no source answers (both param nodes down, and no peer up that has a checkpoint), or what it found is empty and the sidecar is silent |
| `Coordinator.Leader.ReadCheckpoint` | coordinator/coordinator.go:560-567 | succeeds if and only if some peer is up and has a checkpoint, and returns that of the least such peer |
| `Coordinator.Leader.WriteParams` | paramserver/paramserver.go:97-120 | replicate, store, answer, with crashes before each: acknowledged or failed as the protocol allows; it fails only if the primary, its role or its backup is broken |
| `Coordinator.Leader.FindSpare` | coordinator/coordinator.go:732-747 | the first reachable node that is neither the survivor nor the leader; none only if all of them are down |
| `Coordinator.Leader.Reassign` | coordinator/coordinator.go:749-766 | promote, enlist, seed, and only then record the new roles, with crashes before each call |
| `Coordinator.Leader.RunParamRecovery` | coordinator/coordinator.go:711-770 | a run of the protocol; the roles go to nodes that were up; it gives up only when no recovery is possible, and then the roles stay; if nobody crashes meanwhile it succeeds exactly if a param node and a spare are up, keeps the primary if that is up, and takes the least spare |
| `Coordinator.Leader.RecoverParams` | coordinator/coordinator.go:699-710 | from a param node and a spare that are up, if nobody crashes meanwhile, recovery ends with two live role holders at equal params |
| `Coordinator.Leader.TryEpoch` | coordinator/coordinator.go:379-416 | an iteration is a run of the protocol; its loss is the mean of the reported losses; in fair weather (all workers and the sidecar answer) it fails only if the primary or backup is down, which then loses its role unless no recovery is possible |
| `Coordinator.Leader.WatchLoss` | coordinator/coordinator.go:442-462 | a loss below the best by more than the delta becomes the best and resets the counter, any other raises it by one; stop at the patience limit or the cap |
| `Coordinator.Leader.Evaluate` | coordinator/coordinator.go:613-619 | the accuracy is measured on what fetchParams returns: the params of the primary if it is up and holds some |
| `Coordinator.Leader.FinishEpoch` | coordinator/coordinator.go:431-462 | the epoch is counted once, the leader's own model becomes what was evaluated and else stays, and the loop stops exactly at the patience limit or the cap |
| `Coordinator.Leader.Iterate` | coordinator/coordinator.go:373-462 | an iteration appends at most one loss, and exactly one in fair weather if both param nodes are up and stay up |
| `Coordinator.Leader.EpochLoop` | coordinator/coordinator.go:367-464 | the loop is a run of the protocol and counts exactly the completed epochs; it stops if and only if it is at the cap or no epoch of the last 50 set a record, and it was at neither before; in fair weather it loses at most one iteration to each crashed param server unless no recovery is possible |
| `Coordinator.Train` | coordinator/coordinator.go:254-281 | end to end on the mutable objects, from the assignment of roles: exact lineage of every live role holder, equal copies, early stopping and progress |
| `Sharding.LoadShard` | datastore/datastore.go:88-100 | returns this node's rows in dataset order |
| `Sharding.ShardAt` | datastore/datastore.go:88-100 | row number k of a node's shard is row k N + node of the dataset |
| `Sharding.RowIsAt` | datastore/datastore.go:173-178 | row i of the dataset is row number i / N at node i mod N |
| `Sharding.ShardsCover` | datastore/datastore.go:176-178 | the shards of all nodes, in any order, are the dataset, every row as often as it occurs there |
| `Sharding.ShardSize` | datastore/datastore.go:173-178 | shard sizes differ by at most one: the first T mod N nodes have the extra row |
| `Gradients.AggregateGradients` | coordinator/coordinator.go:880-893 | the array holds the row-weighted sum of the gradients, coordinate by coordinate |
| `Gradients.PartsAreCentral` | coordinator/coordinator.go:875-893 | however the rows are dealt out and in whatever order the local means arrive, the aggregate is the mean gradient over all rows plus the shared L2 term |
| `Gradients.ShardedIsCentral` | worker/sidecar_torch.py:101-117 | in particular for the round-robin shards of all nodes |
| `Gradients.Record` | coordinator/coordinator.go:512-520 | one arrival keeps the three lists aligned and counts its worker once |
| `Gradients.DelegateAll` | coordinator/coordinator.go:500-535 | the three lists hold the answers in order of arrival, and each worker is exactly once among the answered or the failed |
| `Gradients.SuccessesAppend` | coordinator/coordinator.go:512-520 | the answers kept are those of the parts, in order |
| `Gradients.AppendSilent` | coordinator/coordinator.go:523-529 | the timeout adds exactly the workers that did not respond, in order |
| `Gradients.SilentAppend` | coordinator/coordinator.go:523-529 | so are the silent workers |
| `Gradients.SilentComplete` | coordinator/coordinator.go:505-529 | every worker is either heard from or silent, and not both |
| `Gradients.CollectedIsCentral` | coordinator/coordinator.go:471-535 | what delegateAll collects from truthful workers, nobody failing, averages to the gradient over the whole dataset |
| `Convergence.StepOpposesGradient` | coordinator/coordinator.go:594-597 | the step times the gradient is -0.1 times the gradient's squared length: training never moves uphill |
| `Convergence.StepAt` | worker/sidecar_torch.py:101-117 | on a least-squares problem a full-batch step moves a coordinate by -0.1 times its distance to the mean target, and by -0.1 times 0.01 of itself where there is weight decay |
| `Convergence.TrainingConverges` | coordinator/coordinator.go:590-597 | on a least-squares problem, for any data, the params that are d steps deep are at the minimum but for the initial distance times 0.9^d, or 0.899^d with weight decay |
| `Convergence.LossGap` | worker/sidecar_torch.py:101-117 | that minimum is where the regularised loss is least, and the loss is a parabola around it |
| `Convergence.LossFalls` | coordinator/coordinator.go:590-597 | every step shrinks what the loss is above its minimum by the same factor, 0.81 or 0.899^2 |
| `Losses.AverageLoss` | coordinator/coordinator.go:906-915 | the plain mean, and 0 for no losses |
| `Losses.MeanIsBetween` | coordinator/coordinator.go:906-915 | the average lies between any bounds on the losses |
| `Losses.WeightsSplit` | datastore/datastore.go:176-178 | every node's loss weighs T / N rows, and that of the first T mod N nodes one more |
| `Losses.UnweightedError` | coordinator/coordinator.go:903-915 | with losses in [L, U] and s = T mod N, the average differs from the row-weighted mean by at most (U - L) s (N - s) / (N T) |
| `Losses.UnweightedErrorIsSmall` | coordinator/coordinator.go:903-905 | hence by 0 when N divides T, and never by more than (U - L) N / (4 T) |
| `Losses.ExactForTheseLosses` | coordinator/coordinator.go:906-915 | the average is the row-weighted mean if and only if the s nodes with an extra row and the others have the same mean loss |
| `Losses.BoundIsReached` | coordinator/coordinator.go:903-915 | the bound is attained, from above and from below, for all datasets and node counts |
| `Losses.ExactForAllLosses` | coordinator/coordinator.go:903-905 | the average is right for whatever losses N nodes report if and only if N divides T |
| `EarlyStopping.BestIsSeen` | coordinator/coordinator.go:444-446 | bestLoss is a loss that was seen, and no loss seen is lower by more than MinLossDelta |
| `EarlyStopping.PatienceIsSinceRecord` | coordinator/coordinator.go:444-448 | bestLoss is the loss of the last epoch that was below every earlier record by more than the delta, and patienceCounter is the number of epochs since |
| `EarlyStopping.StopsExactly` | coordinator/coordinator.go:442-462 | training stops if and only if it is at the cap or none of the last 50 epochs set a record |
| `EarlyStopping.CompletesExactly` | coordinator/coordinator.go:442-462 | it completes exactly the epochs before which it was at neither |
| `EarlyStopping.ImprovementsAreSteep` | coordinator/coordinator.go:444-446 | K improvements lower bestLoss by at least K MinLossDelta |
| `EarlyStopping.EpochsPerImprovement` | coordinator/coordinator.go:447-461 | at most Patience epochs pass per improvement |
| `EarlyStopping.StoppingBound` | config/config.go:43-48 | completed epochs <= min(MaxEpochs, Patience (K + 1) + 1) for some K with K MinLossDelta <= first loss - lowest loss |
| `RingReplication.DataStore.ReceiveReplica` | datastore/datastore.go:240-246 | replaces the replica and nothing else |
| `RingReplication.DataStore.GetRescuedShard` | datastore/datastore.go:257-265 | the replica, and an error before ActivateReplica |
| `RingReplication.Sidecar.ReloadShard` | worker/sidecar_torch.py:131-141 | appends the rows to what is loaded, or loads them if nothing is |
| `RingReplication.PushReplica` | datastore/datastore.go:140-149 | whatever happens to the calls before the deadline, the right neighbour's replica is this node's shard if one of them got through, and else unchanged; nothing else changes |
| `RingReplication.PushReplicas` | datastore/datastore.go:140-149 | after all nodes' pushes every node holds its left neighbour's shard as its replica, unless none of that one's calls got through |
| `RingReplication.StartWorker` | worker/worker.go:99-102 | a worker's sidecar starts with the node's own shard |
| `RingReplication.TakeOver` | worker/worker.go:289-300 | the sidecar then trains on what it had followed by the replica, unless the post did not reach it; the post is an error unless it is answered |
| `RingReplication.RescueAll` | datastore/datastore.go:248-265 | after the take-overs every survivor's sidecar trains on exactly the rows that the theorems below say it holds |
| `RingReplication.HeldAndLost` | datastore/datastore.go:140-149 | conservation: for any failed set and any missed pushes, what survivors hold and what is lost are the dataset, every row as often as it occurs there |
| `RingReplication.RescueIsComplete` | datastore/datastore.go:240-265 | survivors hold the dataset exactly once if and only if no two cyclic neighbours failed and no node failed whose push never got through |
| `RingReplication.RescueKeepsGradient` | coordinator/coordinator.go:880-893 | after the take-overs the aggregated gradient is the one over the whole dataset, as before the failures |
| `FlatVectors.Model.FlattenParams` | worker/sidecar_torch.py:64-66 | all tensors in order, each in row-major order |
| `FlatVectors.Model.LoadFlatParams` | worker/sidecar_torch.py:69-77 | slices are copied in until one is too short; on an error the earlier tensors are already overwritten |
| `FlatVectors.NumelSmall` | worker/sidecar_torch.py:75-75 | a scalar has one number, a vector its length, a matrix rows times columns |
| `FlatVectors.NumelProduct` | worker/sidecar_torch.py:75-75 | the size of a shape is the product of the sizes of its parts |
| `FlatVectors.FlattenAt` | worker/sidecar_torch.py:64-66 | number i of tensor k is at the total size of the tensors before it, plus i |
| `FlatVectors.LoadAt` | worker/sidecar_torch.py:69-77 | tensor k gets its own slice if the vector reaches its end, and else stays as it was, also when the load fails |
| `FlatVectors.LoadUndoesFlatten` | worker/sidecar_torch.py:64-77 | loading what was flattened restores every tensor, whatever the model held |
| `FlatVectors.FlattenUndoesLoad` | worker/sidecar_torch.py:69-77 | flattening what was loaded gives the vector back if and only if it has the model's size; a shorter one raises, a longer one is cut silently |
| `FlatVectors.FlatSgdIsTensorSgd` | coordinator/coordinator.go:594-597 | element-wise SGD on the flat vector is SGD on every tensor |

## Left out

- Propose: it runs as many passes as it is given network plans, since the source's loop need not end; the test at its top reads Status and the dead flag in one step, which a Kill in between cannot tell apart from an earlier one.
- Shared instance objects: a node's instances are values in a map, because none is used outside the lock; writing `fate = Forgotten` into an instance that is deleted next is therefore not seen.
- `maxSeen` and `Max()`, and the N_a and V_a fields of AcceptReply, which nothing sets.
- Overflow of ballots: the source's 64-bit ints are unbounded here.
- TCP, net/rpc, gob, HTTP, JSON, timeouts and sleeps: a call is a step that takes effect or fails.
- "At most one leader at a time": a deposed leader's epoch loop goes on, so only one winner per election instance is claimed.
- triggerReElection, heartbeats, watchdogs, and becomeLeader's wait and random choice: any two nodes other than the leader may be chosen.
- Params across leader changes: becomeLeader moves no params, so everything is about one tenure.
- ReadCheckpoint: what the nodes have on disk is arbitrary, because the Checkpoint handler is not modelled; it is shown that no write based on a checkpoint lands.
- WriteParams: the handler is split where it drops its lock, into OpenWrite, the replication call and CloseWrite.
- StoppingBound: losses are reals and the start of bestLoss, math.MaxFloat64, is a state of its own that every loss improves on.
- DelegateAll: a timeout is the end of the arrivals, and the stragglers are always added, since SGDMode is the constant "sync"; an answer that comes later is not modelled.
- RescueAll: nothing in the repository triggers the take-overs (runWorkerRecovery is a stub); the model says what they achieve.
- Accuracy, gradient norm, the monitor, the simulation and CSV parsing.
- The pre-split shard files of MNIST follow the same rule as `ownerOf`.
- The virtual-node hash ring, which decides nothing in the code.
- Rounding: float64 in the coordinator and float32 in the sidecar are reals, and torch is an abstract derivative.
