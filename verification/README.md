# A verified model of the replicated key-value store

The repository is a key-value store whose writes are agreed on with a per-key variant of
Paxos. A proposer runs four loops over the cluster (Ping, Prepare, Propose, Inform); every
replica is an acceptor and a learner; each key has its own log of rounds. One replica is the
coordinator: it alone proposes client writes, it answers reads from its own data map, it is
itself elected with a run on the reserved key "coordinator", and a replica that (re)joins
copies its data map and its logs.

This project models that protocol and proves what it guarantees, under which assumptions, and
what goes wrong without each of them. The central result is that the whole cluster behaves
like one map (`Refinement.ClusterRefinesOneMap`).

## How it is organised

Two layers share the handler functions of `Handlers`.

| file | content |
|---|---|
| `Types`, `Handlers` | operations, log entries, messages; the effect of each RPC on the replica that handles it |
| `KvDatabase`, `StubsMap`, `Service` | the imperative layer: the database, the stubs map and the service as classes whose methods update their fields; the loops of `RunPaxos`, the coordinator lookup and the recovery loops over a network of such services |
| `Tracing`, `WholeRun`, `Discovery`, `Recovery` | one whole run as a function of the replicas, as a behaviour of the step machine, and its contract; elections and the lookup; recovery |
| `Loops`, `Exact` | what one whole run comes to, exactly, in terms of what happens to each of its calls: OK or ABORTED, what it proposes, what it leaves at every replica |
| `System`, `Steps` | the step layer: any number of runs in flight, each handled RPC one atomic step, any interleaving, loss, random failure, live sets, restarts and recoveries; what each step does, read off the network's and the failures' choices |
| `KeyView` | the part of the system that one key sees; invariants are proved on it and lifted |
| `Safety`, `Learner`, `Stability` | what holds in every interleaving, even with overlapping proposers |
| `Serial`, `Cluster`, `Refinement`, `Outcomes` | what holds with one coordinator and one run at a time per key |
| `Commute`, `Solo` | runs on different keys commute; the contract of a run alone on its key |
| `Counterexamples`, `FromInit`, `ClusterCounterexamples`, `DeletedKey` | behaviours that break a guarantee when an assumption is dropped, and that they can be reached from the initial state |
| `Undisturbed`, `Answered` | a write that the coordinator can always complete; a run whose calls are all answered succeeds |

An RPC outcome is an input of the model: not handled; or handled, with or without the random
failure, and answered or not. A handled call whose answer is lost is `Handled(_, false)`. A
request that is handled after its caller gave up waiting, but before the run ends, is the
event `Late`; the model also allows it to be handled more than once.

## Assumptions

Of the whole model:

- each handler is one atomic step (the source has two reads in `Recover`, a check followed by
  an act in `Inform`, and inserts under a shared lock at kv-database.cc:63);
- no request is delivered after the run that sent it has ended;
- all replicas have the same stub set; integers are unbounded;
- elections are issued on the key "coordinator" only, as both callers do
  (multi-paxos-service-impl.cc:665, kv-store-service-impl.cc:162); the election handler itself
  does not check the key.

Of the modules `Cluster`, `Refinement` and `Outcomes`, on top of that (see `Serial.Guarded` and
`Cluster.Allowed`), with the behaviour that shows why:

| assumption | without it |
|---|---|
| every live set contains the coordinator | `FromInit.LeftOutFromInit`: a read misses a successful write |
| the coordinator handles its own Inform | `FromInit.LostSelfInformFromInit`: the same |
| at most one run is in flight per key (runs on different keys interleave freely) | `FromInit.OvertakenFromInit`: the same |
| one coordinator proposes all client writes | `Counterexamples.DisjointLiveSetsDecideTwice`: two operations decided in one round; `FromInit.OverlapFromInit`: two acceptors disagree |
| it hands over only at rest | `ClusterCounterexamples.HandoverMidRun`: a read misses a successful write |
| ... and only to a replica in sync with it on every key | `Refinement.HandoverKeepsMapIff`: with other data the map changes; `ClusterCounterexamples.StaleHandover`: with the same data but an earlier round, the next write returns OK and an aborted one is stored |
| the coordinator itself does not restart | `Refinement.CoordinatorRestartKeepsMapIff`; `ClusterCounterexamples.CoordinatorRestartForgets`: a successful write is gone |

Any other replica may crash at any time and recover from any replica at any time. Only the
monotonicity of what one replica shows (`Outcomes.PrefixConsistency`) needs that this replica
is not crashed or recovered on the way, except in one step and at rest; in the middle of a run
even that takes a value back (`ClusterCounterexamples.RejoinShortensPrefix`).

`Undisturbed.CoordinatorAloneCanWrite` shows that the assumptions can be met.

## Where the code differs from what its comments suggest

The model follows the code.

- Comments call the answer to Prepare a promise, but no promise is ever recorded: the
  three-argument `AddPaxosLog` (kv-database.cc:87) has no caller and `propose_id` is always 1.
  `promised_id` stays 0 and the id guards never fire (`Safety.PromisedIdGuardsNeverFire`).
  Safety rests on rounds instead: Prepare creates the round's slot before any check, so failed
  runs use up their round (`Serial.NoSlotAbove`, `Serial.NothingAbove`).
- Majorities are counted over the acceptors that answered this run's ping, not over the
  cluster (`Counterexamples.DisjointLiveSetsDecideTwice`).
- A run whose Inform is refused everywhere still returns OK
  (`Counterexamples.OvertakenInformIsRefused`).
- A recovery snapshot carries keys with empty logs, but installing it drops them
  (`Recovery.RoundTrip`), and recovery never deletes: on a database that is not empty, a key
  that the coordinator has deleted survives (`Recovery.TakesOverDataIff`). A database can fill
  before it recovers, because server-main.cpp:90-91 serves calls before `Initialize` does; the
  two replicas then answer differently (`DeletedKey.DeletedKeySurvivesRecovery`).

## Model

| member | source | states |
|---|---|---|
| Refinement.ClusterRefinesOneMap | multi-paxos-service-impl.cc:403-601 | every behaviour of the cluster (any interleaving across keys, live sets with the coordinator, losses, random failures, handovers, and crashes and recoveries of other replicas at any time, also while a run is in flight) is a behaviour of one map that starts empty: each OK write takes effect exactly once between its request and its return, an aborted one never, and each GET returns the current value |
| Refinement.RefinesStep | multi-paxos-service-impl.cc:580-600 | each step is the step of the map that its label names; a write linearizes at the coordinator's own Inform |
| Refinement.InformData | multi-paxos-service-impl.cc:312-362 | the coordinator's own Inform always executes, and it applies the operation that this run was asked for |
| Refinement.RefinesHandover | kv-store-service-impl.cc:110-148 | handing over, at rest, to a replica in sync on every key leaves the map unchanged |
| Refinement.HandoverKeepsMapIff | kv-store-service-impl.cc:110-148 | at rest, handing over to any replica leaves the map unchanged if and only if it has the coordinator's data map |
| Refinement.CoordinatorRestartKeepsMapIff | kv-database.h:74-74 | a restart of the coordinator leaves the map unchanged if and only if it was empty |
| Cluster.AssumesOnly | multi-paxos-service-impl.cc:403-601 | the listed assumptions are all there is: every other step of a run, every loss, failure and late arrival at another replica, every election, and every crash and recovery of another replica is allowed |
| Cluster.NextInv | multi-paxos-service-impl.cc:672-707 | steps of runs, crashes and recoveries of other replicas at any time, rejoins, handovers and reads all preserve the cluster invariant on every key |
| Cluster.ReplacedSerial | multi-paxos-service-impl.cc:672-707 | whatever log, value and history a replica other than the coordinator is left with, as long as they hold nothing that the cluster had not, the invariant of the key stays |
| Cluster.AfterInv | multi-paxos-service-impl.cc:403-601 | the invariant holds along every behaviour |
| Cluster.RejoinCopies | multi-paxos-service-impl.cc:672-707 | for every key, a replica that crashes and then recovers from another one ends with that one's log, value and history, and nothing else changes |
| Cluster.HandoverSerial | multi-paxos-service-impl.cc:405-405 | a replica with the system-wide latest round and the current value can take over as proposer of the key |
| Serial.SerialStep | multi-paxos-service-impl.cc:403-601 | on one key, every step under the assumptions preserves the invariant that the coordinator's latest round bounds all slots, decisions are in round order, and its value is what they give |
| Serial.NoSlotAbove | multi-paxos-service-impl.cc:220-220 | between runs on a key no replica has a slot above the coordinator's latest round |
| Serial.NothingAbove | multi-paxos-service-impl.cc:405-405 | the round a new run chooses has been accepted by nobody |
| Serial.NeverAdopts | multi-paxos-service-impl.cc:504-509 | a run whose promises report no acceptance proposes its own operation |
| Serial.InformReachesCoordinator | multi-paxos-service-impl.cc:322-347 | the coordinator is never ahead of the run it informs itself of, and its value becomes what all decisions give |
| Outcomes.EveryReplicaShowsAPrefix | multi-paxos-service-impl.cc:312-362 | in every behaviour, with crashes and recoveries at any time, each replica's value of a key is what the first n successful operations on it give, for some n |
| Outcomes.PrefixConsistency | multi-paxos-service-impl.cc:312-362 | from every reachable state on, n never decreases for a replica that is not crashed or recovered on the way, except in one step and at rest |
| Outcomes.DecisionsAreSuccesses | multi-paxos-service-impl.cc:553-600 | the operations counted in that prefix are exactly those of the runs that reach consensus, in strict round order |
| Outcomes.AbortedNeverTakesEffect | multi-paxos-service-impl.cc:484-492 | a run that fails its quorum or consensus is, along every later behaviour, executed by no replica, decided by no one, its round used by no other run, and its operation adopted by no run |
| Outcomes.OnlyInformChangesData | multi-paxos-service-impl.cc:330-360 | no other step of a run changes a data map or a stored coordinator |
| Outcomes.InformResyncs | multi-paxos-service-impl.cc:322-347 | one handled Inform of the current round is executed by any replica, however stale, and puts it in sync for the key |
| Outcomes.RecoveryResyncsIff | multi-paxos-service-impl.cc:696-707 | at rest, recovering from the coordinator puts a replica in sync for a key if and only if it does not store a key that the coordinator lacks |
| Outcomes.CurrentAtRest | multi-paxos-service-impl.cc:74-80 | at rest the coordinator's value is the effect of all successful operations |
| Stability.ChosenIsStable | multi-paxos-service-impl.cc:450-508 | once all acceptances at a (key, round) are one operation, some acceptors hold it, and the older runs there have ended, every later run there whose live set has no majority without a holder fails its quorum or proposes that operation, whatever overlaps, while the holders keep their logs |
| Stability.ChosenOnOneLiveSet | multi-paxos-service-impl.cc:450-508 | in particular when the holders are a majority of the one live set that the later runs use |
| Stability.BlocksIff | multi-paxos-service-impl.cc:431-484 | a set of acceptors meets every majority of a live set if and only if at most half of the live set is outside it |
| Stability.MajoritiesMeetIff | multi-paxos-service-impl.cc:431-553 | the majorities of two runs' live sets always meet if and only if the members they are bound to share exceed the members they have in common: the exact condition for quorum intersection when each run counts its own live set |
| Stability.MajoritiesMeet | multi-paxos-service-impl.cc:484-484 | two sets that pass the integer majority test over one live set intersect |
| Stability.PromiseMeetsAccept | multi-paxos-service-impl.cc:484-553 | the promise set of one run and the accept set of another over one live set share an acceptor |
| Stability.PromisesAreMajority | multi-paxos-service-impl.cc:450-492 | the counter of promises counts distinct live acceptors, so success is a strict majority of the live set |
| Safety.InvStep | multi-paxos-service-impl.cc:209-362 | every step, crash and recovery included, preserves the general invariant of a key, and runs keep what they have reached |
| Safety.InvAlways | multi-paxos-service-impl.cc:209-362 | the general invariant holds of every key in every reachable state |
| Safety.PromisedIdGuardsNeverFire | multi-paxos-service-impl.cc:228-275 | in every reachable state promised_id is 0, and an acceptor refuses if and only if it random-fails on a key other than "coordinator" |
| Safety.Validity | multi-paxos-service-impl.cc:387-400 | in every interleaving whatever is accepted, proposed or stored was requested earlier on the same key, through any adoption and recovery |
| Safety.ElectionsStayApart | paxos-stubs-map.cc:12-22 | SET_COORDINATOR is accepted on the reserved key and nowhere else, no data map ever holds that key, every stored coordinator is empty or a member |
| Safety.AdoptIsEarliestMaximum | multi-paxos-service-impl.cc:471-475 | the adoption loop yields the earliest promise with the greatest accepted id, and nothing exactly when none reports an acceptance |
| Learner.LatestNeverDecreases | kv-database.cc:61-113 | a replica's latest round of a key never decreases along any behaviour in which it does not restart itself; others may restart, and anyone may recover |
| Learner.ExecutedRoundsNeverDecrease | multi-paxos-service-impl.cc:322-345 | the round of each Inform that a replica executes is at least that of every one it executed before, as long as it does not restart itself |
| Learner.LearnerMonotonicity | multi-paxos-service-impl.cc:322-345 | from every reachable state, along every behaviour in which the replica does not restart: its latest round never decreases, its executed rounds are in order and within it, and its executed operations are only appended unless it recovers itself |
| Learner.ValueIsExecuted | multi-paxos-service-impl.cc:330-347 | a replica's data entry is the effect of the operations it executed, along every behaviour in which it does not recover itself |
| Learner.ValueIsLastExecuted | multi-paxos-service-impl.cc:330-347 | and on a writable key that of the last executed Inform alone |
| Learner.AcceptorsAgree | multi-paxos-service-impl.cc:262-308 | if the runs that propose at a (key, round) propose the same operation, all acceptances there are equal, in every interleaving |
| Learner.LearnersAgree | multi-paxos-service-impl.cc:312-362 | and two replicas whose last executed round is equal agree on the value, through restarts and through recoveries that leave the replica no key its source has deleted |
| Learner.RecoveryKeepsAgreementIff | multi-paxos-service-impl.cc:672-707 | recovery onto any database keeps that agreement if and only if the source has not deleted a key that the replica stores |
| Learner.OverlapBreaksAgreement | multi-paxos-service-impl.cc:275-297 | two overlapping runs with different proposals at one (key, round) can, from every such state, make two acceptors disagree |
| DeletedKey.DeletedKeySurvivesRecovery | server-main.cpp:90-92 | from the initial state: a replica that misses a deletion and then recovers from one that executed it still answers the old value, although their histories end in the same round |
| Commute.InterleavingSerializes | multi-paxos-service-impl.cc:403-601 | any interleaving of two runs on different keys ends in the same state, with the same return statuses, as one run after the other |
| Commute.DistinctKeysCommute | multi-paxos-service-impl.cc:403-601 | from every reachable state, in either order |
| Commute.EventIsPatch | multi-paxos-service-impl.cc:209-362 | a step writes only its own run and one key of one replica, as the state of that key alone determines |
| KeyView.ViewStep | kv-database.cc:61-113 | a step changes what a key sees only if it is a step on that key, and then by that part of the state alone |
| Solo.WholeRunContract | multi-paxos-service-impl.cc:416-600 | a run alone, from every reachable state and for every loss and failure: other keys and rounds untouched; nothing executed without consensus; the proposal is what the adoption loop makes of earlier acceptances; each informed replica has executed it and has that latest round, if no live replica was ahead |
| WholeRun.RunPaxosContract | multi-paxos-service-impl.cc:403-601 | the same contract for what RunPaxos computes; ABORTED changes no data map; on OK exactly the live replicas that handled Inform were informed |
| WholeRun.AbortKeepsData | multi-paxos-service-impl.cc:484-561 | a run that decides nothing leaves every data map alone |
| WholeRun.WhoIsInformed | multi-paxos-service-impl.cc:580-600 | who has been informed, from the outcomes of the calls |
| Tracing.RunIsBehaviour | multi-paxos-service-impl.cc:403-601 | the loops of RunPaxos are a behaviour of one run of the step machine, call by call, and lead to the same replicas and status |
| Exact.RunPaxosSucceedsIff | multi-paxos-service-impl.cc:403-601 | from every reachable state RunPaxos returns OK if and only if more than half of the addresses that answer its ping are heard to promise and more than half are heard to accept; heard are exactly those whose call is handled, answered, and does not fail at random on a key other than "coordinator" |
| Exact.RunPaxosProposes | multi-paxos-service-impl.cc:387-509 | past the promise test it proposes a SET of the requested value, a DELETE, or a SET_COORDINATOR to the requested address, unless a heard acceptor holds an acceptance at the round; then what the lowest such address holds |
| Exact.RunPaxosLeaves | multi-paxos-service-impl.cc:209-362 | the exact state of every replica afterwards: which slots exist, who holds the proposal whether or not its answer arrived, who has executed it, which coordinator is stored; all other keys and rounds as before |
| Exact.RequestTakesEffect | multi-paxos-service-impl.cc:387-600 | when a run returns OK and adopted nothing, every replica that handles its Inform and has no later round stores the value of a Put, has no value after a Del, and stores the member of an election as coordinator |
| Steps.CallMeans | multi-paxos-service-impl.cc:457-587 | one call in any reachable state of the step machine: the acceptor is counted if and only if the call is handled, answered and does not fail at random, its promise reports what it held, and what the replica is left with does not depend on the answer; a call that is not handled changes no replica |
| Steps.LateMeans | multi-paxos-service-impl.cc:209-362 | a request that is handled late does the same to the replica, and the proposer does not hear of it |
| Steps.LateIsPossible | multi-paxos-service-impl.cc:453-455 | whatever a call sends may be handled at any later time, after any other steps, until its run ends |
| Steps.StartMeans | multi-paxos-service-impl.cc:387-405 | a run starts one round above its proposer's latest, with the operation that the request asks for |
| Steps.AdvanceMeans | multi-paxos-service-impl.cc:484-561 | a loop is passed if and only if a strict majority of the live addresses promised or accepted; passing the second one decides the proposal |
| Steps.RestartMeans | server-main.cpp:73-73 | a restart leaves an empty database and no stored coordinator, and changes no other replica |
| Steps.RecoverMeans | multi-paxos-service-impl.cc:672-707 | a recovery overrides by key and by (key, round), keeps the stored coordinator, and changes no other replica |
| Tracing.AdoptsLowestAddress | multi-paxos-service-impl.cc:450-477 | among equal greatest accepted ids the loop adopts that of the lowest address |
| Tracing.LiveAscends | multi-paxos-service-impl.cc:409-426 | live addresses are polled in ascending order |
| Discovery.LookupTests | multi-paxos-service-impl.cc:629-641 | the two tests of the lookup succeed if and only if some reached replica stores itself and no reached replica stores another address |
| Discovery.JoinerFindsElected | multi-paxos-service-impl.cc:603-650 | from every reachable state, an election of member x that returns OK and adopts nothing leaves x stored wherever its Inform is executed; a lookup that reaches x, and otherwise only such replicas and ones that store no coordinator, finds exactly x |
| Service.LookupsOnNetwork | multi-paxos-service-impl.cc:610-641 | that lookup is what FindCoordinator answers on the services themselves |
| Recovery.RoundTrip | multi-paxos-service-impl.cc:364-385 | installing a snapshot into an empty database gives back the data map and the observable log; the database itself if and only if no key has an empty log |
| Recovery.Overlay | multi-paxos-service-impl.cc:696-707 | on any database recovery is the pointwise override by key and by (key, round); the latest round becomes the greater of the two; the stored coordinator stays |
| Recovery.Idempotent | multi-paxos-service-impl.cc:696-707 | installing the same snapshot again changes nothing |
| Recovery.TakesOverDataIff | multi-paxos-service-impl.cc:696-698 | recovery takes over the source's data map if and only if the database holds no key that the source lacks |
| Counterexamples.OneAcceptorDecides | multi-paxos-service-impl.cc:431-553 | a run that reaches one acceptor alone returns OK |
| Counterexamples.DisjointLiveSetsDecideTwice | multi-paxos-service-impl.cc:431-553 | on disjoint live sets two runs at one (key, round) both return OK with different operations |
| Counterexamples.UnblockedRunEscapes | multi-paxos-service-impl.cc:450-509 | the condition of ChosenIsStable is exact: on a live set with a majority without a holder, a run can miss all holders and propose its own operation |
| FromInit.EscapeFromInit | multi-paxos-service-impl.cc:450-509 | from the initial state: an operation is chosen, and a later run at its round proposes another one |
| Counterexamples.CoordinatorLeftOut | multi-paxos-service-impl.cc:416-430 | a write whose live set leaves the coordinator out returns OK and cannot be read from the coordinator |
| FromInit.LeftOutFromInit | multi-paxos-service-impl.cc:416-430 | ... from the initial state |
| Counterexamples.LostSelfInform | multi-paxos-service-impl.cc:587-600 | a run whose coordinator does not handle its own Inform returns OK, and a read at the coordinator misses the write |
| FromInit.LostSelfInformFromInit | multi-paxos-service-impl.cc:587-600 | ... from the initial state |
| Counterexamples.OvertakenInformIsRefused | multi-paxos-service-impl.cc:325-328 | a later Prepare on the key makes a replica refuse an earlier run's Inform: that run returns OK, and a read there misses the write |
| FromInit.OvertakenFromInit | multi-paxos-service-impl.cc:325-328 | ... from the initial state, with two runs of one proposer |
| FromInit.OverlapFromInit | multi-paxos-service-impl.cc:275-297 | from the initial state, two overlapping runs make two acceptors of one (key, round) disagree |
| Counterexamples.UntouchedIsReachable | multi-paxos-service-impl.cc:405-405 | two proposers that start before either pings choose the same round |
| ClusterCounterexamples.StaleIsReachable | multi-paxos-service-impl.cc:553-561 | the cluster reaches a state at rest in which a write was aborted and another replica has the coordinator's data map but not its latest round |
| ClusterCounterexamples.StaleHandover | multi-paxos-service-impl.cc:471-509 | handing over to that replica: its next write returns OK, and the aborted operation is what its reads then find |
| ClusterCounterexamples.CoordinatorRestartForgets | kv-database.h:74-74 | from every state at rest the coordinator can complete a write that its restart loses |
| ClusterCounterexamples.MidwayIsReachable | multi-paxos-service-impl.cc:553-567 | the cluster reaches a run that has its consensus and has informed nobody |
| ClusterCounterexamples.HandoverMidRun | kv-store-service-impl.cc:128-148 | there another replica is in sync on every key, yet the run returns OK and reads at that replica miss the write |
| ClusterCounterexamples.RejoinShortensPrefix | multi-paxos-service-impl.cc:672-707 | there a replica that is informed first and then rejoins shows the write and then no longer |
| Undisturbed.CoordinatorAloneCanWrite | multi-paxos-service-impl.cc:90-116 | from every state of the cluster at rest the coordinator can complete a write by itself, which returns OK and is what it then reads |
| Answered.AnsweredRunSucceeds | multi-paxos-service-impl.cc:403-601 | from every reachable state, a run that reaches a replica and whose Prepare and Propose calls are answered returns OK; it decides its own operation if no live acceptor holds one at its round, and the held one if only one is held |
| Handlers.PrepareMeans | multi-paxos-service-impl.cc:209-258 | the round's slot exists afterwards, whether or not a promise is given, and no entry changes; a promise is given if and only if the recorded id is lower and the call does not fail at random, and it reports the acceptance of the round if there is one |
| Handlers.ProposeMeans | multi-paxos-service-impl.cc:262-308 | the round's slot exists afterwards and no other entry changes; the operation is accepted if and only if the recorded id is not higher and the call does not fail at random, and otherwise the entry is kept |
| Handlers.HandleInform | multi-paxos-service-impl.cc:312-362 | Inform records the acceptance always, and executes if and only if no later round exists; the stored coordinator changes only by an executed SET_COORDINATOR to a member |
| Handlers.Execute | multi-paxos-service-impl.cc:330-360 | executing changes the value of its key only |
| Types.LatestRound | kv-database.cc:76-80 | the greatest round of the log, 0 when there is none |
| Types.AddSlot | kv-database.cc:82-85 | the round exists afterwards, nothing is overwritten, the latest round is the greater of the two |
| Types.SetAccepted | kv-database.cc:94-101 | the acceptance is overwritten, what was promised and all other rounds are kept |
| KvDatabase.KeyValueDataBase.GetValue | kv-database.cc:9-15 | the stored value, if the key is there |
| KvDatabase.KeyValueDataBase.SetValue | kv-database.cc:19-25 | stores the value; true if and only if one was overwritten |
| KvDatabase.KeyValueDataBase.DeleteEntry | kv-database.cc:29-34 | removes the key; true if and only if it was there |
| KvDatabase.KeyValueDataBase.GetDataMap | kv-database.cc:37-40 | a copy of the data map |
| KvDatabase.KeyValueDataBase.GetPaxosLogKeys | kv-database.cc:43-50 | the keys with a log |
| KvDatabase.KeyValueDataBase.GetPaxosLogs | kv-database.cc:52-56 | the rounds of a key; inserts an empty log for a new key |
| KvDatabase.KeyValueDataBase.GetPaxosLog | kv-database.cc:61-64 | the entry of a round; inserts a default entry when it is new |
| KvDatabase.KeyValueDataBase.GetPaxosLogsMap | kv-database.cc:67-70 | a copy of all logs |
| KvDatabase.KeyValueDataBase.GetLatestRound | kv-database.cc:76-80 | the greatest round, 0 when there is none; inserts an empty log for a new key |
| KvDatabase.KeyValueDataBase.AddPaxosLog | kv-database.cc:82-85 | creates the slot of a round |
| KvDatabase.KeyValueDataBase.AddPromise | kv-database.cc:87-91 | sets promised_id of a round and nothing else |
| KvDatabase.KeyValueDataBase.AddAcceptance | kv-database.cc:94-101 | overwrites the acceptance of a round, keeping its promise |
| KvDatabase.KeyValueDataBase.AddRecovered | kv-database.cc:104-113 | overwrites a whole entry |
| StubsMap.PaxosStubsMap.GetCoordinator | paxos-stubs-map.cc:7-10 | the stored coordinator |
| StubsMap.PaxosStubsMap.SetCoordinator | paxos-stubs-map.cc:12-22 | stores a member, refuses any other address |
| StubsMap.PaxosStubsMap.GetCoordinatorStub | paxos-stubs-map.cc:24-28 | the stub of the coordinator if it is a member |
| StubsMap.PaxosStubsMap.GetStub | paxos-stubs-map.cc:30-35 | the stub of a non-empty member address |
| StubsMap.PaxosStubsMap.GetPaxosStubs | paxos-stubs-map.cc:37-44 | all stubs in ascending order |
| StubsMap.LessAt | paxos-stubs-map.h:15-15 | addresses compare at the first character where they differ, the smaller first, and a proper prefix comes first |
| StubsMap.LessShows | paxos-stubs-map.h:15-15 | and only so |
| StubsMap.LessIsTotal | paxos-stubs-map.h:15-15 | of two different addresses one comes first |
| StubsMap.AscendingIsUnique | paxos-stubs-map.h:15-15 | a set of addresses has one ascending listing |
| StubsMap.AscendingIsDistinct | paxos-stubs-map.h:15-15 | the stubs in map order list each member once |
| Service.MultiPaxosServiceImpl.Prepare | multi-paxos-service-impl.cc:209-258 | the new state and the answer are those of Handlers.HandlePrepare |
| Service.MultiPaxosServiceImpl.Propose | multi-paxos-service-impl.cc:262-308 | the new state and the answer are those of Handlers.HandlePropose |
| Service.MultiPaxosServiceImpl.Inform | multi-paxos-service-impl.cc:312-362 | the new state and the status are those of Handlers.HandleInform |
| Service.MultiPaxosServiceImpl.Recover | multi-paxos-service-impl.cc:364-385 | the response holds the whole data map and every key's log |
| Service.MultiPaxosServiceImpl.GetValue | multi-paxos-service-impl.cc:57-88 | the value, not found, or illegal for the key "coordinator" |
| Service.MultiPaxosServiceImpl.GetCoordinator | multi-paxos-service-impl.cc:170-195 | the stored coordinator, or not found when it is empty |
| Service.MultiPaxosServiceImpl.PutPair | multi-paxos-service-impl.cc:90-116 | rejects the key "coordinator" without any effect, otherwise runs Paxos for a SET |
| Service.MultiPaxosServiceImpl.DeletePair | multi-paxos-service-impl.cc:118-144 | rejects the key "coordinator" without any effect, otherwise runs Paxos for a DELETE |
| Service.MultiPaxosServiceImpl.ElectCoordinator | multi-paxos-service-impl.cc:146-168 | runs Paxos for a SET_COORDINATOR on the key of the request |
| Service.Deploy | server-main.cpp:63-81 | empty services on the given addresses form a network whose replicas are those of the initial state |
| Service.MultiPaxosServiceImpl.PingAll | multi-paxos-service-impl.cc:409-426 | the live addresses, in ascending order |
| Service.MultiPaxosServiceImpl.Begin | multi-paxos-service-impl.cc:404-426 | the chosen round is one above the proposer's latest, and reading it changes no replica but for an empty log |
| Service.MultiPaxosServiceImpl.CallPrepare | multi-paxos-service-impl.cc:457-457 | the proposer hears a promise if and only if the call is handled, answered, and the acceptor's reply is not an error, and then it is that reply; a handled call changes its callee alone, a call that is not handled nothing |
| Service.MultiPaxosServiceImpl.CallPropose | multi-paxos-service-impl.cc:529-529 | the same for Propose |
| Service.MultiPaxosServiceImpl.CallInform | multi-paxos-service-impl.cc:587-587 | the same for Inform, whose answer is ignored |
| Service.MultiPaxosServiceImpl.PrepareAll | multi-paxos-service-impl.cc:438-477 | the counter is the number of promises and, where no promise was recorded, of the calls that are handled, answered and do not fail; the adopted id and operation are those of Adopt, the replicas those of the polled run |
| Service.MultiPaxosServiceImpl.ProposeAll | multi-paxos-service-impl.cc:520-545 | the counter is the number of distinct acceptors and, where no promise was recorded, of the calls that are handled, answered and do not fail; the acceptance passed on is the run's own proposal |
| Service.MultiPaxosServiceImpl.InformAll | multi-paxos-service-impl.cc:567-599 | the replicas after every live address was informed in turn |
| Service.MultiPaxosServiceImpl.Negotiate | multi-paxos-service-impl.cc:432-509 | the promise counter passes the integer test exactly when the run record's promises do, and the proposal is then that of the run record |
| Service.MultiPaxosServiceImpl.Decide | multi-paxos-service-impl.cc:520-600 | the same for the acceptance counter; OK exactly when the run record has passed both tests |
| Service.MultiPaxosServiceImpl.RunPaxos | multi-paxos-service-impl.cc:403-601 | the status and all replicas afterwards are those of Tracing.RunPaxosOn; where no promise was recorded, OK if and only if strict majorities of the live addresses are heard to promise and to accept |
| Service.MultiPaxosServiceImpl.FindCoordinator | multi-paxos-service-impl.cc:603-650 | OK if and only if some reached replica stores itself as coordinator and every reached one stores that address or none, and then that address is stored; otherwise nothing changes |
| Service.MultiPaxosServiceImpl.AskAll | multi-paxos-service-impl.cc:610-628 | exactly the reached replicas that store a coordinator, and exactly the addresses that they store |
| Service.MultiPaxosServiceImpl.InstallLog | multi-paxos-service-impl.cc:702-706 | whatever the order of the rounds, the log is overridden by the recovered one |
| Service.MultiPaxosServiceImpl.InstallData | multi-paxos-service-impl.cc:696-698 | whatever the order of the keys, the data map is overridden by the recovered one |
| Service.MultiPaxosServiceImpl.InstallAllLogs | multi-paxos-service-impl.cc:699-707 | whatever the order of the keys, every log is overridden by the recovered one, and a key with an empty recovered log gets none |
| Service.MultiPaxosServiceImpl.GetRecovery | multi-paxos-service-impl.cc:672-707 | whatever the order of the entries, the state is overridden by the coordinator's; unchanged when it does not answer |

## Left out

- gRPC channels, contexts, deadlines, cancellation and stub objects: an RPC is an outcome, a stub an address.
- Mutexes and races inside handlers: each handler is atomic. Nothing is said about two handlers of one replica that run at the same time.
- `RandomFail` (multi-paxos-service-impl.cc:737): its floating point and `rand()` become one bit of the outcome, ignored on the key "coordinator".
- Integer width: rounds are unbounded natural numbers, so overflow of the 32-bit round is not modelled.
- Logging and message texts: status messages are reduced to OK or ABORTED, NOT_FOUND and illegal.
- `kv-store-service-impl.cc`: it forwards requests to the coordinator and retries once after an election. The model only keeps who issues requests.
- `Initialize` (multi-paxos-service-impl.cc:35): the order of lookup, election and recovery at start-up. Each of the three is modelled; what happens when the election ends without a stored coordinator is not.
- Delivery of a request after its run has ended.
- Liveness: no claim that calls are answered, only that a run succeeds when they are (`Answered.AnsweredRunSucceeds`).
- Service.MultiPaxosServiceImpl.RunPaxos: models the run with its calls one after the other and nothing in between; calls of other runs in between are steps of `System`.
- Service.MultiPaxosServiceImpl.GetRecovery: requires a stored coordinator that is a member, where the code would follow a null pointer.
