/** What each RPC does to the state of the replica that handles it. Every handler
    is one atomic function of the replica; the service class and the step
    machine both use these functions. */
module Handlers {
  import opened Types

  /** The database of a replica and the coordinator address it stores ("" when unset). */
  datatype Replica = Replica(data: map<Key, Value>, logs: map<Key, Log>, coordinator: Addr)
  const EMPTY_REPLICA := Replica(map[], map[], "")

  function LogOf(r: Replica, key: Key): Log { LogIn(r.logs, key) }

  function Lookup(r: Replica, key: Key): Option<Value> {
    if key in r.data then Some(r.data[key]) else None
  }

  lemma SameLookups(r: Replica, r': Replica)
    requires forall key :: Lookup(r, key) == Lookup(r', key)
    ensures r.data == r'.data
  {
    forall key ensures key in r.data <==> key in r'.data { assert Lookup(r, key) == Lookup(r', key); }
    forall key | key in r.data ensures r.data[key] == r'.data[key] { assert Lookup(r, key) == Lookup(r', key); }
  }

  /** r' differs from r at most at `key` (and in the coordinator it stores). */
  predicate SameElsewhere(r: Replica, r': Replica, key: Key) {
    r'.logs.Keys == r.logs.Keys + {key} &&
    (forall k :: k in r.logs && k != key ==> r'.logs[k] == r.logs[k]) &&
    r'.data.Keys - {key} == r.data.Keys - {key} &&
    (forall k :: k in r.data && k != key ==> k in r'.data && r'.data[k] == r.data[k])
  }

  // ---- Acceptor ------------------------------------------------------------

  /** The answer to a Prepare, given the key's log before the call. */
  function PrepareReply(log: Log, key: Key, round: nat, proposeId: int, fail: bool): Reply<PromiseResponse> {
    var entry := EntryAt(log, round);
    if entry.promisedId >= proposeId then Aborted
    else if key != COORDINATOR_KEY && fail then Aborted
    else if entry.acceptedId > 0 then Ok(PromiseResponse(round, proposeId, entry.acceptedId, entry.accepted))
    else Ok(PromiseResponse(round, proposeId, 0, NO_OP))
  }

  /** Prepare creates the slot of the round before it decides how to answer. */
  function HandlePrepare(r: Replica, key: Key, round: nat, proposeId: int, fail: bool)
    : (res: (Replica, Reply<PromiseResponse>))
    ensures SameElsewhere(r, res.0, key) && res.0.data == r.data && res.0.coordinator == r.coordinator
  {
    (r.(logs := r.logs[key := AddSlot(LogOf(r, key), round)]),
     PrepareReply(LogOf(r, key), key, round, proposeId, fail))
  }

  /** Prepare creates the round's slot in every case, and changes no entry of any log. It
      answers unless a promise as high is recorded or it fails at random, and then reports
      the acceptance that the round holds, if it holds one. */
  lemma PrepareMeans(r: Replica, key: Key, round: nat, proposeId: int, fail: bool, other: nat)
    ensures var (r', reply) := HandlePrepare(r, key, round, proposeId, fail);
      var entry := EntryAt(LogOf(r, key), round);
      round in LogOf(r', key) && LatestRound(LogOf(r', key)) == Max(LatestRound(LogOf(r, key)), round) &&
      EntryAt(LogOf(r', key), other) == EntryAt(LogOf(r, key), other) &&
      (reply.Ok? <==> entry.promisedId < proposeId && (key == COORDINATOR_KEY || !fail)) &&
      (reply.Ok? ==>
        reply.resp.round == round && reply.resp.proposeId == proposeId &&
        (entry.acceptedId > 0 ==> reply.resp.acceptedId == entry.acceptedId && reply.resp.op == entry.accepted) &&
        (entry.acceptedId <= 0 ==> reply.resp.acceptedId == 0))
  {}

  /** True when the acceptor takes a proposal. */
  predicate Accepts(log: Log, key: Key, round: nat, proposeId: int, fail: bool) {
    EntryAt(log, round).promisedId <= proposeId && !(key != COORDINATOR_KEY && fail)
  }

  function ProposeLog(log: Log, key: Key, round: nat, proposeId: int, op: Op, fail: bool): Log {
    if Accepts(log, key, round, proposeId, fail)
    then SetAccepted(log, round, proposeId, op)
    else AddSlot(log, round)
  }

  function ProposeReply(log: Log, key: Key, round: nat, proposeId: int, op: Op, fail: bool): Reply<AcceptResponse> {
    if Accepts(log, key, round, proposeId, fail) then Ok(AcceptResponse(round, proposeId, op)) else Aborted
  }

  /** Propose inserts the round by reading it, even when it rejects. */
  function HandlePropose(r: Replica, key: Key, round: nat, proposeId: int, op: Op, fail: bool)
    : (res: (Replica, Reply<AcceptResponse>))
    ensures SameElsewhere(r, res.0, key) && res.0.data == r.data && res.0.coordinator == r.coordinator
  {
    (r.(logs := r.logs[key := ProposeLog(LogOf(r, key), key, round, proposeId, op, fail)]),
     ProposeReply(LogOf(r, key), key, round, proposeId, op, fail))
  }

  /** Propose creates the round's slot in every case. It accepts unless a higher promise is
      recorded or it fails at random; then the round holds the proposal, whose promise and
      whose neighbours are kept, and the answer repeats it. Otherwise no entry changes. */
  lemma ProposeMeans(r: Replica, key: Key, round: nat, proposeId: int, op: Op, fail: bool, other: nat)
    ensures var (r', reply) := HandlePropose(r, key, round, proposeId, op, fail);
      var entry, entry' := EntryAt(LogOf(r, key), round), EntryAt(LogOf(r', key), round);
      round in LogOf(r', key) && LatestRound(LogOf(r', key)) == Max(LatestRound(LogOf(r, key)), round) &&
      (other != round ==> EntryAt(LogOf(r', key), other) == EntryAt(LogOf(r, key), other)) &&
      (reply.Ok? <==> entry.promisedId <= proposeId && (key == COORDINATOR_KEY || !fail)) &&
      (reply.Ok? ==> entry' == PaxosLog(entry.promisedId, proposeId, op) &&
                     reply.resp == AcceptResponse(round, proposeId, op)) &&
      (reply.Aborted? ==> entry' == entry)
  {}

  // ---- Learner -------------------------------------------------------------

  /** An Inform is executed unless the log already holds a later round. */
  predicate Executes(log: Log, round: nat) { LatestRound(log) <= round }

  function SetCoordinatorOf(r: Replica, stubs: set<Addr>, address: Addr): Replica {
    if address in stubs then r.(coordinator := address) else r
  }

  function Execute(r: Replica, stubs: set<Addr>, key: Key, op: Op): (r': Replica)
    ensures r'.logs == r.logs
    ensures Lookup(r', key) == ApplyOp(op, Lookup(r, key))
    ensures r'.data.Keys - {key} == r.data.Keys - {key}
    ensures forall k :: k in r.data && k != key ==> k in r'.data && r'.data[k] == r.data[k]
  {
    match op.kind
    case Set => r.(data := r.data[key := op.value])
    case Delete => r.(data := r.data - {key})
    case SetCoordinator => SetCoordinatorOf(r, stubs, op.value)
    case NotSet => r
  }

  /** Inform records the acceptance first, then executes it if no later round exists.
      The boolean is false when the operation was refused. */
  function HandleInform(r: Replica, stubs: set<Addr>, key: Key, acceptance: AcceptResponse)
    : (res: (Replica, bool))
    ensures SameElsewhere(r, res.0, key)
    ensures LogOf(res.0, key) == SetAccepted(LogOf(r, key), acceptance.round, acceptance.proposeId, acceptance.op)
    ensures res.1 <==> Executes(LogOf(r, key), acceptance.round)
    ensures Lookup(res.0, key) == if res.1 then ApplyOp(acceptance.op, Lookup(r, key)) else Lookup(r, key)
    ensures res.0.coordinator == if res.1 && acceptance.op.kind == SetCoordinator && acceptance.op.value in stubs
                                 then acceptance.op.value else r.coordinator
  {
    var log := SetAccepted(LogOf(r, key), acceptance.round, acceptance.proposeId, acceptance.op);
    var r' := r.(logs := r.logs[key := log]);
    if acceptance.round < LatestRound(log) then (r', false)
    else (Execute(r', stubs, key, acceptance.op), true)
  }

  // ---- Reads ---------------------------------------------------------------

  datatype GetResult = Illegal | NotFound | Found(value: Value)

  function HandleGet(r: Replica, key: Key): GetResult {
    if key == COORDINATOR_KEY then Illegal
    else if key in r.data then Found(r.data[key])
    else NotFound
  }

  /** PutPair and DeletePair reject the reserved key; elections are only ever
      issued on it. */
  predicate ProperRequest(req: Request) {
    (req.Put? || req.Del? ==> req.key != COORDINATOR_KEY) &&
    (req.Elect? ==> req.key == COORDINATOR_KEY)
  }

  // ---- Recovery ------------------------------------------------------------

  datatype Snapshot = Snapshot(kvMap: map<Key, Value>, paxosLogs: map<Key, Log>)

  function HandleRecover(r: Replica): Snapshot { Snapshot(r.data, r.logs) }

  /** The logs after those of a snapshot are written: a pointwise override. A key whose
      log is empty in the snapshot gets no log. */
  function InstallLogs(logs: map<Key, Log>, snap: map<Key, Log>): map<Key, Log> {
    map k | k in logs.Keys + (set s | s in snap && snap[s] != map[]) :: LogIn(logs, k) + LogIn(snap, k)
  }

  /** The database after the install loops. */
  function Install(r: Replica, snap: Snapshot): Replica {
    Replica(r.data + snap.kvMap, InstallLogs(r.logs, snap.paxosLogs), r.coordinator)
  }

  lemma InstallAt(r: Replica, snap: Snapshot, key: Key)
    ensures LogOf(Install(r, snap), key) ==
            LogOf(r, key) + LogIn(snap.paxosLogs, key)
    ensures Lookup(Install(r, snap), key) ==
            if key in snap.kvMap then Some(snap.kvMap[key]) else Lookup(r, key)
  {}
}
