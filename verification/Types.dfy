/** Values stored and exchanged by the replicas: operations, per-round Paxos log
    entries, the ordered round log of one key, and the messages of a run. */
module Types {
  type Key = string
  type Value = string
  type Addr = string
  type RunId = nat

  /** The key reserved for coordinator elections. */
  const COORDINATOR_KEY: Key := "coordinator"
  /** Every run proposes with this id. */
  const PROPOSE_ID: int := 1

  datatype Option<+T> = None | Some(value: T)

  datatype OpType = NotSet | Set | Delete | SetCoordinator
  datatype Op = Op(kind: OpType, value: string)
  const NO_OP := Op(NotSet, "")

  datatype PaxosLog = PaxosLog(promisedId: int, acceptedId: int, accepted: Op)
  const EMPTY_ENTRY := PaxosLog(0, 0, NO_OP)

  /** The rounds of one key. Rounds start at GetLatestRound + 1, so they are never negative. */
  type Log = map<nat, PaxosLog>

  /** The rounds of a key among the round logs of all keys. */
  function LogIn(logs: map<Key, Log>, key: Key): Log { if key in logs then logs[key] else map[] }

  datatype Reply<+T> = Ok(resp: T) | Aborted
  datatype PromiseResponse = PromiseResponse(round: nat, proposeId: int, acceptedId: int, op: Op)
  datatype AcceptResponse = AcceptResponse(round: nat, proposeId: int, op: Op)

  datatype Request =
    | Put(key: Key, value: Value)
    | Del(key: Key)
    | Elect(key: Key, coordinator: Addr)

  /** The operation a request asks for. A deletion carries no value. */
  function ProposeValue(req: Request): Op {
    match req
    case Put(_, value) => Op(Set, value)
    case Del(_) => Op(Delete, "")
    case Elect(_, coordinator) => Op(SetCoordinator, coordinator)
  }

  function Max(a: nat, b: nat): nat { if a < b then b else a }

  lemma {:induction false} FiniteSetHasMax(s: set<nat>) returns (m: nat)
    requires s != {}
    ensures m in s && forall x :: x in s ==> x <= m
  {
    m :| m in s;
    if s != {m} {
      assert s == (s - {m}) + {m};
      var n := FiniteSetHasMax(s - {m});
      assert forall x :: x in s ==> x == m || x in s - {m};
      m := Max(m, n);
    }
  }

  /** The greatest round of a log, 0 when it has none. */
  function LatestRound(log: Log): (r: nat)
    ensures log == map[] ==> r == 0
    ensures log != map[] ==> r in log
    ensures forall x :: x in log ==> x <= r
  {
    if log == map[] then 0
    else
      assert exists m :: m in log && forall x :: x in log ==> x <= m by {
        assert log.Keys != {};
        var m := FiniteSetHasMax(log.Keys);
        assert m in log;
      }
      var m :| m in log && forall x :: x in log ==> x <= m;
      m
  }

  lemma LatestIs(log: Log, m: nat)
    requires m in log && forall x :: x in log ==> x <= m
    ensures LatestRound(log) == m
  {
    assert log != map[];
  }

  /** The entry of a round, default-constructed when the round is new. */
  function EntryAt(log: Log, round: nat): PaxosLog {
    if round in log then log[round] else EMPTY_ENTRY
  }

  /** operator[] on the round log: a missing round is inserted. */
  function AddSlot(log: Log, round: nat): (log': Log)
    ensures LatestRound(log') == Max(LatestRound(log), round)
    ensures forall x :: x in log' <==> x in log || x == round
    ensures forall x :: x in log' ==> log'[x] == EntryAt(log, x)
  {
    var log' := if round in log then log else log[round := EMPTY_ENTRY];
    LatestIs(log', Max(LatestRound(log), round));
    log'
  }

  /** Overwrite the acceptance of a round, keeping what it promised. */
  function SetAccepted(log: Log, round: nat, acceptedId: int, op: Op): (log': Log)
    ensures LatestRound(log') == Max(LatestRound(log), round)
    ensures forall x :: x in log' <==> x in log || x == round
    ensures forall x :: x in log && x != round ==> log'[x] == log[x]
    ensures log'[round] == PaxosLog(EntryAt(log, round).promisedId, acceptedId, op)
  {
    var log' := log[round := EntryAt(log, round).(acceptedId := acceptedId, accepted := op)];
    LatestIs(log', Max(LatestRound(log), round));
    log'
  }

  /** The effect of an executed operation on the value of its key. */
  function ApplyOp(op: Op, prev: Option<Value>): Option<Value> {
    match op.kind
    case Set => Some(op.value)
    case Delete => None
    case SetCoordinator => prev
    case NotSet => prev
  }

  /** One operation that a run decided or that a replica executed. */
  datatype Entry = Entry(run: RunId, round: nat, op: Op)

  /** The value of a key after a sequence of operations on it, from an absent key. */
  function ValueAfter(h: seq<Entry>): Option<Value> {
    if |h| == 0 then None else ApplyOp(h[|h| - 1].op, ValueAfter(h[..|h| - 1]))
  }
}
