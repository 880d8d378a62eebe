/** The cluster behaves like one map: the linearization point of a write is the
    coordinator's own Inform. */
module Refinement {
  import opened Types
  import opened Handlers
  import opened System
  import opened KeyView
  import opened Safety
  import opened Serial
  import opened Cluster

  // ---- The specification: a map with atomic operations ----------------------

  datatype Status = Pending | Applied | Returned(ok: bool)
  datatype Write = Write(key: Key, op: Op, status: Status)
  datatype Store = Store(data: map<Key, Value>, writes: map<RunId, Write>)

  datatype Label =
    | Invoke(id: RunId, key: Key, op: Op)
    | Linearize(id: RunId)
    | Return(id: RunId, ok: bool)
    | Read(key: Key, result: GetResult)
    | Internal

  function Updated(data: map<Key, Value>, key: Key, op: Op): map<Key, Value> {
    match ApplyOp(op, if key in data then Some(data[key]) else None)
    case Some(value) => data[key := value]
    case None => data - {key}
  }

  function ReadOf(data: map<Key, Value>, key: Key): GetResult {
    if key == COORDINATOR_KEY then Illegal else if key in data then Found(data[key]) else NotFound
  }

  /** A write takes effect once, between its invocation and its OK return; an aborted
      write never takes effect; a read sees the current map. */
  predicate StoreAllows(x: Store, l: Label) {
    match l
    case Invoke(id, _, _) => id !in x.writes
    case Linearize(id) => id in x.writes && x.writes[id].status == Pending
    case Return(id, ok) => id in x.writes && x.writes[id].status == if ok then Applied else Pending
    case Read(key, result) => result == ReadOf(x.data, key)
    case Internal => true
  }

  function StoreNext(x: Store, l: Label): Store
    requires StoreAllows(x, l)
  {
    match l
    case Invoke(id, key, op) => x.(writes := x.writes[id := Write(key, op, Pending)])
    case Linearize(id) =>
      var w := x.writes[id];
      Store(Updated(x.data, w.key, w.op), x.writes[id := w.(status := Applied)])
    case Return(id, ok) => x.(writes := x.writes[id := x.writes[id].(status := Returned(ok))])
    case Read(_, _) => x
    case Internal => x
  }

  predicate StoreRuns(x: Store, ls: seq<Label>)
    decreases |ls|
  {
    ls == [] || (StoreAllows(x, ls[0]) && StoreRuns(StoreNext(x, ls[0]), ls[1..]))
  }

  function StoreAfter(x: Store, ls: seq<Label>): Store
    requires StoreRuns(x, ls)
    decreases |ls|
  {
    if ls == [] then x else StoreAfter(StoreNext(x, ls[0]), ls[1..])
  }

  // ---- The refinement mapping -----------------------------------------------

  function StatusOf(q: Run, c: Addr): Status {
    match q.phase
    case Done(ok) => Returned(ok)
    case Informing => if c in q.todo then Pending else Applied
    case _ => Pending
  }

  function WriteOf(q: Run, c: Addr): Write { Write(q.key, q.op, StatusOf(q, c)) }

  function WritesOf(runs: map<RunId, Run>, c: Addr): map<RunId, Write> {
    map id | id in runs && Client(runs[id]) :: WriteOf(runs[id], c)
  }

  /** The abstract map is the coordinator's own data map. */
  function Abs(cl: Cluster): Store
    requires WfCluster(cl)
  {
    Store(cl.sys.replicas[cl.coord].data, WritesOf(cl.sys.runs, cl.coord))
  }

  function LabelOf(cl: Cluster, act: Action): Label
    requires WfCluster(cl) && (act.Do? ==> Enabled(cl.sys, act.e))
  {
    match act
    case Do(Start(id, _, req)) =>
      if req.key != COORDINATOR_KEY then Invoke(id, req.key, ProposeValue(req)) else Internal
    case Do(Call(id, a, _)) =>
      if Client(cl.sys.runs[id]) && cl.sys.runs[id].phase == Informing && a == cl.coord then Linearize(id)
      else Internal
    case Do(Advance(id)) =>
      if Client(cl.sys.runs[id]) && AfterPhase(cl.sys.runs[id]).phase.Done?
      then Return(id, AfterPhase(cl.sys.runs[id]).phase.ok)
      else Internal
    case Get(key) => Read(key, HandleGet(cl.sys.replicas[cl.coord], key))
    case _ => Internal
  }

  function Labels(cl: Cluster, acts: seq<Action>): seq<Label>
    requires Runs(cl, acts)
    decreases |acts|
  {
    if acts == [] then [] else [LabelOf(cl, acts[0])] + Labels(Next(cl, acts[0]), acts[1..])
  }

  // ---- The simulation --------------------------------------------------------

  lemma WritesSet(runs: map<RunId, Run>, id: RunId, q: Run, c: Addr)
    requires id in runs ==> runs[id].key == q.key
    ensures WritesOf(runs[id := q], c) ==
            if Client(q) then WritesOf(runs, c)[id := WriteOf(q, c)] else WritesOf(runs, c)
  {}

  lemma WritesSame(runs: map<RunId, Run>, id: RunId, q: Run, c: Addr)
    requires id in runs && WriteOf(runs[id], c) == WriteOf(q, c)
    ensures WritesOf(runs[id := q], c) == WritesOf(runs, c)
  {}

  /** Only an executed SET or DELETE changes a data map. */
  lemma DeliverData(s: System, id: RunId, rpc: Rpc, a: Addr, fail: bool, c: Addr)
    requires Wf(s) && id in s.runs && a in s.stubs && c in s.stubs
    requires a != c || rpc != InformRpc || s.runs[id].proposal.kind == SetCoordinator
    ensures Deliver(s, id, rpc, a, fail).replicas[c].data == s.replicas[c].data
  {}

  /** The coordinator's own Inform applies the operation that was requested. */
  lemma InformData(cl: Cluster, id: RunId)
    requires ClusterInv(cl) && id in cl.sys.runs
    requires Client(cl.sys.runs[id]) && cl.sys.runs[id].phase == Informing
    ensures DeliverInform(cl.sys, id, cl.coord).replicas[cl.coord].data ==
            Updated(cl.sys.replicas[cl.coord].data, cl.sys.runs[id].key, cl.sys.runs[id].op)
  {
    var q, c := cl.sys.runs[id], cl.coord;
    var v := ViewOf(cl.sys, q.key);
    assert KeyInv(v, q.key, c) && v.runs[id] == q;
    assert RunOk(v, q.key, q);
    InformReachesCoordinator(v, q.key, c, id);
    InformIsDecided(v, q.key, c, id);
    ExecutedData(cl.sys.replicas[c], cl.sys.stubs, q);
  }

  lemma ExecutedData(r: Replica, stubs: set<Addr>, q: Run)
    requires Executes(LogOf(r, q.key), q.round) && (q.proposal.kind == Set || q.proposal.kind == Delete)
    ensures HandleInform(r, stubs, q.key, AcceptanceOf(q)).0.data == Updated(r.data, q.key, q.proposal)
  {}

  lemma ElectionProposal(cl: Cluster, id: RunId)
    requires ClusterInv(cl) && id in cl.sys.runs && !Client(cl.sys.runs[id]) && Proposed(cl.sys.runs[id])
    ensures cl.sys.runs[id].proposal.kind == SetCoordinator
  {
    var v := ViewOf(cl.sys, COORDINATOR_KEY);
    assert KeyInv(v, COORDINATOR_KEY, cl.coord) && RunOk(v, COORDINATOR_KEY, v.runs[id]);
    var i :| i in v.runs && v.runs[i].op == v.runs[id].proposal;
    assert RunOk(v, COORDINATOR_KEY, v.runs[i]);
  }

  /** Once a client run has pinged, the coordinator is in its live set. */
  lemma CoordinatorIsLive(cl: Cluster, id: RunId)
    requires ClusterInv(cl) && id in cl.sys.runs && Client(cl.sys.runs[id]) && CallPhase(cl.sys.runs[id].phase)
    ensures cl.coord in cl.sys.runs[id].live
  {
    var v := ViewOf(cl.sys, cl.sys.runs[id].key);
    assert KeyInv(v, cl.sys.runs[id].key, cl.coord) && RunSerial(v, cl.coord, id, v.runs[id]);
  }

  lemma RefinesStart(cl: Cluster, e: Event)
    requires ClusterInv(cl) && Allowed(cl, Do(e)) && e.Start?
    ensures StoreAllows(Abs(cl), LabelOf(cl, Do(e)))
    ensures StoreNext(Abs(cl), LabelOf(cl, Do(e))) == Abs(Next(cl, Do(e)))
  {
    WritesSet(cl.sys.runs, e.id, NewRun(e.proposer, e.req, LogOf(cl.sys.replicas[e.proposer], e.req.key)), cl.coord);
  }

  lemma RefinesPing(cl: Cluster, e: Event)
    requires ClusterInv(cl) && Allowed(cl, Do(e)) && e.Ping?
    ensures Abs(Next(cl, Do(e))) == Abs(cl)
  {
    var q := cl.sys.runs[e.id];
    if Client(q) {
      assert Concerns(cl.sys, e, q.key);
      assert Guarded(ViewOf(cl.sys, q.key), cl.coord, e);
      WritesSame(cl.sys.runs, e.id, AfterPing(q, e.live), cl.coord);
    } else {
      WritesSet(cl.sys.runs, e.id, AfterPing(q, e.live), cl.coord);
    }
  }

  /** The data of the coordinator after an RPC. */
  lemma CallData(cl: Cluster, id: RunId, rpc: Rpc, a: Addr, fail: bool)
    requires ClusterInv(cl) && id in cl.sys.runs && a in cl.sys.stubs && Sent(rpc, cl.sys.runs[id].phase)
    ensures var q := cl.sys.runs[id]; var data := cl.sys.replicas[cl.coord].data;
      Deliver(cl.sys, id, rpc, a, fail).replicas[cl.coord].data ==
      if Client(q) && rpc == InformRpc && a == cl.coord then Updated(data, q.key, q.op) else data
  {
    var q := cl.sys.runs[id];
    if rpc == InformRpc && a == cl.coord {
      if Client(q) {
        InformData(cl, id);
      } else {
        InformingProposed(cl, id);
        ElectionProposal(cl, id);
        DeliverData(cl.sys, id, rpc, a, fail, cl.coord);
      }
    } else {
      DeliverData(cl.sys, id, rpc, a, fail, cl.coord);
    }
  }

  lemma InformingProposed(cl: Cluster, id: RunId)
    requires ClusterInv(cl) && id in cl.sys.runs && cl.sys.runs[id].phase == Informing
    ensures Proposed(cl.sys.runs[id])
  {
    var v := ViewOf(cl.sys, cl.sys.runs[id].key);
    assert KeyInv(v, cl.sys.runs[id].key, cl.coord) && RunOk(v, cl.sys.runs[id].key, v.runs[id]);
  }

  /** A late call is never to the coordinator itself. */
  lemma LateIsElsewhere(cl: Cluster, e: Event)
    requires Allowed(cl, Do(e)) && e.Late? && Client(cl.sys.runs[e.id])
    ensures e.a != cl.coord
  {
    var key := cl.sys.runs[e.id].key;
    assert Concerns(cl.sys, e, key) && Guarded(ViewOf(cl.sys, key), cl.coord, e);
  }

  lemma LateData(cl: Cluster, e: Event)
    requires ClusterInv(cl) && Allowed(cl, Do(e)) && e.Late?
    ensures Apply(cl.sys, e).replicas[cl.coord].data == cl.sys.replicas[cl.coord].data
  {
    if Client(cl.sys.runs[e.id]) { LateIsElsewhere(cl, e); }
    CallData(cl, e.id, e.rpc, e.a, e.fail);
  }

  lemma LateWrites(s: System, e: Event, c: Addr)
    requires Wf(s) && Enabled(s, e) && e.Late?
    ensures WritesOf(Apply(s, e).runs, c) == WritesOf(s.runs, c)
  {
    DeliverRuns(s, e.id, e.rpc, e.a, e.fail);
    WritesSame(s.runs, e.id, Apply(s, e).runs[e.id], c);
  }

  lemma RefinesLate(cl: Cluster, e: Event)
    requires ClusterInv(cl) && Allowed(cl, Do(e)) && e.Late?
    ensures Abs(Next(cl, Do(e))) == Abs(cl)
  {
    LateData(cl, e);
    LateWrites(cl.sys, e, cl.coord);
  }

  lemma CallKeepsData(cl: Cluster, e: Event)
    requires ClusterInv(cl) && Allowed(cl, Do(e)) && e.Call?
    ensures Apply(cl.sys, e).replicas[cl.coord].data ==
      (if LabelOf(cl, Do(e)).Linearize?
       then Updated(cl.sys.replicas[cl.coord].data, cl.sys.runs[e.id].key, cl.sys.runs[e.id].op)
       else cl.sys.replicas[cl.coord].data)
  {
    if Client(cl.sys.runs[e.id]) { OwnCallIsHandled(cl, e); }
    if e.outcome.Handled? { CallData(cl, e.id, RpcOf(cl.sys.runs[e.id].phase), e.a, e.outcome.fail); }
  }

  lemma OwnCallIsHandled(cl: Cluster, e: Event)
    requires Allowed(cl, Do(e)) && e.Call? && Client(cl.sys.runs[e.id])
    ensures e.a == cl.coord ==> e.outcome.Handled?
  {
    var key := cl.sys.runs[e.id].key;
    assert Concerns(cl.sys, e, key) && Guarded(ViewOf(cl.sys, key), cl.coord, e);
  }

  lemma CallWrites(cl: Cluster, e: Event)
    requires ClusterInv(cl) && Allowed(cl, Do(e)) && e.Call?
    ensures var q := cl.sys.runs[e.id];
      WritesOf(Apply(cl.sys, e).runs, cl.coord) ==
      if LabelOf(cl, Do(e)).Linearize?
      then WritesOf(cl.sys.runs, cl.coord)[e.id := Write(q.key, q.op, Applied)]
      else WritesOf(cl.sys.runs, cl.coord)
  {
    var s, q := cl.sys, cl.sys.runs[e.id];
    CallRuns(s, e.id, e.a, e.outcome);
    WritesSet(s.runs, e.id, Apply(s, e).runs[e.id], cl.coord);
    if Client(q) && (q.phase != Informing || e.a != cl.coord) {
      WritesSame(s.runs, e.id, Apply(s, e).runs[e.id], cl.coord);
    }
  }

  lemma RefinesCall(cl: Cluster, e: Event)
    requires ClusterInv(cl) && Allowed(cl, Do(e)) && e.Call?
    ensures StoreAllows(Abs(cl), LabelOf(cl, Do(e)))
    ensures StoreNext(Abs(cl), LabelOf(cl, Do(e))) == Abs(Next(cl, Do(e)))
  {
    CallKeepsData(cl, e);
    CallWrites(cl, e);
  }

  lemma RefinesAdvance(cl: Cluster, e: Event)
    requires ClusterInv(cl) && Allowed(cl, Do(e)) && e.Advance?
    ensures StoreAllows(Abs(cl), LabelOf(cl, Do(e)))
    ensures StoreNext(Abs(cl), LabelOf(cl, Do(e))) == Abs(Next(cl, Do(e)))
  {
    var q := cl.sys.runs[e.id];
    WritesSet(cl.sys.runs, e.id, AfterPhase(q), cl.coord);
    if Client(q) {
      CoordinatorIsLive(cl, e.id);
      if InFlight(AfterPhase(q)) { WritesSame(cl.sys.runs, e.id, AfterPhase(q), cl.coord); }
    }
  }

  lemma WritesAtRest(s: System, c: Addr, to: Addr)
    requires AtRest(s)
    ensures WritesOf(s.runs, to) == WritesOf(s.runs, c)
  {}

  /** At rest a handover keeps the map exactly when the two data maps are equal. */
  lemma HandoverKeepsMapIff(cl: Cluster, to: Addr)
    requires WfCluster(cl) && AtRest(cl.sys) && to in cl.sys.stubs
    ensures Abs(cl.(coord := to)) == Abs(cl) <==> cl.sys.replicas[to].data == cl.sys.replicas[cl.coord].data
  {
    WritesAtRest(cl.sys, cl.coord, to);
  }

  /** A restart of the coordinator keeps the map exactly when it is empty. */
  lemma CoordinatorRestartKeepsMapIff(cl: Cluster)
    requires WfCluster(cl)
    ensures Abs(cl.(sys := RestartReplica(cl.sys, cl.coord))) == Abs(cl) <==> Abs(cl).data == map[]
  {}

  lemma InSyncData(cl: Cluster, to: Addr)
    requires ClusterInv(cl) && Allowed(cl, Handover(to))
    ensures cl.sys.replicas[to].data == cl.sys.replicas[cl.coord].data
  {
    var s := cl.sys;
    forall key ensures Lookup(s.replicas[to], key) == Lookup(s.replicas[cl.coord], key) {
      var v := ViewOf(s, key);
      assert KeyInv(v, key, cl.coord);
      if key == COORDINATOR_KEY {
        if v.vals[to].Some? { StoredOnWritableKey(v, key, to); }
        if v.vals[cl.coord].Some? { StoredOnWritableKey(v, key, cl.coord); }
      } else {
        assert InSync(v, cl.coord, to);
      }
    }
    SameLookups(s.replicas[to], s.replicas[cl.coord]);
  }

  lemma RefinesHandover(cl: Cluster, to: Addr)
    requires ClusterInv(cl) && Allowed(cl, Handover(to))
    ensures Abs(Next(cl, Handover(to))) == Abs(cl)
  {
    InSyncData(cl, to);
    HandoverKeepsMapIff(cl, to);
  }

  /** Every step of the cluster is the step of the map that its label names. */
  lemma RefinesStep(cl: Cluster, act: Action)
    requires ClusterInv(cl) && Allowed(cl, act)
    ensures StoreAllows(Abs(cl), LabelOf(cl, act))
    ensures StoreNext(Abs(cl), LabelOf(cl, act)) == Abs(Next(cl, act))
  {
    match act
    case Do(e) =>
      match e {
        case Start(_, _, _) => RefinesStart(cl, e);
        case Ping(_, _) => RefinesPing(cl, e);
        case Call(_, _, _) => RefinesCall(cl, e);
        case Late(_, _, _, _) => RefinesLate(cl, e);
        case Advance(_) => RefinesAdvance(cl, e);
        case _ =>
      }
    case Handover(to) => RefinesHandover(cl, to);
    case Crash(_) =>
    case Recovers(_, _) =>
    case Rejoin(_) =>
    case Get(_) =>
  }

  lemma {:induction false} RefinesRun(cl: Cluster, acts: seq<Action>)
    requires ClusterInv(cl) && Runs(cl, acts)
    ensures StoreRuns(Abs(cl), Labels(cl, acts))
    ensures StoreAfter(Abs(cl), Labels(cl, acts)) == Abs(After(cl, acts))
    decreases |acts|
  {
    if acts != [] {
      var rest := Labels(Next(cl, acts[0]), acts[1..]);
      RefinesStep(cl, acts[0]);
      NextInv(cl, acts[0]);
      RefinesRun(Next(cl, acts[0]), acts[1..]);
      assert ([LabelOf(cl, acts[0])] + rest)[1..] == rest;
    }
  }

  /** Every behaviour of the cluster, under any interleaving across keys, live sets with
      the coordinator, losses and failures, with handovers and rejoins, is a behaviour of
      one map that starts empty and applies each OK write atomically before it returns. */
  lemma ClusterRefinesOneMap(stubs: set<Addr>, coord: Addr, acts: seq<Action>)
    requires coord in stubs && Runs(InitCluster(stubs, coord), acts)
    ensures var cl := InitCluster(stubs, coord);
      StoreRuns(Store(map[], map[]), Labels(cl, acts)) &&
      StoreAfter(Store(map[], map[]), Labels(cl, acts)) == Abs(After(cl, acts))
  {
    InitClusterInv(stubs, coord);
    RefinesRun(InitCluster(stubs, coord), acts);
    assert Abs(InitCluster(stubs, coord)) == Store(map[], map[]);
  }
}
