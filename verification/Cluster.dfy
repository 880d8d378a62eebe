/** The system under its operating assumptions: a coordinator that alone proposes
    client writes, one run at a time on each key, live sets that contain it; handover,
    at rest, to a replica in sync. Any other replica crashes and recovers at any time. */
module Cluster {
  import opened Types
  import opened System
  import opened KeyView
  import opened Safety
  import opened Serial

  datatype Cluster = Cluster(sys: System, coord: Addr)

  datatype Action =
    | Do(e: Event)
    | Crash(a: Addr)
    | Recovers(a: Addr, source: Addr)
    | Rejoin(a: Addr)
    | Handover(to: Addr)
    | Get(key: Key)

  predicate Client(q: Run) { q.key != COORDINATOR_KEY }

  /** No client run is in flight. */
  predicate AtRest(s: System) {
    forall id :: id in s.runs && Client(s.runs[id]) ==> !InFlight(s.runs[id])
  }

  /** a has the system-wide latest round of the key, and the coordinator's value. */
  predicate InSync(v: View, c: Addr, a: Addr) {
    a in v.logs && c in v.vals && a in v.vals && v.vals[a] == v.vals[c] &&
    forall b, r :: b in v.logs && r in v.logs[b] ==> r <= LatestRound(v.logs[a])
  }

  predicate WfCluster(cl: Cluster) { Wf(cl.sys) && cl.coord in cl.sys.stubs }

  ghost predicate Allowed(cl: Cluster, act: Action) {
    WfCluster(cl) &&
    match act
    case Do(e) =>
      Enabled(cl.sys, e) && RunEvent(e) &&
      forall key :: key != COORDINATOR_KEY && Concerns(cl.sys, e, key) ==> Guarded(ViewOf(cl.sys, key), cl.coord, e)
    case Crash(a) => a in cl.sys.stubs && a != cl.coord
    case Recovers(a, source) => a in cl.sys.stubs && source in cl.sys.stubs && a != cl.coord
    case Rejoin(a) => a in cl.sys.stubs && a != cl.coord
    case Handover(to) =>
      to in cl.sys.stubs && AtRest(cl.sys) &&
      forall key :: key != COORDINATOR_KEY ==> InSync(ViewOf(cl.sys, key), cl.coord, to)
    case Get(_) => true
  }

  /** A crashed replica is restarted with an empty database. Rejoin is a crash directly
      followed by the recovery from the coordinator. */
  function Next(cl: Cluster, act: Action): (cl': Cluster)
    requires Allowed(cl, act)
    ensures WfCluster(cl') && cl'.sys.stubs == cl.sys.stubs
  {
    match act
    case Do(e) => cl.(sys := Apply(cl.sys, e))
    case Crash(a) => cl.(sys := RestartReplica(cl.sys, a))
    case Recovers(a, source) => cl.(sys := RecoverReplica(cl.sys, a, source))
    case Handover(to) => cl.(coord := to)
    case Rejoin(a) => cl.(sys := RecoverReplica(RestartReplica(cl.sys, a), a, cl.coord))
    case Get(_) => cl
  }

  /** Nothing else is assumed: the network may do anything to calls between different
      replicas, and requests to the others may arrive late; the coordinator may start a write
      on a key without one in flight, on any live set with itself; elections are free; any
      other replica may crash at any time and recover from any. */
  lemma AssumesOnly(cl: Cluster, e: Event, a: Addr, source: Addr)
    requires WfCluster(cl)
    ensures Enabled(cl.sys, e) && e.Call? && (e.a == cl.coord ==> e.outcome.Handled?) ==> Allowed(cl, Do(e))
    ensures Enabled(cl.sys, e) && e.Late? && e.a != cl.coord ==> Allowed(cl, Do(e))
    ensures Enabled(cl.sys, e) && e.Advance? ==> Allowed(cl, Do(e))
    ensures Enabled(cl.sys, e) && e.Ping? && cl.coord in e.live ==> Allowed(cl, Do(e))
    ensures Enabled(cl.sys, e) && e.Start? && e.proposer == cl.coord &&
            (forall id :: id in cl.sys.runs && cl.sys.runs[id].key == e.req.key ==> !InFlight(cl.sys.runs[id])) ==>
              Allowed(cl, Do(e))
    ensures Enabled(cl.sys, e) && e.Start? && e.req.Elect? ==> Allowed(cl, Do(e))
    ensures Enabled(cl.sys, e) && RunEvent(e) && e.id in cl.sys.runs && !Client(cl.sys.runs[e.id]) ==>
              Allowed(cl, Do(e))
    ensures a in cl.sys.stubs && source in cl.sys.stubs && a != cl.coord ==>
              Allowed(cl, Crash(a)) && Allowed(cl, Recovers(a, source)) && Allowed(cl, Rejoin(a))
  {}

  function InitCluster(stubs: set<Addr>, coord: Addr): Cluster { Cluster(Init(stubs), coord) }

  ghost predicate KeyInv(v: View, key: Key, c: Addr) {
    Inv(v, key) && (key != COORDINATOR_KEY ==> SerialInv(v, c))
  }

  ghost predicate ClusterInv(cl: Cluster) {
    WfCluster(cl) && forall key :: KeyInv(ViewOf(cl.sys, key), key, cl.coord)
  }

  // ---- Crashes, recoveries and handover on one key -----------------------------

  function WithReplica(v: View, a: Addr, log: Log, value: Option<Value>, h: seq<Entry>): View {
    v.(logs := v.logs[a := log], vals := v.vals[a := value], hist := v.hist[a := h])
  }

  /** A log that says nothing new: no slot above the others' reach, no new acceptance. */
  ghost predicate NothingNew(v: View, c: Addr, log: Log) {
    SlotsOk(v, c, log) && forall r: nat :: NothingAccepted(v, r) ==> EntryAt(log, r).acceptedId == 0
  }

  lemma ReplacedRun(v: View, c: Addr, a: Addr, log: Log, value: Option<Value>, h: seq<Entry>, i: RunId)
    requires SerialInv(v, c) && a in v.logs && a != c && NothingNew(v, c, log) && i in v.runs
    ensures RunSerial(WithReplica(v, a, log, value, h), c, i, v.runs[i])
  {
    assert RunSerial(v, c, i, v.runs[i]);
    assert NothingAccepted(v, v.runs[i].round) ==> NothingAccepted(WithReplica(v, a, log, value, h), v.runs[i].round);
  }

  /** Whatever a replica other than the coordinator loses or takes over from the others,
      the invariant of the key stays. */
  lemma ReplacedSerial(v: View, c: Addr, a: Addr, log: Log, value: Option<Value>, h: seq<Entry>)
    requires WfView(v) && SerialInv(v, c) && a in v.logs && a != c && NothingNew(v, c, log) && AllIn(h, v.decided)
    ensures SerialInv(WithReplica(v, a, log, value, h), c)
  {
    var w := WithReplica(v, a, log, value, h);
    assert forall i :: Active(w, i) <==> Active(v, i);
    UnlinearizedSame(v, w, c);
    forall b | b in w.logs ensures SlotsOk(w, c, w.logs[b]) { assert SlotsOk(v, c, if b == a then log else v.logs[b]); }
    forall i | i in w.runs ensures RunSerial(w, c, i, w.runs[i]) { ReplacedRun(v, c, a, log, value, h, i); }
    forall b | b in w.hist ensures AllIn(w.hist[b], w.decided) {
      assert AllIn(if b == a then h else v.hist[b], v.decided);
    }
  }

  lemma CrashSerial(v: View, c: Addr, a: Addr)
    requires WfView(v) && SerialInv(v, c) && a in v.logs && a != c
    ensures SerialInv(VRestart(v, a), c)
  {
    ReplacedSerial(v, c, a, map[], None, []);
  }

  lemma RecoverySerial(v: View, c: Addr, a: Addr, source: Addr)
    requires WfView(v) && SerialInv(v, c) && a in v.logs && source in v.logs && a != c
    ensures SerialInv(VRecover(v, a, source), c)
  {
    var w := VRecover(v, a, source);
    assert SlotsOk(v, c, v.logs[a]) && SlotsOk(v, c, v.logs[source]);
    assert AllIn(v.hist[a], v.decided) && AllIn(v.hist[source], v.decided);
    ReplacedSerial(v, c, a, w.logs[a], w.vals[a], w.hist[a]);
  }

  lemma HandoverSerial(v: View, c: Addr, to: Addr)
    requires WfView(v) && SerialInv(v, c) && NoneActive(v) && InSync(v, c, to)
    ensures SerialInv(v, to)
  {
    assert Top(v, c) <= Top(v, to);
    assert !Unlinearized(v, c) && !Unlinearized(v, to);
    forall a | a in v.logs ensures SlotsOk(v, to, v.logs[a]) {}
    forall i | i in v.runs ensures RunSerial(v, to, i, v.runs[i]) {
      assert RunSerial(v, c, i, v.runs[i]) && !Active(v, i);
    }
  }

  // ---- The invariant -------------------------------------------------------

  /** On every key a rejoined replica has the coordinator's log, value and history. */
  lemma RejoinCopies(s: System, a: Addr, c: Addr, key: Key)
    requires Wf(s) && a in s.stubs && c in s.stubs && a != c
    ensures var v := ViewOf(s, key);
      ViewOf(RecoverReplica(RestartReplica(s, a), a, c), key) == WithReplica(v, a, v.logs[c], v.vals[c], v.hist[c])
  {
    RestartView(s, a, key);
    RecoverView(RestartReplica(s, a), a, c, key);
    CopyView(ViewOf(s, key), a, c);
  }

  lemma CopyView(v: View, a: Addr, c: Addr)
    requires WfView(v) && a in v.logs && c in v.logs && a != c
    ensures VRecover(VRestart(v, a), a, c) == WithReplica(v, a, v.logs[c], v.vals[c], v.hist[c])
  {
    assert map[] + v.logs[c] == v.logs[c];
    UpdateTwice(v.logs, a, map[], v.logs[c]);
    UpdateTwice(v.vals, a, None, v.vals[c]);
    UpdateTwice(v.hist, a, [], v.hist[c]);
  }

  lemma CrashKey(s: System, a: Addr, c: Addr, key: Key)
    requires Wf(s) && a in s.stubs && c in s.stubs && a != c && KeyInv(ViewOf(s, key), key, c)
    ensures KeyInv(ViewOf(RestartReplica(s, a), key), key, c)
  {
    RestartView(s, a, key);
    InvStep(ViewOf(s, key), key, Restart(a));
    if key != COORDINATOR_KEY { CrashSerial(ViewOf(s, key), c, a); }
  }

  lemma RecoveryKey(s: System, a: Addr, source: Addr, c: Addr, key: Key)
    requires Wf(s) && a in s.stubs && source in s.stubs && c in s.stubs && a != c && KeyInv(ViewOf(s, key), key, c)
    ensures KeyInv(ViewOf(RecoverReplica(s, a, source), key), key, c)
  {
    RecoverView(s, a, source, key);
    InvStep(ViewOf(s, key), key, Recover(a, source));
    if key != COORDINATOR_KEY { RecoverySerial(ViewOf(s, key), c, a, source); }
  }

  lemma DoKey(cl: Cluster, e: Event, key: Key)
    requires Allowed(cl, Do(e)) && KeyInv(ViewOf(cl.sys, key), key, cl.coord)
    ensures KeyInv(ViewOf(Apply(cl.sys, e), key), key, cl.coord)
  {
    var v := ViewOf(cl.sys, key);
    ViewStep(cl.sys, e, key);
    if Concerns(cl.sys, e, key) {
      InvStep(v, key, e);
      if key != COORDINATOR_KEY { SerialStep(v, key, cl.coord, e); }
    }
  }

  lemma RestOnKey(s: System, key: Key)
    requires AtRest(s) && key != COORDINATOR_KEY
    ensures NoneActive(ViewOf(s, key))
  {}

  lemma NextInv(cl: Cluster, act: Action)
    requires ClusterInv(cl) && Allowed(cl, act)
    ensures ClusterInv(Next(cl, act))
  {
    forall key ensures KeyInv(ViewOf(Next(cl, act).sys, key), key, Next(cl, act).coord) {
      NextKey(cl, act, key);
    }
  }

  lemma NextKey(cl: Cluster, act: Action, key: Key)
    requires ClusterInv(cl) && Allowed(cl, act)
    ensures KeyInv(ViewOf(Next(cl, act).sys, key), key, Next(cl, act).coord)
  {
    assert KeyInv(ViewOf(cl.sys, key), key, cl.coord);
    match act
    case Do(e) => DoKey(cl, e, key);
    case Crash(a) => CrashKey(cl.sys, a, cl.coord, key);
    case Recovers(a, source) => RecoveryKey(cl.sys, a, source, cl.coord, key);
    case Rejoin(a) =>
      CrashKey(cl.sys, a, cl.coord, key);
      RecoveryKey(RestartReplica(cl.sys, a), a, cl.coord, cl.coord, key);
    case Handover(to) =>
      if key != COORDINATOR_KEY {
        RestOnKey(cl.sys, key);
        HandoverSerial(ViewOf(cl.sys, key), cl.coord, to);
      }
    case Get(_) =>
  }

  lemma InitClusterInv(stubs: set<Addr>, coord: Addr)
    requires coord in stubs
    ensures ClusterInv(InitCluster(stubs, coord))
  {
    var s := Init(stubs);
    forall key ensures KeyInv(ViewOf(s, key), key, coord) { InitInv(stubs, key); }
  }

  // ---- Behaviours ----------------------------------------------------------

  ghost predicate Runs(cl: Cluster, acts: seq<Action>)
    decreases |acts|
  {
    acts == [] || (Allowed(cl, acts[0]) && Runs(Next(cl, acts[0]), acts[1..]))
  }

  ghost function After(cl: Cluster, acts: seq<Action>): (cl': Cluster)
    requires WfCluster(cl) && Runs(cl, acts)
    ensures WfCluster(cl') && cl'.sys.stubs == cl.sys.stubs
    decreases |acts|
  {
    if acts == [] then cl else After(Next(cl, acts[0]), acts[1..])
  }

  lemma {:induction false} AfterInv(cl: Cluster, acts: seq<Action>)
    requires ClusterInv(cl) && Runs(cl, acts)
    ensures ClusterInv(After(cl, acts))
    decreases |acts|
  {
    if acts != [] {
      NextInv(cl, acts[0]);
      AfterInv(Next(cl, acts[0]), acts[1..]);
    }
  }
}
