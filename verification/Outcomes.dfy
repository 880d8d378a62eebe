/** What the operating assumptions give the users of one key: replicas that lag show a
    prefix of the writes, aborted writes vanish, and one Inform catches a replica up. */
module Outcomes {
  import opened Types
  import opened Handlers
  import opened System
  import opened KeyView
  import opened Safety
  import opened Recovery
  import opened Learner
  import opened Serial
  import opened Cluster

  function DecidedAt(cl: Cluster, key: Key): seq<Entry> { EntriesAt(cl.sys.decided, key) }

  // ---- Prefix consistency ---------------------------------------------------

  /** a shows the key as it was after its first n successful operations. */
  predicate ShowsPrefix(cl: Cluster, a: Addr, key: Key, n: nat) {
    a in cl.sys.replicas && n <= |DecidedAt(cl, key)| &&
    Lookup(cl.sys.replicas[a], key) == ValueAfter(DecidedAt(cl, key)[..n])
  }

  predicate ViewShows(v: View, a: Addr, n: nat) {
    a in v.vals && n <= |v.decided| && v.vals[a] == ValueAfter(v.decided[..n])
  }

  lemma InformShowsAll(v: View, key: Key, c: Addr, id: RunId, a: Addr)
    requires WfView(v) && SerialInv(v, c) && key != COORDINATOR_KEY && ShapeOf(v, key, id)
    requires v.runs[id].phase == Informing && a in v.logs
    ensures Executes(v.logs[a], v.runs[id].round)
    ensures VInform(v, id, a).vals[a] == ValueAfter(v.decided)
  {
    var q, d := v.runs[id], v.decided;
    assert RunSerial(v, c, id, q) && Active(v, id) && SlotsOk(v, c, v.logs[a]);
    ValueAfterAppend(d[..|d| - 1], d[|d| - 1]);
    assert d == d[..|d| - 1] + [d[|d| - 1]];
    LatestBound(v, c, id, v.logs[a]);
  }

  /** No replica has a later round than the run in flight. */
  lemma LatestBound(v: View, c: Addr, id: RunId, log: Log)
    requires SerialInv(v, c) && Active(v, id) && SlotsOk(v, c, log) && Top(v, c) == v.runs[id].round
    ensures LatestRound(log) <= v.runs[id].round
  {
    assert forall i :: Active(v, i) ==> i == id;
  }

  lemma InformShows(v: View, key: Key, c: Addr, id: RunId, a: Addr)
    requires WfView(v) && SerialInv(v, c) && key != COORDINATOR_KEY && ShapeOf(v, key, id)
    requires v.runs[id].phase == Informing && a in v.logs
    ensures ViewShows(VInform(v, id, a), a, |v.decided|)
  {
    InformShowsAll(v, key, c, id, a);
    assert v.decided[..|v.decided|] == v.decided;
  }

  lemma OtherDeliverShows(v: View, id: RunId, rpc: Rpc, b: Addr, fail: bool, a: Addr, n: nat)
    requires WfView(v) && id in v.runs && b in v.logs && ViewShows(v, a, n) && (rpc != InformRpc || a != b)
    ensures ViewShows(VDeliver(v, id, rpc, b, fail), a, n)
  {}

  lemma DeliverShows(v: View, key: Key, c: Addr, id: RunId, rpc: Rpc, b: Addr, fail: bool, a: Addr, n: nat)
    returns (m: nat)
    requires WfView(v) && SerialInv(v, c) && key != COORDINATOR_KEY && ShapeOf(v, key, id)
    requires Sent(rpc, v.runs[id].phase) && b in v.logs && ViewShows(v, a, n)
    ensures m >= n && ViewShows(VDeliver(v, id, rpc, b, fail), a, m)
  {
    if rpc == InformRpc && a == b {
      InformShows(v, key, c, id, a);
      m := |v.decided|;
    } else {
      OtherDeliverShows(v, id, rpc, b, fail, a, n);
      m := n;
    }
  }

  lemma CallShows(v: View, key: Key, c: Addr, id: RunId, b: Addr, o: Outcome, a: Addr, n: nat) returns (m: nat)
    requires WfView(v) && SerialInv(v, c) && key != COORDINATOR_KEY && ShapeOf(v, key, id)
    requires VEnabled(v, Call(id, b, o)) && ViewShows(v, a, n)
    ensures m >= n && ViewShows(VCall(v, id, b, o), a, m)
  {
    m := n;
    if o.Handled? { m := DeliverShows(v, key, c, id, RpcOf(v.runs[id].phase), b, o.fail, a, n); }
  }

  lemma ShapeFromInv(v: View, key: Key, id: RunId)
    requires Inv(v, key) && id in v.runs
    ensures ShapeOf(v, key, id)
  {
    assert RunOk(v, key, v.runs[id]);
  }

  lemma ShowsStays(v: View, v': View, a: Addr, n: nat)
    requires ViewShows(v, a, n) && a in v'.vals && v'.vals[a] == v.vals[a] && v.decided <= v'.decided
    ensures ViewShows(v', a, n)
  {
    assert v'.decided[..n] == v.decided[..n];
  }

  lemma QuietShows(v: View, e: Event, a: Addr, n: nat)
    requires WfView(v) && VEnabled(v, e) && (e.Start? || e.Ping? || e.Advance?) && ViewShows(v, a, n)
    ensures ViewShows(VApply(v, e), a, n)
  {
    ShowsStays(v, VApply(v, e), a, n);
  }

  lemma StepShows(v: View, key: Key, c: Addr, e: Event, a: Addr, n: nat) returns (m: nat)
    requires Inv(v, key) && SerialInv(v, c) && key != COORDINATOR_KEY && ViewShows(v, a, n)
    requires VEnabled(v, e) && Guarded(v, c, e)
    ensures m >= n && ViewShows(VApply(v, e), a, m)
  {
    if e.Call? {
      assert ShapeOf(v, key, e.id) by { ShapeFromInv(v, key, e.id); }
      m := CallShows(v, key, c, e.id, e.a, e.outcome, a, n);
    } else if e.Late? {
      assert ShapeOf(v, key, e.id) by { ShapeFromInv(v, key, e.id); }
      m := DeliverShows(v, key, c, e.id, e.rpc, e.a, e.fail, a, n);
    } else {
      QuietShows(v, e, a, n);
      m := n;
    }
  }

  lemma ViewShowsPrefix(cl: Cluster, a: Addr, key: Key, n: nat)
    requires WfCluster(cl)
    ensures ShowsPrefix(cl, a, key, n) <==> ViewShows(ViewOf(cl.sys, key), a, n)
  {}

  lemma PrefixDo(cl: Cluster, e: Event, a: Addr, key: Key, n: nat) returns (m: nat)
    requires Allowed(cl, Do(e)) && key != COORDINATOR_KEY && KeyInv(ViewOf(cl.sys, key), key, cl.coord)
    requires ViewShows(ViewOf(cl.sys, key), a, n)
    ensures m >= n && ViewShows(ViewOf(Apply(cl.sys, e), key), a, m)
  {
    m := n;
    ViewStep(cl.sys, e, key);
    if Concerns(cl.sys, e, key) { m := StepShows(ViewOf(cl.sys, key), key, cl.coord, e, a, n); }
  }

  /** The action takes nothing from a: it neither crashes nor recovers, unless in one step
      and at rest. */
  ghost predicate Steady(cl: Cluster, act: Action, a: Addr) {
    match act
    case Crash(b) => b != a
    case Recovers(b, _) => b != a
    case Rejoin(b) => b == a ==> AtRest(cl.sys)
    case _ => true
  }

  lemma ReplacedShows(v: View, b: Addr, log: Log, value: Option<Value>, h: seq<Entry>, a: Addr, n: nat)
    requires ViewShows(v, a, n) && a != b
    ensures ViewShows(WithReplica(v, b, log, value, h), a, n)
  {}

  lemma PrefixCrash(cl: Cluster, b: Addr, a: Addr, key: Key, n: nat)
    requires WfCluster(cl) && Allowed(cl, Crash(b)) && ViewShows(ViewOf(cl.sys, key), a, n) && a != b
    ensures ViewShows(ViewOf(Next(cl, Crash(b)).sys, key), a, n)
  {
    RestartView(cl.sys, b, key);
    ReplacedShows(ViewOf(cl.sys, key), b, map[], None, [], a, n);
  }

  lemma PrefixRecovery(cl: Cluster, b: Addr, source: Addr, a: Addr, key: Key, n: nat)
    requires WfCluster(cl) && Allowed(cl, Recovers(b, source)) && ViewShows(ViewOf(cl.sys, key), a, n) && a != b
    ensures ViewShows(ViewOf(Next(cl, Recovers(b, source)).sys, key), a, n)
  {
    RecoverView(cl.sys, b, source, key);
    var w := VRecover(ViewOf(cl.sys, key), b, source);
    ReplacedShows(ViewOf(cl.sys, key), b, w.logs[b], w.vals[b], w.hist[b], a, n);
  }

  /** The view after a rejoin. */
  lemma RejoinedView(cl: Cluster, b: Addr, key: Key)
    requires WfCluster(cl) && Allowed(cl, Rejoin(b))
    ensures var v := ViewOf(cl.sys, key);
      ViewOf(Next(cl, Rejoin(b)).sys, key) == WithReplica(v, b, v.logs[cl.coord], v.vals[cl.coord], v.hist[cl.coord])
  {
    RejoinCopies(cl.sys, b, cl.coord, key);
  }

  lemma CurrentShows(v: View, a: Addr, c: Addr)
    requires WfView(v) && a in v.logs && c in v.logs && v.vals[c] == ValueAfter(v.decided)
    ensures ViewShows(WithReplica(v, a, v.logs[c], v.vals[c], v.hist[c]), a, |v.decided|)
  {
    assert v.decided[..|v.decided|] == v.decided;
  }

  lemma PrefixRejoin(cl: Cluster, b: Addr, a: Addr, key: Key, n: nat) returns (m: nat)
    requires ClusterInv(cl) && Allowed(cl, Rejoin(b)) && key != COORDINATOR_KEY && (a == b ==> AtRest(cl.sys))
    requires ViewShows(ViewOf(cl.sys, key), a, n)
    ensures m >= n && ViewShows(ViewOf(Next(cl, Rejoin(b)).sys, key), a, m)
  {
    var v := ViewOf(cl.sys, key);
    RejoinedView(cl, b, key);
    m := n;
    if a == b {
      assert v.vals[cl.coord] == ValueAfter(v.decided) by { CurrentAtRest(cl, key); }
      m := |v.decided|;
      CurrentShows(v, b, cl.coord);
    } else {
      ReplacedShows(v, b, v.logs[cl.coord], v.vals[cl.coord], v.hist[cl.coord], a, n);
    }
  }

  lemma PrefixStep(cl: Cluster, act: Action, a: Addr, key: Key, n: nat) returns (m: nat)
    requires ClusterInv(cl) && Allowed(cl, act) && Steady(cl, act, a)
    requires key != COORDINATOR_KEY && ShowsPrefix(cl, a, key, n)
    ensures m >= n && ShowsPrefix(Next(cl, act), a, key, m)
  {
    m := n;
    ViewShowsPrefix(cl, a, key, n);
    match act {
      case Do(e) =>
        assert KeyInv(ViewOf(cl.sys, key), key, cl.coord);
        m := PrefixDo(cl, e, a, key, n);
      case Crash(b) => PrefixCrash(cl, b, a, key, n);
      case Recovers(b, source) => PrefixRecovery(cl, b, source, a, key, n);
      case Rejoin(b) => m := PrefixRejoin(cl, b, a, key, n);
      case _ =>
    }
    ViewShowsPrefix(Next(cl, act), a, key, m);
  }

  // ---- ... and some prefix always --------------------------------------------

  /** Every replica shows some prefix of the key's successful operations. */
  ghost predicate AllShow(cl: Cluster, key: Key) {
    forall a :: a in cl.sys.stubs ==> exists n: nat :: ShowsPrefix(cl, a, key, n)
  }

  lemma LostShows(v: View, a: Addr)
    requires a in v.vals
    ensures ViewShows(VRestart(v, a), a, 0)
  {}

  /** What a recovered replica shows is what it or its source showed before. */
  lemma RecoveredShows(v: View, a: Addr, source: Addr, n: nat, m: nat)
    requires WfView(v) && a in v.logs && source in v.logs && ViewShows(v, a, n) && ViewShows(v, source, m)
    ensures ViewShows(VRecover(v, a, source), a, if v.vals[source].Some? then m else n)
  {}

  lemma CopiedShows(v: View, a: Addr, c: Addr, m: nat)
    requires WfView(v) && a in v.logs && c in v.logs && ViewShows(v, c, m)
    ensures ViewShows(WithReplica(v, a, v.logs[c], v.vals[c], v.hist[c]), a, m)
  {}

  lemma RecoverStep(cl: Cluster, act: Action, a: Addr, key: Key, n: nat) returns (m: nat)
    requires ClusterInv(cl) && act.Recovers? && Allowed(cl, act) && act.a == a && AllShow(cl, key)
    requires ViewShows(ViewOf(cl.sys, key), a, n)
    ensures ViewShows(ViewOf(Next(cl, act).sys, key), a, m)
  {
    var v := ViewOf(cl.sys, key);
    var k: nat :| ShowsPrefix(cl, act.source, key, k);
    ViewShowsPrefix(cl, act.source, key, k);
    RecoverView(cl.sys, a, act.source, key);
    RecoveredShows(v, a, act.source, n, k);
    m := if v.vals[act.source].Some? then k else n;
  }

  lemma RejoinStep(cl: Cluster, a: Addr, key: Key) returns (m: nat)
    requires ClusterInv(cl) && Allowed(cl, Rejoin(a)) && AllShow(cl, key)
    ensures ViewShows(ViewOf(Next(cl, Rejoin(a)).sys, key), a, m)
  {
    m :| ShowsPrefix(cl, cl.coord, key, m);
    ViewShowsPrefix(cl, cl.coord, key, m);
    RejoinedView(cl, a, key);
    CopiedShows(ViewOf(cl.sys, key), a, cl.coord, m);
  }

  lemma UnsteadyStep(cl: Cluster, act: Action, a: Addr, key: Key) returns (m: nat)
    requires ClusterInv(cl) && Allowed(cl, act) && !Steady(cl, act, a) && a in cl.sys.stubs && AllShow(cl, key)
    ensures ViewShows(ViewOf(Next(cl, act).sys, key), a, m)
  {
    var v := ViewOf(cl.sys, key);
    var n: nat :| ShowsPrefix(cl, a, key, n);
    ViewShowsPrefix(cl, a, key, n);
    if act.Crash? {
      RestartView(cl.sys, a, key);
      LostShows(v, a);
      m := 0;
    } else if act.Recovers? {
      m := RecoverStep(cl, act, a, key, n);
    } else {
      m := RejoinStep(cl, a, key);
    }
  }

  lemma AllShowStep(cl: Cluster, act: Action, key: Key)
    requires ClusterInv(cl) && Allowed(cl, act) && key != COORDINATOR_KEY && AllShow(cl, key)
    ensures AllShow(Next(cl, act), key)
  {
    forall a | a in cl.sys.stubs ensures exists m: nat :: ShowsPrefix(Next(cl, act), a, key, m) {
      if Steady(cl, act, a) {
        var n: nat :| ShowsPrefix(cl, a, key, n);
        var m := PrefixStep(cl, act, a, key, n);
      } else {
        var m := UnsteadyStep(cl, act, a, key);
        ViewShowsPrefix(Next(cl, act), a, key, m);
      }
    }
  }

  lemma {:induction false} AllShowAlways(cl: Cluster, acts: seq<Action>, key: Key)
    requires ClusterInv(cl) && Runs(cl, acts) && key != COORDINATOR_KEY && AllShow(cl, key)
    ensures AllShow(After(cl, acts), key)
    decreases |acts|
  {
    if acts != [] {
      AllShowStep(cl, acts[0], key);
      NextInv(cl, acts[0]);
      AllShowAlways(Next(cl, acts[0]), acts[1..], key);
    }
  }

  /** In every behaviour, with crashes and recoveries at any time, each replica's value of a
      key is what some number of the key's first successful operations give. */
  lemma EveryReplicaShowsAPrefix(stubs: set<Addr>, coord: Addr, acts: seq<Action>, key: Key)
    requires coord in stubs && key != COORDINATOR_KEY && Runs(InitCluster(stubs, coord), acts)
    ensures AllShow(After(InitCluster(stubs, coord), acts), key)
  {
    InitClusterInv(stubs, coord);
    forall a | a in stubs ensures exists n: nat :: ShowsPrefix(InitCluster(stubs, coord), a, key, n) {
      assert ShowsPrefix(InitCluster(stubs, coord), a, key, 0);
    }
    AllShowAlways(InitCluster(stubs, coord), acts, key);
  }

  /** At rest the coordinator shows every successful operation. */
  lemma CurrentAtRest(cl: Cluster, key: Key)
    requires ClusterInv(cl) && AtRest(cl.sys) && key != COORDINATOR_KEY
    ensures Lookup(cl.sys.replicas[cl.coord], key) == ValueAfter(DecidedAt(cl, key))
  {
    var v := ViewOf(cl.sys, key);
    assert KeyInv(v, key, cl.coord);
    RestOnKey(cl.sys, key);
    assert !Unlinearized(v, cl.coord);
  }

  lemma {:induction false} RunsPrefix(cl: Cluster, acts: seq<Action>, i: nat)
    requires WfCluster(cl) && Runs(cl, acts) && i <= |acts|
    ensures Runs(cl, acts[..i])
    decreases i
  {
    if i > 0 {
      RunsPrefix(Next(cl, acts[0]), acts[1..], i - 1);
      assert acts[..i][1..] == acts[1..][..i - 1];
    }
  }

  /** The state after the first i actions. */
  ghost function StateAt(cl: Cluster, acts: seq<Action>, i: nat): Cluster
    requires WfCluster(cl) && Runs(cl, acts) && i <= |acts|
  {
    RunsPrefix(cl, acts, i);
    After(cl, acts[..i])
  }

  lemma StateAtTail(cl: Cluster, acts: seq<Action>, i: nat)
    requires WfCluster(cl) && Runs(cl, acts) && 0 < i <= |acts|
    ensures StateAt(cl, acts, i) == StateAt(Next(cl, acts[0]), acts[1..], i - 1)
  {
    RunsPrefix(cl, acts, i);
    AfterFirst(cl, acts[..i], acts[0], acts[1..][..i - 1]);
  }

  lemma AfterFirst(cl: Cluster, acts: seq<Action>, act: Action, rest: seq<Action>)
    requires WfCluster(cl) && Runs(cl, acts) && acts == [act] + rest
    ensures Allowed(cl, act) && Runs(Next(cl, act), rest) && After(cl, acts) == After(Next(cl, act), rest)
  {
    assert acts[0] == act && acts[1..] == rest;
  }

  /** Nothing is taken from a along the behaviour. */
  ghost predicate SteadyRun(cl: Cluster, acts: seq<Action>, a: Addr)
    requires WfCluster(cl) && Runs(cl, acts)
    decreases |acts|
  {
    acts == [] || (Steady(cl, acts[0], a) && SteadyRun(Next(cl, acts[0]), acts[1..], a))
  }

  lemma {:induction false} PrefixRun(cl: Cluster, acts: seq<Action>, a: Addr, key: Key, n: nat)
    returns (ns: seq<nat>)
    requires ClusterInv(cl) && Runs(cl, acts) && SteadyRun(cl, acts, a)
    requires key != COORDINATOR_KEY && ShowsPrefix(cl, a, key, n)
    ensures |ns| == |acts| + 1 && ns[0] == n
    ensures forall i, j | 0 <= i < j < |ns| :: ns[i] <= ns[j]
    ensures forall i | 0 <= i <= |acts| :: ShowsPrefix(StateAt(cl, acts, i), a, key, ns[i])
    decreases |acts|
  {
    if acts == [] {
      ns := [n];
    } else {
      var m := PrefixStep(cl, acts[0], a, key, n);
      NextInv(cl, acts[0]);
      var rest := PrefixRun(Next(cl, acts[0]), acts[1..], a, key, m);
      ns := [n] + rest;
      forall i | 0 <= i <= |acts| ensures ShowsPrefix(StateAt(cl, acts, i), a, key, ns[i]) {
        if i > 0 { StateAtTail(cl, acts, i); }
      }
    }
  }

  /** From every reachable state and along every behaviour that takes nothing from a, its
      value of a key is what the key's first n successful operations give, for an n that
      never decreases. */
  lemma PrefixConsistency(stubs: set<Addr>, coord: Addr, before: seq<Action>, acts: seq<Action>, a: Addr, key: Key)
    returns (ns: seq<nat>)
    requires coord in stubs && a in stubs && key != COORDINATOR_KEY && Runs(InitCluster(stubs, coord), before)
    requires var cl := After(InitCluster(stubs, coord), before); Runs(cl, acts) && SteadyRun(cl, acts, a)
    ensures |ns| == |acts| + 1
    ensures forall i, j | 0 <= i < j < |ns| :: ns[i] <= ns[j]
    ensures var cl := After(InitCluster(stubs, coord), before);
      forall i | 0 <= i <= |acts| :: ShowsPrefix(StateAt(cl, acts, i), a, key, ns[i])
  {
    var cl := After(InitCluster(stubs, coord), before);
    EveryReplicaShowsAPrefix(stubs, coord, before, key);
    var n: nat :| ShowsPrefix(cl, a, key, n);
    ClusterReachableInv(stubs, coord, before);
    ns := PrefixRun(cl, acts, a, key, n);
  }

  lemma ClusterReachableInv(stubs: set<Addr>, coord: Addr, acts: seq<Action>)
    requires coord in stubs && Runs(InitCluster(stubs, coord), acts)
    ensures ClusterInv(After(InitCluster(stubs, coord), acts))
  {
    InitClusterInv(stubs, coord);
    AfterInv(InitCluster(stubs, coord), acts);
  }

  lemma ViewDecisions(v: View, key: Key, c: Addr, id: RunId)
    requires Inv(v, key) && SerialInv(v, c) && id in v.runs
    ensures Decided(v.runs[id]) <==> Entry(id, v.runs[id].round, v.runs[id].op) in v.decided
  {
    assert RunSerial(v, c, id, v.runs[id]);
    var e := Entry(id, v.runs[id].round, v.runs[id].op);
    if e in v.decided {
      var i :| 0 <= i < |v.decided| && v.decided[i] == e;
      assert EntryOk(v, v.decided[i]);
    }
  }

  /** The successful operations of a key are exactly those of the runs that return OK,
      in the order of their rounds. */
  lemma DecisionsAreSuccesses(stubs: set<Addr>, coord: Addr, acts: seq<Action>, key: Key, id: RunId)
    requires coord in stubs && key != COORDINATOR_KEY && Runs(InitCluster(stubs, coord), acts)
    requires var runs := After(InitCluster(stubs, coord), acts).sys.runs; id in runs && runs[id].key == key
    ensures var cl := After(InitCluster(stubs, coord), acts);
      var q := cl.sys.runs[id];
      (Decided(q) <==> Entry(id, q.round, q.op) in DecidedAt(cl, key)) && StrictlyInOrder(DecidedAt(cl, key))
  {
    var cl := After(InitCluster(stubs, coord), acts);
    InitClusterInv(stubs, coord);
    AfterInv(InitCluster(stubs, coord), acts);
    assert KeyInv(ViewOf(cl.sys, key), key, cl.coord);
    ViewDecisions(ViewOf(cl.sys, key), key, cl.coord, id);
  }

  // ---- Aborted runs ----------------------------------------------------------

  /** A run that failed its promise or acceptance majority. */
  predicate Failed(q: Run) { q.phase == Done(false) && q.live != {} }

  predicate NotIn(h: seq<Entry>, id: RunId) { forall i | 0 <= i < |h| :: h[i].run != id }

  lemma AbortedOnKey(v: View, key: Key, c: Addr, id: RunId)
    requires Inv(v, key) && SerialInv(v, c) && id in v.runs && Failed(v.runs[id])
    ensures NotIn(v.decided, id) && (forall a :: a in v.hist ==> NotIn(v.hist[a], id))
    ensures forall j :: j in v.runs && j != id && v.runs[j].live != {} ==> v.runs[j].round != v.runs[id].round
    ensures forall j :: j in v.runs && Proposed(v.runs[j]) ==> v.runs[j].proposal == v.runs[j].op
  {
    forall i | 0 <= i < |v.decided| ensures v.decided[i].run != id { assert EntryOk(v, v.decided[i]); }
    forall a | a in v.hist ensures NotIn(v.hist[a], id) {
      assert EntriesOk(v, v.hist[a]);
      forall i | 0 <= i < |v.hist[a]| ensures v.hist[a][i].run != id { assert EntryOk(v, v.hist[a][i]); }
    }
    forall j | j in v.runs && Proposed(v.runs[j]) ensures v.runs[j].proposal == v.runs[j].op {
      assert RunSerial(v, c, j, v.runs[j]);
    }
  }

  predicate NeverTakesEffect(s: System, id: RunId)
    requires Wf(s) && id in s.runs
  {
    var q := s.runs[id];
    NotIn(EntriesAt(s.decided, q.key), id) &&
    (forall a :: a in s.stubs ==> NotIn(EntriesAt(s.hist[a], q.key), id)) &&
    (forall j :: j in s.runs && j != id && s.runs[j].key == q.key && s.runs[j].live != {} ==>
      s.runs[j].round != q.round) &&
    (forall j :: j in s.runs && s.runs[j].key == q.key && Proposed(s.runs[j]) ==> s.runs[j].proposal == s.runs[j].op)
  }

  lemma AbortedInState(cl: Cluster, id: RunId)
    requires ClusterInv(cl) && id in cl.sys.runs && Client(cl.sys.runs[id]) && Failed(cl.sys.runs[id])
    ensures NeverTakesEffect(cl.sys, id)
  {
    var s, key := cl.sys, cl.sys.runs[id].key;
    var v := ViewOf(s, key);
    assert KeyInv(v, key, cl.coord);
    AbortedOnKey(v, key, cl.coord, id);
    assert forall j :: j in s.runs && s.runs[j].key == key ==> j in v.runs && v.runs[j] == s.runs[j];
    forall a | a in s.stubs ensures NotIn(EntriesAt(s.hist[a], key), id) { assert NotIn(v.hist[a], id); }
  }

  lemma DoneStays(cl: Cluster, act: Action, id: RunId)
    requires Allowed(cl, act) && id in cl.sys.runs && !InFlight(cl.sys.runs[id])
    ensures id in Next(cl, act).sys.runs && Next(cl, act).sys.runs[id] == cl.sys.runs[id]
  {
    if act.Do? { DoneStaysIn(cl.sys, act.e, id); }
  }

  lemma DoneStaysIn(s: System, e: Event, id: RunId)
    requires Wf(s) && Enabled(s, e) && id in s.runs && !InFlight(s.runs[id])
    ensures id in Apply(s, e).runs && Apply(s, e).runs[id] == s.runs[id]
  {}

  /** A client run that fails its quorum or consensus never takes effect: from then on,
      along every behaviour, no replica has executed it, no decision comes from it, no
      other run uses its round, and every proposal on the key is its own run's, so the
      operation left in some acceptors' logs is never adopted. */
  lemma {:induction false} AbortedNeverTakesEffect(cl: Cluster, acts: seq<Action>, id: RunId)
    requires ClusterInv(cl) && Runs(cl, acts)
    requires id in cl.sys.runs && Client(cl.sys.runs[id]) && Failed(cl.sys.runs[id])
    ensures id in After(cl, acts).sys.runs && After(cl, acts).sys.runs[id] == cl.sys.runs[id]
    ensures NeverTakesEffect(After(cl, acts).sys, id)
    decreases |acts|
  {
    if acts == [] {
      AbortedInState(cl, id);
    } else {
      DoneStays(cl, acts[0], id);
      NextInv(cl, acts[0]);
      AbortedNeverTakesEffect(Next(cl, acts[0]), acts[1..], id);
    }
  }

  lemma DeliverKeepsData(s: System, id: RunId, rpc: Rpc, b: Addr, fail: bool, a: Addr)
    requires Wf(s) && id in s.runs && b in s.stubs && a in s.stubs && rpc != InformRpc
    ensures Deliver(s, id, rpc, b, fail).replicas[a].data == s.replicas[a].data
    ensures Deliver(s, id, rpc, b, fail).replicas[a].coordinator == s.replicas[a].coordinator
  {}

  /** Only an Inform changes a data map: a run that never informs changes none. */
  lemma OnlyInformChangesData(s: System, e: Event, a: Addr)
    requires Wf(s) && Enabled(s, e) && RunEvent(e) && a in s.stubs
    requires e.Call? ==> s.runs[e.id].phase != Informing
    requires e.Late? ==> e.rpc != InformRpc
    ensures Apply(s, e).replicas[a].data == s.replicas[a].data
    ensures Apply(s, e).replicas[a].coordinator == s.replicas[a].coordinator
  {
    match e
    case Call(id, b, o) => if o.Handled? { DeliverKeepsData(s, id, RpcOf(s.runs[id].phase), b, o.fail, a); }
    case Late(id, b, rpc, fail) => DeliverKeepsData(s, id, rpc, b, fail, a);
    case _ =>
  }

  // ---- Catching up -----------------------------------------------------------

  lemma ViewResyncs(v: View, key: Key, c: Addr, id: RunId, a: Addr)
    requires WfView(v) && SerialInv(v, c) && key != COORDINATOR_KEY && ShapeOf(v, key, id)
    requires v.runs[id].phase == Informing && a in v.logs
    ensures var v' := VInform(v, id, a);
      LatestRound(v'.logs[a]) == v.runs[id].round && v'.vals[a] == ValueAfter(v.decided) &&
      (a == c || c !in v.runs[id].todo ==> InSync(v', c, a))
  {
    InformShowsAll(v, key, c, id, a);
    InformTops(v, c, id, a);
    if a != c && c !in v.runs[id].todo {
      assert Active(v, id);
      LinearizedUntilInform(v, c, id);
    }
  }

  lemma ViewRecoveryResyncsIff(v: View, c: Addr, a: Addr)
    requires WfView(v) && SerialInv(v, c) && NoneActive(v) && a in v.logs && a != c
    ensures InSync(VRecover(v, a, c), c, a) <==> (v.vals[c].None? ==> v.vals[a].None?)
  {
    var w := VRecover(v, a, c);
    LatestOfUnion(v.logs[a], v.logs[c]);
    forall b | b in v.logs ensures forall r :: r in v.logs[b] ==> r <= Top(v, c) {
      assert SlotsOk(v, c, v.logs[b]);
      NoSlotAbove(v, c, v.logs[b]);
    }
    assert LatestRound(w.logs[a]) == Top(v, c);
  }

  /** Recovery from the coordinator, at rest, puts a replica that may have served calls
      before in sync for a key if and only if it stores nothing the coordinator has not:
      recovery does not delete. */
  lemma RecoveryResyncsIff(cl: Cluster, a: Addr, key: Key)
    requires ClusterInv(cl) && AtRest(cl.sys) && Allowed(cl, Recovers(a, cl.coord)) && key != COORDINATOR_KEY
    ensures InSync(ViewOf(Next(cl, Recovers(a, cl.coord)).sys, key), cl.coord, a) <==>
            (Lookup(cl.sys.replicas[cl.coord], key).None? ==> Lookup(cl.sys.replicas[a], key).None?)
  {
    var v := ViewOf(cl.sys, key);
    assert KeyInv(v, key, cl.coord);
    RestOnKey(cl.sys, key);
    RecoverView(cl.sys, a, cl.coord, key);
    ViewRecoveryResyncsIff(v, cl.coord, a);
  }

  /** One handled Inform of the current round, at any replica however stale, is executed
      and puts the replica in sync as soon as the coordinator has executed it too. */
  lemma InformResyncs(cl: Cluster, id: RunId, a: Addr)
    requires ClusterInv(cl) && id in cl.sys.runs && a in cl.sys.stubs
    requires Client(cl.sys.runs[id]) && cl.sys.runs[id].phase == Informing
    ensures var q := cl.sys.runs[id];
      var v' := ViewOf(DeliverInform(cl.sys, id, a), q.key);
      WfView(v') && a in v'.logs && LatestRound(v'.logs[a]) == q.round &&
      v'.vals[a] == ValueAfter(DecidedAt(cl, q.key)) &&
      (a == cl.coord || cl.coord !in q.todo ==> InSync(v', cl.coord, a))
  {
    var key := cl.sys.runs[id].key;
    var v := ViewOf(cl.sys, key);
    assert KeyInv(v, key, cl.coord) && RunOk(v, key, v.runs[id]);
    InformView(cl.sys, id, a, key);
    ViewResyncs(v, key, cl.coord, id, a);
  }

  lemma InformTops(v: View, c: Addr, id: RunId, a: Addr)
    requires WfView(v) && SerialInv(v, c) && id in v.runs && v.runs[id].phase == Informing && a in v.logs
    ensures var v' := VInform(v, id, a);
      LatestRound(v'.logs[a]) == v.runs[id].round &&
      forall b, r :: b in v'.logs && r in v'.logs[b] ==> r <= LatestRound(v'.logs[a])
  {
    var q := v.runs[id];
    assert RunSerial(v, c, id, q) && Active(v, id);
    forall b | b in v.logs ensures LatestRound(v.logs[b]) <= q.round {
      assert SlotsOk(v, c, v.logs[b]);
      LatestBound(v, c, id, v.logs[b]);
    }
  }
}
