/** Why the cluster's remaining assumptions are there: behaviours of the cluster from its
    initial state, up to one step that it does not allow. */
module ClusterCounterexamples {
  import opened Types
  import opened Handlers
  import opened StubsMap
  import opened System
  import opened KeyView
  import opened Commute
  import opened Solo
  import opened Tracing
  import opened Exact
  import opened Answered
  import opened Serial
  import opened Cluster
  import opened Undisturbed
  import opened Counterexamples
  import opened FromInit
  import opened Outcomes

  // ---- Whole runs as behaviours of the cluster ---------------------------------------

  predicate AllHandled(outcome: Addr -> Outcome, live: seq<Addr>) { forall a :: a in live ==> outcome(a).Handled? }

  /** Every live replica handles every call of the first n loops. */
  predicate Handling(o: Oracle, live: seq<Addr>, loops: nat) {
    forall n: nat :: 1 <= n <= loops ==> AllHandled(OutcomesOf(o, n), live)
  }

  predicate AllGuarded(es: seq<Event>, c: Addr) { forall i | 0 <= i < |es| :: AlwaysGuarded(es[i], c) }

  lemma {:induction false} CallsGuarded(id: RunId, live: seq<Addr>, outcome: Addr -> Outcome, c: Addr)
    requires AllHandled(outcome, live)
    ensures AllGuarded(Calls(id, live, outcome), c)
  {
    if live != [] { CallsGuarded(id, live[..|live| - 1], outcome, c); }
  }

  /** A run trace is its start and then guarded events. */
  lemma {:induction false} TraceGuarded(id: RunId, me: Addr, req: Request, live: seq<Addr>, o: Oracle,
                                       loops: nat, c: Addr)
    returns (rest: seq<Event>)
    requires c in live && Handling(o, live, loops)
    ensures RunTrace(id, me, req, live, o, loops) == [Start(id, me, req)] + rest && AllGuarded(rest, c)
  {
    if loops == 0 {
      rest := [Ping(id, Elements(live))];
    } else {
      var before := TraceGuarded(id, me, req, live, o, loops - 1, c);
      var calls := Calls(id, live, OutcomesOf(o, loops));
      CallsGuarded(id, live, OutcomesOf(o, loops), c);
      rest := (before + calls) + [Advance(id)];
      Associate([Start(id, me, req)], before, calls);
      Associate([Start(id, me, req)], before + calls, [Advance(id)]);
    }
  }

  /** At rest the coordinator may run any loops of a client run over live replicas that
      handle its calls, itself among them. */
  lemma DoesRun(cl: Cluster, id: RunId, req: Request, live: seq<Addr>, o: Oracle, loops: nat)
    requires WfCluster(cl) && AtRest(cl.sys) && req.key != COORDINATOR_KEY
    requires cl.coord in live && Handling(o, live, loops) && Valid(cl.sys, RunTrace(id, cl.coord, req, live, o, loops))
    ensures var es := RunTrace(id, cl.coord, req, live, o, loops);
      Runs(cl, Doing(es)) && After(cl, Doing(es)) == cl.(sys := Exec(cl.sys, es))
  {
    var rest := TraceGuarded(id, cl.coord, req, live, o, loops, cl.coord);
    ValidCons(cl.sys, Start(id, cl.coord, req), rest);
    forall k | k != COORDINATOR_KEY ensures NoneActive(ViewOf(cl.sys, k)) { RestOnKey(cl.sys, k); }
    DoesFirst(cl, Start(id, cl.coord, req), rest);
  }

  // ---- Handover to a replica with the right data and a lower round ---------------------

  /** Run 1 of c on live set {c}, whose acceptance is not reported. */
  function Aborting(c: Addr): seq<Event> { PromiseAlone(1, c) + [Call(1, c, LOST), Advance(1)] }

  /** c alone holds y, at round 1 of the key, left by its aborted run 1; no data anywhere. */
  ghost predicate LeftBehind(s: System, c: Addr, key: Key, y: Value) {
    AllInv(s) && c in s.stubs && s.runs.Keys == {1} && s.runs[1].key == key && Failed(s.runs[1]) &&
    s.runs[1].op == Op(Set, y) &&
    EntryAt(LogOf(s.replicas[c], key), 1).acceptedId > 0 &&
    EntryAt(LogOf(s.replicas[c], key), 1).accepted == Op(Set, y) && LatestRound(LogOf(s.replicas[c], key)) == 1 &&
    (forall a :: a in s.stubs ==> s.replicas[a].data == map[]) &&
    forall a :: a in s.stubs && a != c ==> LogOf(s.replicas[a], key) == map[]
  }

  lemma AbortingLeads(stubs: set<Addr>, s: System, c: Addr, key: Key, y: Value)
    requires Started(stubs, s, key, y) && c in stubs
    ensures Valid(s, Aborting(c))
    ensures var t := Exec(s, Aborting(c));
      OnlyAt(s, t, 1, c) && SameData(s, t, c) && Failed(t.runs[1]) &&
      SlotOf(t, 1, c) == PaxosLog(0, PROPOSE_ID, Op(Set, y))
  {
    ProposeAlone(s, 1, c);
    var t := Exec(s, PromiseAlone(1, c));
    AbortAlone(t, 1, c);
    var es := [Call(1, c, LOST), Advance(1)];
    ExecConcat(s, PromiseAlone(1, c), es);
    OnlyAtTrans(s, t, Exec(t, es), 1, c);
  }

  lemma AbortingIsOf(c: Addr, e: Event)
    requires RunEvent(e) && e.id == 1
    ensures EventsOf([e] + Aborting(c), {1}) && [e] + Aborting(c) != [] && AllGuarded(Aborting(c), c)
  {}

  /** Run alone from the initial state, a run at round 1 leaves no other round. */
  lemma OnlyRoundOne(stubs: set<Addr>, es: seq<Event>, a: Addr, key: Key)
    requires Valid(Init(stubs), es) && EventsOf(es, {1}) && es != [] && a in stubs
    requires var s := Exec(Init(stubs), es); 1 in s.runs && s.runs[1].key == key && s.runs[1].round == 1
    ensures forall r :: r in LogOf(Exec(Init(stubs), es).replicas[a], key) ==> r == 1
  {
    ReachableInv(stubs, []);
    RunContract(Init(stubs), es, 1);
    var s, m0 := Exec(Init(stubs), es), Init(stubs).replicas;
    assert ContractAt(m0, m0[a], s.replicas[a], stubs, s.runs[1], a);
    assert OtherRounds(LogOf(m0[a], key), LogOf(s.replicas[a], key), 1);
  }

  lemma LeavesBehind(stubs: set<Addr>, c: Addr, key: Key, y: Value)
    requires c in stubs && key != COORDINATOR_KEY
    ensures var es := [Start(1, c, Put(key, y))] + Aborting(c);
      Valid(Init(stubs), es) && LeftBehind(Exec(Init(stubs), es), c, key, y)
  {
    var e := Start(1, c, Put(key, y));
    FirstStart(stubs, c, key, y);
    var s := Apply(Init(stubs), e);
    AbortingLeads(stubs, s, c, key, y);
    var t := Exec(s, Aborting(c));
    LeadsOn(Init(stubs), [e], s, Aborting(c), t);
    AbortingIsOf(c, e);
    OnlyRoundOne(stubs, [e] + Aborting(c), c, key);
    ReachableInv(stubs, [e] + Aborting(c));
    LeftAt(stubs, s, t, c, key, y);
  }

  lemma LeftAt(stubs: set<Addr>, s: System, t: System, c: Addr, key: Key, y: Value)
    requires Started(stubs, s, key, y) && c in stubs && AllInv(t) && OnlyAt(s, t, 1, c) && SameData(s, t, c)
    requires Failed(t.runs[1]) && SlotOf(t, 1, c) == PaxosLog(0, PROPOSE_ID, Op(Set, y))
    requires forall r :: r in LogOf(t.replicas[c], key) ==> r == 1
    ensures LeftBehind(t, c, key, y)
  {
    LatestIs(LogOf(t.replicas[c], key), 1);
  }

  /** Pings reach x and y; every call is answered. */
  function Reaching(x: Addr, y: Addr): Oracle {
    Oracle(a => a == x || a == y, a => ANSWERED, a => ANSWERED, a => ANSWERED)
  }

  lemma ReachingLive(stubs: seq<Addr>, x: Addr, y: Addr)
    requires x in stubs && y in stubs
    ensures var o := Reaching(x, y); var live := LiveOf(stubs, o.ping);
      Elements(live) == {x, y} && Smooth(stubs, o) && Handling(o, live, 3) && AllAnswered(o.inform, live)
  {
    assert x in LiveOf(stubs, Reaching(x, y).ping);
  }

  /** What a run over {x, y} does when everything is answered. */
  ghost predicate RanOver(m: map<Addr, Replica>, r: RunResult, x: Addr, y: Addr, req: Request, log: Log) {
    r.loops == 3 && r.run.phase == Done(true) && Contract(m, r.replicas, m.Keys, r.run) &&
    r.run.live == r.run.informed == {x, y} && RunOf(r.run, req, log) &&
    (NoneHeld(m, r.run) ==> r.run.proposal == r.run.op) && forall z :: OnlyHeld(m, r.run, z) ==> r.run.proposal == z
  }

  lemma RunsOver(s: System, id: RunId, me: Addr, req: Request, stubs: seq<Addr>, x: Addr, y: Addr)
    requires AllInv(s) && id !in s.runs && me in s.stubs && ProperRequest(req) && x in stubs && y in stubs
    requires Ascending(stubs) && Elements(stubs) == s.stubs
    ensures RanOver(s.replicas, RunPaxosOn(s.replicas, me, req, stubs, Reaching(x, y)), x, y, req,
                    LogOf(s.replicas[me], req.key))
  {
    var o := Reaching(x, y);
    ReachingLive(stubs, x, y);
    SmoothRunSucceeds(s, id, me, req, stubs, o);
    AllInformed(s.replicas, me, req, stubs, o);
  }

  lemma HeldLeftBehind(s: System, c: Addr, to: Addr, key: Key, y: Value, q: Run)
    requires LeftBehind(s, c, key, y) && to in s.stubs && q.live == {c, to} && q.key == key && q.round == 1
    ensures OnlyHeld(s.replicas, q, Op(Set, y)) && NoneAhead(s.replicas, q)
  {
    assert HeldAt(s.replicas, q, c);
  }

  /** Run 2 was asked to write z, returned OK, and a stores y. */
  predicate WroteOther(r: RunResult, a: Addr, key: Key, z: Value, y: Value) {
    r.loops == 3 && r.run.phase == Done(true) && r.run.op == Op(Set, z) &&
    a in r.replicas && Lookup(r.replicas[a], key) == Some(y)
  }

  lemma AdoptsLeftBehind(s: System, c: Addr, to: Addr, key: Key, y: Value, z: Value, r: RunResult)
    requires LeftBehind(s, c, key, y) && to in s.stubs && to != c
    requires RanOver(s.replicas, r, c, to, Put(key, z), LogOf(s.replicas[to], key))
    ensures WroteOther(r, to, key, z, y)
  {
    HeldLeftBehind(s, c, to, key, y, r.run);
    ContractMeansWritten(s.replicas, r.replicas, s.stubs, r.run, to, y);
  }

  /** At rest c has aborted y; `to` has c's data, but not its latest round of the key. */
  ghost predicate Stale(cl: Cluster, c: Addr, to: Addr, key: Key, y: Value) {
    WfCluster(cl) && cl.coord == c && AtRest(cl.sys) && LeftBehind(cl.sys, c, key, y) && to in cl.sys.stubs &&
    cl.sys.replicas[to].data == cl.sys.replicas[c].data && !InSync(ViewOf(cl.sys, key), c, to)
  }

  lemma StaleIsReachable(stubs: set<Addr>, c: Addr, to: Addr, key: Key, y: Value)
    requires c in stubs && to in stubs && c != to && key != COORDINATOR_KEY
    ensures var acts := Doing([Start(1, c, Put(key, y))] + Aborting(c));
      Runs(InitCluster(stubs, c), acts) && Stale(After(InitCluster(stubs, c), acts), c, to, key, y)
  {
    var cl, e := InitCluster(stubs, c), Start(1, c, Put(key, y));
    LeavesBehind(stubs, c, key, y);
    AbortingIsOf(c, e);
    StartIsAllowed(cl, 1, key, y);
    ValidCons(Init(stubs), e, Aborting(c));
    DoesFirst(cl, e, Aborting(c));
    LowerRound(Exec(Init(stubs), [e] + Aborting(c)), c, to, key, y);
  }

  lemma LowerRound(s: System, c: Addr, to: Addr, key: Key, y: Value)
    requires LeftBehind(s, c, key, y) && to in s.stubs && c != to
    ensures !InSync(ViewOf(s, key), c, to)
  {
    var v := ViewOf(s, key);
    assert 1 in v.logs[c] && LatestRound(v.logs[to]) == 0;
  }

  /** Run 2 was asked to write z, returned OK, and a read at a finds y. */
  predicate ReadsOther(s: System, a: Addr, key: Key, z: Value, y: Value) {
    2 in s.runs && s.runs[2].phase == Done(true) && s.runs[2].op == Op(Set, z) &&
    a in s.replicas && HandleGet(s.replicas[a], key) == GetResult.Found(y)
  }

  lemma WroteMeansReads(s: System, r: RunResult, a: Addr, key: Key, z: Value, y: Value)
    requires WroteOther(r, a, key, z, y) && 2 in s.runs && s.runs[2] == r.run && s.replicas == r.replicas
    requires key != COORDINATOR_KEY
    ensures ReadsOther(s, a, key, z, y)
  {}

  lemma StaleRun(s: System, c: Addr, to: Addr, key: Key, y: Value, z: Value, stubs: seq<Addr>)
    requires LeftBehind(s, c, key, y) && Wf(s) && to in s.stubs && to != c && key != COORDINATOR_KEY
    requires Ascending(stubs) && Elements(stubs) == s.stubs
    ensures var o := Reaching(c, to);
      var es := RunTrace(2, to, Put(key, z), LiveOf(stubs, o.ping), o, 3);
      Valid(s, es) && ReadsOther(Exec(s, es), to, key, z, y)
  {
    var o := Reaching(c, to);
    var r := RunPaxosOn(s.replicas, to, Put(key, z), stubs, o);
    assert RanOver(s.replicas, r, c, to, Put(key, z), LogOf(s.replicas[to], key)) by {
      RunsOver(s, 2, to, Put(key, z), stubs, c, to);
    }
    AdoptsLeftBehind(s, c, to, key, y, z, r);
    RunIsBehaviour(s, 2, to, Put(key, z), stubs, o);
    WroteMeansReads(Exec(s, RunTrace(2, to, Put(key, z), LiveOf(stubs, o.ping), o, 3)), r, to, key, z, y);
  }

  /** From there, a handover to `to` makes the next OK write take the effect of the aborted
      one: the write of z returns OK, and the new coordinator then reads y. */
  lemma StaleHandover(cl: Cluster, c: Addr, to: Addr, key: Key, y: Value, z: Value, stubs: seq<Addr>)
    requires Stale(cl, c, to, key, y) && to != c && key != COORDINATOR_KEY
    requires Ascending(stubs) && Elements(stubs) == cl.sys.stubs
    ensures var o := Reaching(c, to);
      var acts := Doing(RunTrace(2, to, Put(key, z), LiveOf(stubs, o.ping), o, 3));
      Runs(cl.(coord := to), acts) && ReadsOther(After(cl.(coord := to), acts).sys, to, key, z, y)
  {
    var o := Reaching(c, to);
    StaleRun(cl.sys, c, to, key, y, z, stubs);
    ReachingLive(stubs, c, to);
    DoesRun(cl.(coord := to), 2, Put(key, z), LiveOf(stubs, o.ping), o, 3);
  }

  // ---- Restart of the coordinator ------------------------------------------------------

  /** From every state at rest the coordinator can write and then, restarted, has lost it. */
  lemma CoordinatorRestartForgets(cl: Cluster, id: RunId, key: Key, x: Value)
    requires ClusterInv(cl) && AtRest(cl.sys) && id !in cl.sys.runs && key != COORDINATOR_KEY
    ensures var acts := Doing([Start(id, cl.coord, Put(key, x))] + RunAlone(id, cl.coord));
      Runs(cl, acts) &&
      var s := After(cl, acts).sys;
      id in s.runs && s.runs[id].phase == Done(true) && HandleGet(s.replicas[cl.coord], key) == GetResult.Found(x) &&
      HandleGet(RestartReplica(s, cl.coord).replicas[cl.coord], key) == NotFound
  {
    CoordinatorAloneCanWrite(cl, id, key, x);
  }

  // ---- In the middle of a run ------------------------------------------------------------

  /** Run 1 of c is about to inform {c, a} of its first write of x. */
  ghost predicate Midway(s: System, c: Addr, a: Addr, key: Key, x: Value) {
    Wf(s) && 1 in s.runs && c in s.stubs && a in s.stubs &&
    var q := s.runs[1];
    q.phase == Informing && q.live == q.todo == {c, a} && q.informed == {} && q.key == key && q.round == 1 &&
    q.op == q.proposal == Op(Set, x) && 1 in LogOf(s.replicas[c], key) && 1 in LogOf(s.replicas[a], key) &&
    forall b :: b in s.stubs ==>
      s.replicas[b].data == map[] && (forall r :: r in LogOf(s.replicas[b], key) ==> r == 1) &&
      forall k :: k != key ==> LogOf(s.replicas[b], k) == map[]
  }

  lemma MidwayAt(m0: map<Addr, Replica>, m: map<Addr, Replica>, stubs: set<Addr>, q: Run, b: Addr)
    requires Contract(m0, m, stubs, q) && b in stubs && q.informed == {} && q.round == 1
    requires m0[b] == EMPTY_REPLICA
    ensures m[b].data == map[] && (forall r :: r in LogOf(m[b], q.key) ==> r == 1)
    ensures forall k :: k != q.key ==> LogOf(m[b], k) == map[]
  {
    assert ContractAt(m0, m0[b], m[b], stubs, q, b);
    assert OtherRounds(LogOf(m0[b], q.key), LogOf(m[b], q.key), 1);
    forall k ensures Lookup(m[b], k) == Lookup(m0[b], k) {
      if k != q.key { assert SameAtKey(m0[b], m[b], k); }
    }
    SameLookups(m[b], m0[b]);
    forall k | k != q.key ensures LogOf(m[b], k) == map[] { assert SameAtKey(m0[b], m[b], k); }
  }

  lemma NoneHeldInit(stubs: set<Addr>, q: Run)
    ensures NoneHeld(Init(stubs).replicas, q)
  {}

  lemma AgreedIsMidway(s: System, stubs: set<Addr>, c: Addr, a: Addr, key: Key, x: Value, live: seq<Addr>)
    requires Wf(s) && s.stubs == stubs && 1 in s.runs && c in stubs && a in stubs && Elements(live) == {c, a}
    requires Agreed(s.replicas, s.runs[1], live) && s.runs[1].key == key && s.runs[1].op == Op(Set, x)
    requires s.runs[1].round == 1 && Contract(Init(stubs).replicas, s.replicas, stubs, s.runs[1])
    ensures Midway(s, c, a, key, x)
  {
    var m0, q := Init(stubs).replicas, s.runs[1];
    NoneHeldInit(stubs, q);
    SmoothProposes(m0, s.replicas, stubs, q);
    forall b | b in stubs
      ensures s.replicas[b].data == map[] && (forall r :: r in LogOf(s.replicas[b], key) ==> r == 1)
      ensures forall k :: k != key ==> LogOf(s.replicas[b], k) == map[]
    {
      MidwayAt(m0, s.replicas, stubs, q, b);
    }
  }

  /** The first two loops of the run over {c, a}. */
  function ToMidway(stubs: seq<Addr>, c: Addr, a: Addr, key: Key, x: Value): seq<Event> {
    RunTrace(1, c, Put(key, x), LiveOf(stubs, Reaching(c, a).ping), Reaching(c, a), 2)
  }

  lemma MidwayFromInit(stubs: seq<Addr>, c: Addr, a: Addr, key: Key, x: Value)
    requires Ascending(stubs) && c in stubs && a in stubs && key != COORDINATOR_KEY
    ensures var es, s0 := ToMidway(stubs, c, a, key, x), Init(Elements(stubs));
      Valid(s0, es) && Exec(s0, es).stubs == Elements(stubs) && Midway(Exec(s0, es), c, a, key, x)
  {
    var o, s0 := Reaching(c, a), Init(Elements(stubs));
    var live := LiveOf(stubs, o.ping);
    ReachableInv(Elements(stubs), []);
    ReachingLive(stubs, c, a);
    var m, q := SmoothRun(s0, 1, c, Put(key, x), stubs, o);
    TraceIsOf(1, c, Put(key, x), live, o, 2);
    RunContract(s0, ToMidway(stubs, c, a, key, x), 1);
    AgreedIsMidway(Exec(s0, ToMidway(stubs, c, a, key, x)), Elements(stubs), c, a, key, x, live);
  }

  lemma RestInit(stubs: set<Addr>, c: Addr)
    requires c in stubs
    ensures WfCluster(InitCluster(stubs, c)) && AtRest(InitCluster(stubs, c).sys)
  {}

  /** ... and the cluster allows them. */
  lemma MidwayIsReachable(stubs: seq<Addr>, c: Addr, a: Addr, key: Key, x: Value)
    requires Ascending(stubs) && c in stubs && a in stubs && key != COORDINATOR_KEY
    ensures var acts, cl := Doing(ToMidway(stubs, c, a, key, x)), InitCluster(Elements(stubs), c);
      Runs(cl, acts) && After(cl, acts).coord == c && Midway(After(cl, acts).sys, c, a, key, x)
  {
    var o := Reaching(c, a);
    var live := LiveOf(stubs, o.ping);
    MidwayFromInit(stubs, c, a, key, x);
    RestInit(Elements(stubs), c);
    assert c in live;
    assert Handling(o, live, 2) by { ReachingLive(stubs, c, a); }
    DoesRun(InitCluster(Elements(stubs), c), 1, Put(key, x), live, o, 2);
  }

  lemma InformFinds(r: Replica, stubs: set<Addr>, key: Key, acc: AcceptResponse, x: Value)
    requires key != COORDINATOR_KEY && acc.op == Op(Set, x) && Executes(LogOf(r, key), acc.round)
    ensures HandleGet(HandleInform(r, stubs, key, acc).0, key) == GetResult.Found(x)
  {}

  lemma InformMidway(s: System, c: Addr, a: Addr, key: Key, x: Value)
    requires Midway(s, c, a, key, x) && a != c && key != COORDINATOR_KEY
    ensures Enabled(s, Call(1, a, ANSWERED))
    ensures var t := Apply(s, Call(1, a, ANSWERED));
      HandleGet(t.replicas[a], key) == GetResult.Found(x) && t.replicas[c] == s.replicas[c]
  {
    InformFinds(s.replicas[a], s.stubs, key, AcceptanceOf(s.runs[1]), x);
  }

  lemma CallAtMidway(cl: Cluster, a: Addr, key: Key, x: Value)
    requires WfCluster(cl) && Midway(cl.sys, cl.coord, a, key, x) && Enabled(cl.sys, Call(1, a, ANSWERED))
    ensures Allowed(cl, Do(Call(1, a, ANSWERED)))
    ensures Next(cl, Do(Call(1, a, ANSWERED))) == cl.(sys := Apply(cl.sys, Call(1, a, ANSWERED)))
  {}

  lemma RejoinShowsCoordinator(cl: Cluster, a: Addr, key: Key)
    requires WfCluster(cl) && Allowed(cl, Rejoin(a))
    ensures Lookup(Next(cl, Rejoin(a)).sys.replicas[a], key) == Lookup(cl.sys.replicas[cl.coord], key)
  {
    RejoinedView(cl, a, key);
    assert ViewOf(Next(cl, Rejoin(a)).sys, key).vals[a] == ViewOf(cl.sys, key).vals[cl.coord];
  }

  /** In the middle of a run even an atomic rejoin shortens what a replica shows: it has
      executed the write, the coordinator has not yet, and it shows the old value again. */
  lemma RejoinShortensPrefix(cl: Cluster, a: Addr, key: Key, x: Value)
    requires WfCluster(cl) && Midway(cl.sys, cl.coord, a, key, x) && a != cl.coord && key != COORDINATOR_KEY
    ensures Allowed(cl, Do(Call(1, a, ANSWERED)))
    ensures var cl1 := Next(cl, Do(Call(1, a, ANSWERED)));
      HandleGet(cl1.sys.replicas[a], key) == GetResult.Found(x) && Allowed(cl1, Rejoin(a)) &&
      HandleGet(Next(cl1, Rejoin(a)).sys.replicas[a], key) == NotFound
  {
    InformMidway(cl.sys, cl.coord, a, key, x);
    CallAtMidway(cl, a, key, x);
    var cl1 := Next(cl, Do(Call(1, a, ANSWERED)));
    RejoinShowsCoordinator(cl1, a, key);
  }

  lemma MidwayInSync(s: System, c: Addr, a: Addr, key: Key, x: Value, k: Key)
    requires Midway(s, c, a, key, x)
    ensures InSync(ViewOf(s, k), c, a)
  {
    var v := ViewOf(s, k);
    if k == key { LatestIs(v.logs[a], 1); }
    forall b, r | b in v.logs && r in v.logs[b] ensures r <= LatestRound(v.logs[a]) { assert k == key && r == 1; }
  }

  lemma SkipsA(s: System, c: Addr, a: Addr, key: Key, x: Value)
    requires Midway(s, c, a, key, x) && a != c && key != COORDINATOR_KEY
    ensures Enabled(s, Call(1, a, NotHandled))
    ensures var t := Apply(s, Call(1, a, NotHandled));
      Enabled(t, Call(1, c, ANSWERED)) && t.runs[1] == s.runs[1].(todo := {c}) && t.replicas == s.replicas
  {}

  /** A handover in the middle of a run, to a replica that is in sync on every key: the old
      coordinator's call to the new one is lost, its run returns OK, and the new
      coordinator's reads miss the write. */
  lemma HandoverMidRun(s: System, c: Addr, a: Addr, key: Key, x: Value)
    requires Midway(s, c, a, key, x) && a != c && key != COORDINATOR_KEY
    ensures forall k :: InSync(ViewOf(s, k), c, a)
    ensures var es := [Call(1, a, NotHandled)] + [Call(1, c, ANSWERED), Advance(1)];
      Valid(s, es) && MissedAt(Exec(s, es), 1, a, x)
  {
    forall k ensures InSync(ViewOf(s, k), c, a) { MidwayInSync(s, c, a, key, x, k); }
    SkipsA(s, c, a, key, x);
    var t := Apply(s, Call(1, a, NotHandled));
    LastCallReturns(t, 1, c, ANSWERED);
    OneCall(t, 1, c, ANSWERED);
    ValidCons(s, Call(1, a, NotHandled), [Call(1, c, ANSWERED), Advance(1)]);
  }
}
