/** Runs that nothing disturbs: when the calls of Prepare and Propose are answered, a run
    returns OK from every reachable state. */
module Answered {
  import opened Types
  import opened Handlers
  import opened StubsMap
  import opened System
  import opened Safety
  import opened Stability
  import opened Commute
  import opened Solo
  import opened Tracing
  import opened Loops
  import opened Exact
  import opened WholeRun

  predicate AllAnswered(outcome: Addr -> Outcome, live: seq<Addr>) { forall a :: a in live ==> outcome(a) == ANSWERED }

  predicate Touched(m: map<Addr, Replica>, key: Key, round: nat, live: seq<Addr>) {
    forall a :: a in live && a in m ==> round in LogOf(m[a], key)
  }

  // ---- The loops ---------------------------------------------------------------

  lemma AllHeard(live: seq<Addr>, outcome: Addr -> Outcome, key: Key)
    requires Ascending(live) && live != [] && AllAnswered(outcome, live)
    ensures Heard(live, outcome, key) == Elements(live) && 2 * |Elements(live)| > |Elements(live)|
  {
    AscendingIsDistinct(live);
  }

  lemma ServedHasSlot(r: Replica, stubs: set<Addr>, q: Run, fail: bool)
    requires CallPhase(q.phase)
    ensures q.round in LogOf(Served(r, stubs, q, fail), q.key)
  {}

  lemma LoopTouches(m: map<Addr, Replica>, stubs: set<Addr>, q: Run, live: seq<Addr>, outcome: Addr -> Outcome)
    requires Elements(live) <= m.Keys && CallPhase(q.phase) && Ascending(live) && AllAnswered(outcome, live)
    ensures Touched(Poll(m, stubs, q, live, outcome).0, q.key, q.round, live)
  {
    var m' := Poll(m, stubs, q, live, outcome).0;
    forall a | a in live && a in m' ensures q.round in LogOf(m'[a], q.key) {
      LoopServes(m, stubs, q, live, outcome, a);
      ServedHasSlot(m[a], stubs, q, outcome(a).fail);
    }
  }

  // ---- The run -------------------------------------------------------------------

  /** The calls of the first two loops are answered, at one address at least. */
  predicate Smooth(stubs: seq<Addr>, o: Oracle) {
    var live := LiveOf(stubs, o.ping);
    live != [] && AllAnswered(o.prepare, live) && AllAnswered(o.propose, live)
  }

  /** The promise loop of an undisturbed run ends in a proposal ... */
  lemma PromisesSuffice(m: map<Addr, Replica>, stubs: set<Addr>, q: Run, live: seq<Addr>, prepare: Addr -> Outcome)
    requires Elements(live) <= m.Keys && Ascending(live) && live != [] && q.live == Elements(live)
    requires q.phase == Preparing && q.promises == [] && q.accepts == {}
    requires NoPromise(m, q.key, q.round) && AllAnswered(prepare, live)
    ensures var r := Poll(m, stubs, q, live, prepare); var q' := AfterPhase(r.1);
      q'.phase == Proposing && q'.key == q.key && q'.round == q.round && q'.live == q.live && q'.accepts == {} &&
      q'.op == q.op && Senders(q'.promises) == q.live &&
      q'.informed == q.informed && q'.todo == q.live && NoPromise(r.0, q.key, q.round)
  {
    AllHeard(live, prepare, q.key);
    PromiseStage(m, stubs, q, live, prepare);
    PollInforms(m, stubs, q, live, prepare);
    PromisePhase(Poll(m, stubs, q, live, prepare).1);
  }

  /** ... and its acceptance loop in consensus. */
  lemma AcceptsSuffice(m: map<Addr, Replica>, stubs: set<Addr>, q: Run, live: seq<Addr>, propose: Addr -> Outcome)
    requires Elements(live) <= m.Keys && Ascending(live) && live != [] && q.live == Elements(live)
    requires q.phase == Proposing && q.accepts == {} && NoPromise(m, q.key, q.round) && AllAnswered(propose, live)
    ensures var r := Poll(m, stubs, q, live, propose); var q' := AfterPhase(r.1);
      q'.phase == Informing && q'.key == q.key && q'.round == q.round && q'.live == q'.todo == q.live &&
      q'.op == q.op && q'.proposal == q.proposal && q'.promises == q.promises && q'.informed == q.informed &&
      Touched(r.0, q.key, q.round, live)
  {
    AllHeard(live, propose, q.key);
    AcceptStage(m, stubs, q, live, propose);
    LoopTouches(m, stubs, q, live, propose);
    PollInforms(m, stubs, q, live, propose);
  }

  /** About to inform all its live replicas, of which all have promised and accepted. */
  predicate Agreed(m: map<Addr, Replica>, q: Run, live: seq<Addr>) {
    q.phase == Informing && q.live == q.todo == Elements(live) == Senders(q.promises) && q.informed == {} &&
    Touched(m, q.key, q.round, live)
  }

  /** What a run takes from its request and its proposer's log. */
  predicate RunOf(q: Run, req: Request, log: Log) {
    q.key == req.key && q.op == ProposeValue(req) && q.round == LatestRound(log) + 1
  }

  /** At the start of its acceptance loop, with all promises in. */
  predicate Promised(m: map<Addr, Replica>, q: Run, live: seq<Addr>) {
    q.phase == Proposing && q.live == q.todo == Elements(live) == Senders(q.promises) && q.accepts == {} &&
    q.informed == {} && NoPromise(m, q.key, q.round)
  }

  lemma SmoothPromises(s0: System, id: RunId, me: Addr, req: Request, live: seq<Addr>, o: Oracle,
                       m0: map<Addr, Replica>, q0: Run)
    returns (m: map<Addr, Replica>, q: Run)
    requires TraceReaches(s0, id, me, req, live, o, 0, m0, q0) && NoPromise(m0, q0.key, q0.round)
    requires q0.phase == Preparing && q0.promises == [] && q0.accepts == {} && q0.informed == {}
    requires q0.live == q0.todo == Elements(live) && Ascending(live) && live != [] && Elements(live) <= s0.stubs
    requires AllAnswered(o.prepare, live)
    ensures TraceReaches(s0, id, me, req, live, o, 1, m, q) && Promised(m, q, live) && SameRun(q0, q)
    ensures m.Keys == m0.Keys && Elements(live) <= m.Keys
    ensures RunOverLive(m0, s0.stubs, q0, live, o) == DecideOverLive(m, s0.stubs, q, live, o)
  {
    TraceNext(s0, id, me, req, live, o, 0, m0, q0);
    PromisesSuffice(m0, s0.stubs, q0, live, o.prepare);
    var (m', p) := Poll(m0, s0.stubs, q0, live, o.prepare);
    m, q := m', AfterPhase(p);
  }

  lemma SmoothAccepts(s0: System, id: RunId, me: Addr, req: Request, live: seq<Addr>, o: Oracle,
                      m1: map<Addr, Replica>, q1: Run)
    returns (m: map<Addr, Replica>, q: Run)
    requires TraceReaches(s0, id, me, req, live, o, 1, m1, q1) && Promised(m1, q1, live) && Elements(live) <= m1.Keys
    requires Ascending(live) && live != [] && Elements(live) <= s0.stubs && AllAnswered(o.propose, live)
    ensures TraceReaches(s0, id, me, req, live, o, 2, m, q) && Agreed(m, q, live) && SameRun(q1, q)
    ensures Elements(live) <= m.Keys
    ensures var p := Poll(m, s0.stubs, q, live, o.inform);
      DecideOverLive(m1, s0.stubs, q1, live, o) == RunResult(AfterPhase(p.1), p.0, 3)
  {
    TraceNext(s0, id, me, req, live, o, 1, m1, q1);
    AcceptsSuffice(m1, s0.stubs, q1, live, o.propose);
    var (m', p) := Poll(m1, s0.stubs, q1, live, o.propose);
    m, q := m', AfterPhase(p);
  }

  lemma InformReturnsOk(m: map<Addr, Replica>, stubs: set<Addr>, q: Run, live: seq<Addr>, inform: Addr -> Outcome)
    requires Elements(live) <= m.Keys && q.phase == Informing
    ensures var q' := AfterPhase(Poll(m, stubs, q, live, inform).1);
      q'.phase == Done(true) && q'.proposal == q.proposal && q'.live == q.live && q'.promises == q.promises &&
      SameRun(q, q')
  {}

  /** An undisturbed run reaches consensus, and then returns OK whatever happens to Inform. */
  lemma SmoothRun(s0: System, id: RunId, me: Addr, req: Request, stubs: seq<Addr>, o: Oracle)
    returns (m: map<Addr, Replica>, q: Run)
    requires AllInv(s0) && id !in s0.runs && me in s0.stubs && ProperRequest(req)
    requires Ascending(stubs) && Elements(stubs) == s0.stubs && Smooth(stubs, o)
    ensures TraceReaches(s0, id, me, req, LiveOf(stubs, o.ping), o, 2, m, q)
    ensures Agreed(m, q, LiveOf(stubs, o.ping)) && RunOf(q, req, LogOf(s0.replicas[me], req.key))
    ensures var r := RunPaxosOn(s0.replicas, me, req, stubs, o);
      r.loops == 3 && r.run.phase == Done(true) && r.run.proposal == q.proposal && r.run.live == q.live &&
      r.run.promises == q.promises && RunOf(r.run, req, LogOf(s0.replicas[me], req.key))
  {
    assert Fresh(s0.replicas, me, req.key) by { ReachableFresh(s0, me, req.key); }
    var live, m0, q0 := Begins(s0.replicas, me, req, stubs, o);
    TraceStarts(s0, id, me, req, live, o);
    var m1, q1 := SmoothPromises(s0, id, me, req, live, o, m0, q0);
    m, q := SmoothAccepts(s0, id, me, req, live, o, m1, q1);
    InformReturnsOk(m, s0.stubs, q, live, o.inform);
  }

  // ---- What it proposes ------------------------------------------------------------

  predicate NoneHeld(m: map<Addr, Replica>, q: Run) { forall a :: a in q.live ==> !HeldAt(m, q, a) }

  /** Some live acceptor holds y at the run's round, and none holds anything else. */
  predicate OnlyHeld(m: map<Addr, Replica>, q: Run, y: Op) {
    (exists a :: a in q.live && HeldAt(m, q, a)) &&
    forall a :: a in q.live && HeldAt(m, q, a) ==> EntryAt(LogOf(m[a], q.key), q.round).accepted == y
  }

  lemma ProposesOwn(m0: map<Addr, Replica>, q: Run)
    requires AdoptsReported(m0, q) && NoneHeld(m0, q)
    ensures q.proposal == q.op
  {
    var i := AdoptIsEarliestMaximum(q.promises);
    forall j | 0 <= j < |q.promises| ensures q.promises[j].promise.acceptedId <= 0 {
      assert !HeldAt(m0, q, q.promises[j].from);
    }
  }

  lemma ProposesHeld(m0: map<Addr, Replica>, q: Run, y: Op)
    requires AdoptsReported(m0, q) && q.live == Senders(q.promises) && OnlyHeld(m0, q, y)
    ensures q.proposal == y
  {
    var a :| a in q.live && HeldAt(m0, q, a);
    var j :| 0 <= j < |q.promises| && q.promises[j].from == a;
    var i := AdoptIsEarliestMaximum(q.promises);
    assert q.promises[j].promise.acceptedId > 0;
    assert HeldAt(m0, q, q.promises[i].from);
  }

  lemma SmoothProposes(m0: map<Addr, Replica>, m: map<Addr, Replica>, stubs: set<Addr>, q: Run)
    requires Contract(m0, m, stubs, q) && Decided(q) && q.live == Senders(q.promises)
    ensures NoneHeld(m0, q) ==> q.proposal == q.op
    ensures forall y :: OnlyHeld(m0, q, y) ==> q.proposal == y
  {
    if NoneHeld(m0, q) { ProposesOwn(m0, q); }
    forall y | OnlyHeld(m0, q, y) ensures q.proposal == y { ProposesHeld(m0, q, y); }
  }

  lemma SmoothRunSucceeds(s0: System, id: RunId, me: Addr, req: Request, stubs: seq<Addr>, o: Oracle)
    requires AllInv(s0) && id !in s0.runs && me in s0.stubs && ProperRequest(req)
    requires Ascending(stubs) && Elements(stubs) == s0.stubs && Smooth(stubs, o)
    ensures var r := RunPaxosOn(s0.replicas, me, req, stubs, o);
      r.run.phase == Done(true) && Contract(s0.replicas, r.replicas, s0.stubs, r.run) && r.loops == 3 &&
      r.run.live == Elements(LiveOf(stubs, o.ping)) && RunOf(r.run, req, LogOf(s0.replicas[me], req.key)) &&
      (NoneHeld(s0.replicas, r.run) ==> r.run.proposal == ProposeValue(req)) &&
      (forall y :: OnlyHeld(s0.replicas, r.run, y) ==> r.run.proposal == y)
  {
    var m, q := SmoothRun(s0, id, me, req, stubs, o);
    RunAloneContract(s0, id, me, req, stubs, o);
    var r := RunPaxosOn(s0.replicas, me, req, stubs, o);
    SmoothProposes(s0.replicas, r.replicas, s0.stubs, r.run);
  }

  /** Everybody is informed when everybody answers. */
  lemma AllInformed(m: map<Addr, Replica>, me: Addr, req: Request, stubs: seq<Addr>, o: Oracle)
    requires me in m && Elements(stubs) == m.Keys && AllAnswered(o.inform, LiveOf(stubs, o.ping))
    ensures var r := RunPaxosOn(m, me, req, stubs, o);
      r.run.phase == Done(true) ==> r.run.informed == Elements(LiveOf(stubs, o.ping))
  {
    WhoIsInformed(m, me, req, stubs, o);
  }

  /** From every reachable state a run whose Prepare and Propose calls are answered returns
      OK and meets its contract. It proposes its own operation if its live acceptors hold no
      acceptance at its round, and the operation they hold if they hold one. */
  lemma AnsweredRunSucceeds(stubs: seq<Addr>, es: seq<Event>, me: Addr, req: Request, o: Oracle)
    requires Ascending(stubs) && Valid(Init(Elements(stubs)), es) && me in stubs
    requires ProperRequest(req) && Smooth(stubs, o)
    ensures var m := Exec(Init(Elements(stubs)), es).replicas;
      var r := RunPaxosOn(m, me, req, stubs, o);
      r.run.phase == Done(true) && Contract(m, r.replicas, Elements(stubs), r.run) &&
      r.run.live == Elements(LiveOf(stubs, o.ping)) &&
      (NoneHeld(m, r.run) ==> r.run.proposal == ProposeValue(req)) &&
      (forall y :: OnlyHeld(m, r.run, y) ==> r.run.proposal == y)
  {
    ReachableInv(Elements(stubs), es);
    var s0 := Exec(Init(Elements(stubs)), es);
    SmoothRunSucceeds(s0, FreshId(s0), me, req, stubs, o);
  }
}
