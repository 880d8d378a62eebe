/** The contract of one whole RunPaxos call that runs alone on its key. */
module Solo {
  import opened Types
  import opened Handlers
  import opened System
  import opened KeyView
  import opened Safety
  import opened Commute

  /** The logs agree at every round but this one. */
  ghost predicate OtherRounds(log0: Log, log: Log, round: nat) {
    forall r :: r != round ==> (r in log <==> r in log0) && (r in log ==> log[r] == log0[r])
  }

  /** What the run has done so far to replica a. */
  ghost predicate SoloReplica(q: Run, a: Addr, log0: Log, log: Log, val0: Option<Value>, val: Option<Value>) {
    OtherRounds(log0, log, q.round) && LatestRound(log) <= Max(LatestRound(log0), q.round) &&
    (!Proposed(q) ==> EntryAt(log, q.round) == EntryAt(log0, q.round)) &&
    (a !in q.live ==> log == log0) &&
    (a !in q.informed ==> val == val0) &&
    (a in q.informed ==>
      EntryAt(log, q.round).acceptedId == PROPOSE_ID && EntryAt(log, q.round).accepted == q.proposal) &&
    (a in q.informed && LatestRound(log0) <= q.round ==>
      val == ApplyOp(q.proposal, val0) && LatestRound(log) == q.round)
  }

  ghost predicate SoloAt(v0: View, v: View, q: Run, a: Addr) {
    a in v0.logs && a in v.logs && a in v0.vals && a in v.vals &&
    SoloReplica(q, a, v0.logs[a], v.logs[a], v0.vals[a], v.vals[a])
  }

  /** The promise that an acceptor with this log makes when it answers. */
  function Report(log: Log, round: nat): PromiseResponse {
    var e := EntryAt(log, round);
    if e.acceptedId > 0 then PromiseResponse(round, PROPOSE_ID, e.acceptedId, e.accepted)
    else PromiseResponse(round, PROPOSE_ID, 0, NO_OP)
  }

  /** Each promise reports what its sender held before the run. */
  predicate VotesReport(v0: View, q: Run) {
    forall i | 0 <= i < |q.promises| ::
      q.promises[i].from in v0.logs && q.promises[i].promise == Report(v0.logs[q.promises[i].from], q.round)
  }

  predicate SoloRun(v0: View, q: Run) {
    VotesReport(v0, q) && (Proposed(q) ==> q.proposal == Chosen(q.promises, q.op))
  }

  ghost predicate SoloInv(v0: View, v: View, key: Key, id: RunId) {
    WfView(v0) && Inv(v, key) && v.logs.Keys == v0.logs.Keys && id in v.runs &&
    SoloRun(v0, v.runs[id]) && forall a :: a in v.logs ==> SoloAt(v0, v, v.runs[id], a)
  }

  lemma SoloStart(v0: View, key: Key, e: Event)
    requires Inv(v0, key) && VEnabled(v0, e) && e.Start? && e.req.key == key
    ensures SoloInv(v0, VApply(v0, e), key, e.id)
  {
    InvStep(v0, key, e);
    var v := VApply(v0, e);
    forall a | a in v.logs ensures SoloAt(v0, v, v.runs[e.id], a) {}
  }

  lemma ApplyTwice(op: Op, x: Option<Value>)
    ensures ApplyOp(op, ApplyOp(op, x)) == ApplyOp(op, x)
  {}

  lemma TouchSolo(q: Run, a: Addr, log0: Log, log: Log, val0: Option<Value>, val: Option<Value>)
    requires SoloReplica(q, a, log0, log, val0, val) && a in q.live
    ensures SoloReplica(q, a, log0, AddSlot(log, q.round), val0, val)
  {}

  lemma AcceptSolo(q: Run, a: Addr, log0: Log, log: Log, val0: Option<Value>, val: Option<Value>)
    requires SoloReplica(q, a, log0, log, val0, val) && a in q.live && Proposed(q)
    ensures SoloReplica(q, a, log0, SetAccepted(log, q.round, PROPOSE_ID, q.proposal), val0, val)
  {}

  lemma InformSolo(q: Run, a: Addr, log0: Log, log: Log, val0: Option<Value>, val: Option<Value>)
    requires SoloReplica(q, a, log0, log, val0, val) && a in q.live && Proposed(q)
    ensures SoloReplica(q.(informed := q.informed + {a}), a, log0, SetAccepted(log, q.round, PROPOSE_ID, q.proposal),
                        val0, if Executes(log, q.round) then ApplyOp(q.proposal, val) else val)
  {
    ApplyTwice(q.proposal, val0);
  }

  /** One handled RPC, at the replica that handles it. */
  lemma SoloHandled(v0: View, v: View, id: RunId, rpc: Rpc, a: Addr, fail: bool)
    requires WfView(v) && id in v.runs && SoloAt(v0, v, v.runs[id], a) && a in v.runs[id].live
    requires rpc != PrepareRpc ==> Proposed(v.runs[id])
    ensures SoloAt(v0, VDeliver(v, id, rpc, a, fail), VDeliver(v, id, rpc, a, fail).runs[id], a)
  {
    var q := v.runs[id];
    TouchSolo(q, a, v0.logs[a], v.logs[a], v0.vals[a], v.vals[a]);
    if rpc == ProposeRpc { AcceptSolo(q, a, v0.logs[a], v.logs[a], v0.vals[a], v.vals[a]); }
    if rpc == InformRpc { InformSolo(q, a, v0.logs[a], v.logs[a], v0.vals[a], v.vals[a]); }
  }

  lemma SoloOthers(v0: View, v: View, id: RunId, rpc: Rpc, a: Addr, fail: bool, b: Addr)
    requires WfView(v) && id in v.runs && SoloAt(v0, v, v.runs[id], b) && a in v.logs && a != b
    ensures SoloAt(v0, VDeliver(v, id, rpc, a, fail), VDeliver(v, id, rpc, a, fail).runs[id], b)
  {
    var v' := VDeliver(v, id, rpc, a, fail);
    assert v'.logs[b] == v.logs[b] && v'.vals[b] == v.vals[b];
    assert v'.runs[id] == v.runs[id].(informed := v'.runs[id].informed);
    assert b in v'.runs[id].informed <==> b in v.runs[id].informed;
  }

  lemma SoloDeliver(v0: View, v: View, key: Key, id: RunId, rpc: Rpc, a: Addr, fail: bool)
    requires SoloInv(v0, v, key, id) && a in v.runs[id].live && a in v.logs && Sent(rpc, v.runs[id].phase)
    ensures SoloInv(v0, VDeliver(v, id, rpc, a, fail), key, id)
  {
    InvDeliver(v, key, id, rpc, a, fail);
    var v' := VDeliver(v, id, rpc, a, fail);
    assert RunOk(v, key, v.runs[id]);
    forall b | b in v'.logs ensures SoloAt(v0, v', v'.runs[id], b) {
      assert SoloAt(v0, v, v.runs[id], b);
      if b == a { SoloHandled(v0, v, id, rpc, a, fail); } else { SoloOthers(v0, v, id, rpc, a, fail, b); }
    }
  }

  /** The run record changes without touching a replica: it keeps its reach, or it has
      informed nobody yet and gets its live set or its proposal. */
  predicate SameReach(q: Run, q': Run) {
    q'.round == q.round && q'.informed == q.informed && (q.live != {} ==> q'.live == q.live) &&
    (Proposed(q) ==> q'.proposal == q.proposal) && (q.informed != {} ==> q'.live == q.live && Proposed(q))
  }

  lemma SoloSetRun(v0: View, v: View, v': View, key: Key, id: RunId, q: Run)
    requires SoloInv(v0, v, key, id) && v'.logs == v.logs && v'.vals == v.vals && id in v'.runs && v'.runs[id] == q
    requires Inv(v', key) && SoloRun(v0, q) && SameReach(v.runs[id], q)
    ensures SoloInv(v0, v', key, id)
  {
    forall a | a in v'.logs ensures SoloAt(v0, v', q, a) { assert SoloAt(v0, v, v.runs[id], a); }
  }

  lemma SoloVote(v0: View, members: set<Addr>, key: Key, q: Run, a: Addr, o: Outcome, log: Log)
    requires RunShape(members, key, q) && SoloRun(v0, q) && CallPhase(q.phase) && a in v0.logs && a in q.live
    requires q.phase == Preparing ==> EntryAt(log, q.round) == EntryAt(v0.logs[a], q.round)
    ensures SoloRun(v0, AfterCall(q, a, o, log)) && SameReach(q, AfterCall(q, a, o, log))
  {}

  lemma SoloBookkeep(v0: View, v: View, key: Key, id: RunId, a: Addr, o: Outcome, log: Log)
    requires SoloInv(v0, v, key, id) && CallPhase(v.runs[id].phase) && a in v.runs[id].todo && LogOk(v, log)
    requires v.runs[id].phase == Preparing ==> EntryAt(log, v.runs[id].round) == EntryAt(v.logs[a], v.runs[id].round)
    requires a in v.logs
    ensures SoloInv(v0, VSetRun(v, id, AfterCall(v.runs[id], a, o, log)), key, id)
  {
    var q := v.runs[id];
    InvBookkeep(v, key, id, a, o, log);
    assert RunOk(v, key, q) && SoloAt(v0, v, q, a);
    SoloVote(v0, v.logs.Keys, key, q, a, o, log);
    SoloSetRun(v0, v, VSetRun(v, id, AfterCall(q, a, o, log)), key, id, AfterCall(q, a, o, log));
  }

  lemma SoloCall(v0: View, v: View, key: Key, id: RunId, a: Addr, o: Outcome)
    requires SoloInv(v0, v, key, id) && VEnabled(v, Call(id, a, o))
    ensures SoloInv(v0, VCall(v, id, a, o), key, id)
  {
    assert RunOk(v, key, v.runs[id]) && LogOk(v, v.logs[a]);
    var v1 := v;
    if o.Handled? {
      v1 := VDeliver(v, id, RpcOf(v.runs[id].phase), a, o.fail);
      SoloDeliver(v0, v, key, id, RpcOf(v.runs[id].phase), a, o.fail);
      InvDeliver(v, key, id, RpcOf(v.runs[id].phase), a, o.fail);
      GrowsKeeps(v, v1);
    }
    SoloBookkeep(v0, v1, key, id, a, o, v.logs[a]);
  }

  lemma SoloPhase(v0: View, members: set<Addr>, key: Key, q: Run)
    requires RunShape(members, key, q) && SoloRun(v0, q) && CallPhase(q.phase)
    ensures SoloRun(v0, AfterPhase(q)) && SameReach(q, AfterPhase(q))
  {}

  lemma SoloAdvance(v0: View, v: View, key: Key, id: RunId)
    requires SoloInv(v0, v, key, id) && VEnabled(v, Advance(id))
    ensures SoloInv(v0, VAdvance(v, id), key, id)
  {
    InvAdvance(v, key, id);
    assert RunOk(v, key, v.runs[id]);
    SoloPhase(v0, v.logs.Keys, key, v.runs[id]);
    SoloSetRun(v0, v, VAdvance(v, id), key, id, AfterPhase(v.runs[id]));
  }

  lemma SoloPing(v0: View, v: View, key: Key, id: RunId, live: set<Addr>)
    requires SoloInv(v0, v, key, id) && VEnabled(v, Ping(id, live))
    ensures SoloInv(v0, VApply(v, Ping(id, live)), key, id)
  {
    InvStep(v, key, Ping(id, live));
    assert RunOk(v, key, v.runs[id]);
    SoloSetRun(v0, v, VApply(v, Ping(id, live)), key, id, AfterPing(v.runs[id], live));
  }

  lemma SoloStep(v0: View, v: View, key: Key, id: RunId, e: Event)
    requires SoloInv(v0, v, key, id) && VEnabled(v, e) && RunEvent(e) && e.id == id
    ensures SoloInv(v0, VApply(v, e), key, id)
  {
    match e
    case Ping(_, live) => SoloPing(v0, v, key, id, live);
    case Call(_, a, o) => SoloCall(v0, v, key, id, a, o);
    case Late(_, a, rpc, fail) =>
      assert RunOk(v, key, v.runs[id]);
      SoloDeliver(v0, v, key, id, rpc, a, fail);
    case Advance(_) => SoloAdvance(v0, v, key, id);
  }

  // ---- Elections: the stored coordinator --------------------------------------

  /** Replicas that executed an election of a member store it, the others keep theirs. */
  predicate SoloCoordinator(v0: View, c0: map<Addr, Addr>, s: System, id: RunId, a: Addr) {
    Wf(s) && id in s.runs && a in s.stubs && a in v0.logs && a in c0 &&
    (a !in s.runs[id].informed || s.runs[id].proposal.kind != SetCoordinator ==> s.replicas[a].coordinator == c0[a]) &&
    (a in s.runs[id].informed && s.runs[id].proposal.kind == SetCoordinator &&
     s.runs[id].proposal.value in s.stubs && LatestRound(v0.logs[a]) <= s.runs[id].round ==>
      s.replicas[a].coordinator == s.runs[id].proposal.value)
  }

  lemma CoordinatorDeliver(v0: View, c0: map<Addr, Addr>, s: System, id: RunId, rpc: Rpc, a: Addr, fail: bool, b: Addr)
    requires SoloCoordinator(v0, c0, s, id, b) && a in s.stubs
    requires rpc != InformRpc || Proposed(s.runs[id])
    requires a == b && LatestRound(v0.logs[a]) <= s.runs[id].round ==>
               LatestRound(LogOf(s.replicas[a], s.runs[id].key)) <= s.runs[id].round
    ensures SoloCoordinator(v0, c0, Deliver(s, id, rpc, a, fail), id, b)
  {
    DeliverReplica(s, id, rpc, a, fail);
    DeliverRuns(s, id, rpc, a, fail);
  }

  /** Setting a run that has informed nobody, or keeps its reach. */
  lemma CoordinatorSetRun(v0: View, c0: map<Addr, Addr>, s: System, s': System, id: RunId, b: Addr)
    requires SoloCoordinator(v0, c0, s, id, b) && Wf(s') && id in s'.runs && SameReach(s.runs[id], s'.runs[id])
    requires s'.replicas == s.replicas && s'.stubs == s.stubs
    ensures SoloCoordinator(v0, c0, s', id, b)
  {}

  ghost predicate SoloState(v0: View, c0: map<Addr, Addr>, s: System, key: Key, id: RunId) {
    Wf(s) && id in s.runs && s.runs[id].key == key && SoloInv(v0, ViewOf(s, key), key, id) &&
    forall a :: a in s.stubs ==> SoloCoordinator(v0, c0, s, id, a)
  }

  lemma LatestStays(v0: View, s: System, key: Key, id: RunId, a: Addr)
    requires Wf(s) && id in s.runs && s.runs[id].key == key && SoloInv(v0, ViewOf(s, key), key, id) && a in s.stubs
    ensures a in v0.logs && (LatestRound(v0.logs[a]) <= s.runs[id].round ==>
              LatestRound(LogOf(s.replicas[a], key)) <= s.runs[id].round)
  {
    assert SoloAt(v0, ViewOf(s, key), s.runs[id], a);
  }

  lemma SoloDelivered(v0: View, c0: map<Addr, Addr>, s: System, key: Key, id: RunId, rpc: Rpc, a: Addr, fail: bool)
    requires SoloState(v0, c0, s, key, id) && a in s.runs[id].live && a in s.stubs && Sent(rpc, s.runs[id].phase)
    ensures forall b :: b in s.stubs ==> SoloCoordinator(v0, c0, Deliver(s, id, rpc, a, fail), id, b)
  {
    LatestStays(v0, s, key, id, a);
    assert RunOk(ViewOf(s, key), key, ViewOf(s, key).runs[id]);
    forall b | b in s.stubs ensures SoloCoordinator(v0, c0, Deliver(s, id, rpc, a, fail), id, b) {
      CoordinatorDeliver(v0, c0, s, id, rpc, a, fail, b);
    }
  }

  /** Only a run that has proposed informs. */
  lemma DeliverInformsProposal(s: System, key: Key, id: RunId, rpc: Rpc, a: Addr, fail: bool)
    requires Wf(s) && id in s.runs && a in s.stubs && RunShape(s.stubs, key, s.runs[id]) && Sent(rpc, s.runs[id].phase)
    ensures Deliver(s, id, rpc, a, fail).runs[id].informed != {} ==> Proposed(s.runs[id])
  {}

  /** The run's bookkeeping after a call changes no stored coordinator. */
  lemma CoordinatorBookkeeps(v0: View, c0: map<Addr, Addr>, s1: System, t: System, key: Key, q: Run, id: RunId,
                             a: Addr, o: Outcome, log: Log)
    requires Wf(s1) && Wf(t) && id in s1.runs && id in t.runs && RunShape(s1.stubs, key, q) && CallPhase(q.phase)
    requires s1.runs[id] == q.(informed := s1.runs[id].informed) && (s1.runs[id].informed != {} ==> Proposed(q))
    requires t.runs[id] == AfterCall(s1.runs[id], a, o, log) && t.replicas == s1.replicas && t.stubs == s1.stubs
    requires forall b :: b in s1.stubs ==> SoloCoordinator(v0, c0, s1, id, b)
    ensures forall b :: b in t.stubs ==> SoloCoordinator(v0, c0, t, id, b)
  {
    BookkeepReach(s1.stubs, key, q, s1.runs[id], a, o, log);
    forall b | b in t.stubs ensures SoloCoordinator(v0, c0, t, id, b) { CoordinatorSetRun(v0, c0, s1, t, id, b); }
  }

  lemma CoordinatorLost(v0: View, c0: map<Addr, Addr>, s: System, key: Key, e: Event)
    requires e.Call? && e.outcome.NotHandled? && Wf(s) && Enabled(s, e) && RunShape(s.stubs, key, s.runs[e.id])
    requires forall b :: b in s.stubs ==> SoloCoordinator(v0, c0, s, e.id, b)
    ensures forall b :: b in s.stubs ==> SoloCoordinator(v0, c0, Apply(s, e), e.id, b)
  {
    var q := s.runs[e.id];
    CoordinatorBookkeeps(v0, c0, s, Apply(s, e), key, q, e.id, e.a, e.outcome, LogOf(s.replicas[e.a], q.key));
  }

  lemma CoordinatorHandled(v0: View, c0: map<Addr, Addr>, s: System, key: Key, e: Event)
    requires e.Call? && e.outcome.Handled? && SoloState(v0, c0, s, key, e.id) && Enabled(s, e)
    requires RunShape(s.stubs, key, s.runs[e.id])
    ensures forall b :: b in s.stubs ==> SoloCoordinator(v0, c0, Apply(s, e), e.id, b)
  {
    var q, rpc := s.runs[e.id], RpcOf(s.runs[e.id].phase);
    var s1 := Deliver(s, e.id, rpc, e.a, e.outcome.fail);
    SoloDelivered(v0, c0, s, key, e.id, rpc, e.a, e.outcome.fail);
    DeliverRuns(s, e.id, rpc, e.a, e.outcome.fail);
    DeliverInformsProposal(s, key, e.id, rpc, e.a, e.outcome.fail);
    CoordinatorBookkeeps(v0, c0, s1, Apply(s, e), key, q, e.id, e.a, e.outcome, LogOf(s.replicas[e.a], q.key));
  }

  lemma BookkeepReach(members: set<Addr>, key: Key, q: Run, q1: Run, a: Addr, o: Outcome, log: Log)
    requires RunShape(members, key, q) && CallPhase(q.phase) && q1 == q.(informed := q1.informed)
    requires q1.informed != {} ==> Proposed(q)
    ensures SameReach(q1, AfterCall(q1, a, o, log))
  {}

  lemma CoordinatorQuiet(v0: View, c0: map<Addr, Addr>, s: System, key: Key, e: Event, b: Addr)
    requires e.Ping? || e.Advance?
    requires Wf(s) && Enabled(s, e) && SoloCoordinator(v0, c0, s, e.id, b) && RunShape(s.stubs, key, s.runs[e.id])
    ensures SoloCoordinator(v0, c0, Apply(s, e), e.id, b)
  {
    CoordinatorSetRun(v0, c0, s, Apply(s, e), e.id, b);
  }

  lemma CoordinatorQuiets(v0: View, c0: map<Addr, Addr>, s: System, key: Key, e: Event)
    requires e.Ping? || e.Advance?
    requires Wf(s) && Enabled(s, e) && RunShape(s.stubs, key, s.runs[e.id])
    requires forall b :: b in s.stubs ==> SoloCoordinator(v0, c0, s, e.id, b)
    ensures forall b :: b in s.stubs ==> SoloCoordinator(v0, c0, Apply(s, e), e.id, b)
  {
    forall b | b in s.stubs ensures SoloCoordinator(v0, c0, Apply(s, e), e.id, b) {
      CoordinatorQuiet(v0, c0, s, key, e, b);
    }
  }

  lemma ShapeIn(s: System, key: Key, id: RunId)
    requires Wf(s) && id in s.runs && s.runs[id].key == key && Inv(ViewOf(s, key), key)
    ensures RunShape(s.stubs, key, s.runs[id])
  {
    assert RunOk(ViewOf(s, key), key, ViewOf(s, key).runs[id]);
  }

  lemma CoordinatorLate(v0: View, c0: map<Addr, Addr>, s: System, key: Key, e: Event)
    requires e.Late? && SoloState(v0, c0, s, key, e.id) && Enabled(s, e)
    ensures forall b :: b in s.stubs ==> SoloCoordinator(v0, c0, Apply(s, e), e.id, b)
  {
    SoloDelivered(v0, c0, s, key, e.id, e.rpc, e.a, e.fail);
  }

  lemma CoordinatorStays(v0: View, c0: map<Addr, Addr>, s: System, key: Key, e: Event)
    requires RunEvent(e) && SoloState(v0, c0, s, key, e.id) && Enabled(s, e)
    ensures forall b :: b in s.stubs ==> SoloCoordinator(v0, c0, Apply(s, e), e.id, b)
  {
    ShapeIn(s, key, e.id);
    match e
    case Call(_, _, o) =>
      if o.Handled? { CoordinatorHandled(v0, c0, s, key, e); } else { CoordinatorLost(v0, c0, s, key, e); }
    case Late(_, _, _, _) => CoordinatorLate(v0, c0, s, key, e);
    case _ => CoordinatorQuiets(v0, c0, s, key, e);
  }

  // ---- Whole runs --------------------------------------------------------------

  lemma SoloNext(v0: View, c0: map<Addr, Addr>, s: System, e: Event, key: Key, id: RunId)
    requires SoloState(v0, c0, s, key, id) && Enabled(s, e) && RunEvent(e) && e.id == id
    ensures SoloState(v0, c0, Apply(s, e), key, id)
  {
    assert SoloInv(v0, ViewOf(Apply(s, e), key), key, id) by {
      ViewStep(s, e, key);
      SoloStep(v0, ViewOf(s, key), key, id, e);
    }
    CoordinatorStays(v0, c0, s, key, e);
    StepKeepsRequest(s, e, id);
  }

  lemma {:induction false} SoloExec(v0: View, c0: map<Addr, Addr>, s: System, es: seq<Event>, key: Key, id: RunId)
    requires SoloState(v0, c0, s, key, id) && Valid(s, es) && EventsOf(es, {id})
    ensures SoloState(v0, c0, Exec(s, es), key, id)
    decreases |es|
  {
    if es != [] {
      EventsTail(es, id);
      var s1 := SoloHead(v0, c0, s, es, key, id);
      SoloExec(v0, c0, s1, es[1..], key, id);
    }
  }

  lemma EventsTail(es: seq<Event>, id: RunId)
    requires es != [] && EventsOf(es, {id})
    ensures RunEvent(es[0]) && es[0].id == id && EventsOf(es[1..], {id})
  {}

  lemma SoloHead(v0: View, c0: map<Addr, Addr>, s: System, es: seq<Event>, key: Key, id: RunId) returns (s1: System)
    requires es != [] && SoloState(v0, c0, s, key, id) && Valid(s, es) && RunEvent(es[0]) && es[0].id == id
    ensures SoloState(v0, c0, s1, key, id) && Valid(s1, es[1..]) && Exec(s, es) == Exec(s1, es[1..])
  {
    s1 := Apply(s, es[0]);
    assert SoloState(v0, c0, s1, key, id) by { SoloNext(v0, c0, s, es[0], key, id); }
  }

  lemma {:induction false} OtherKeysUntouched(s: System, es: seq<Event>, key: Key, id: RunId, other: Key)
    requires Wf(s) && Valid(s, es) && EventsOf(es, {id}) && AboutKey(s, id, key, es) && other != key
    ensures ViewOf(Exec(s, es), other) == ViewOf(s, other)
    decreases |es|
  {
    if es != [] {
      assert RunEvent(es[0]) && es[0].id == id && es == [es[0]] + es[1..];
      ViewStep(s, es[0], other);
      AboutKeyStep(s, es[0], id, key, es[1..]);
      OtherKeysUntouched(Apply(s, es[0]), es[1..], key, id, other);
    }
  }

  /** Each promise came from a live acceptor and reports what it held before the run, and
      the proposal is what the adoption loop makes of them. */
  predicate AdoptsReported(m0: map<Addr, Replica>, q: Run) {
    q.proposal == Chosen(q.promises, q.op) &&
    forall i | 0 <= i < |q.promises| ::
      q.promises[i].from in q.live && q.promises[i].from in m0 &&
      q.promises[i].promise == Report(LogOf(m0[q.promises[i].from], q.key), q.round)
  }

  /** Every live replica's latest round is at most the chosen one. */
  predicate NoneAhead(m0: map<Addr, Replica>, q: Run) {
    forall a :: a in q.live && a in m0 ==> LatestRound(LogOf(m0[a], q.key)) <= q.round
  }

  predicate SameAtKey(r0: Replica, r: Replica, key: Key) {
    LogOf(r, key) == LogOf(r0, key) && Lookup(r, key) == Lookup(r0, key)
  }

  /** What a run has done to a replica that held r0 and now holds r. */
  ghost predicate ContractAt(m0: map<Addr, Replica>, r0: Replica, r: Replica, stubs: set<Addr>, q: Run, a: Addr) {
    (forall other :: other != q.key ==> SameAtKey(r0, r, other)) &&
    OtherRounds(LogOf(r0, q.key), LogOf(r, q.key), q.round) &&
    (!Proposed(q) ==> EntryAt(LogOf(r, q.key), q.round) == EntryAt(LogOf(r0, q.key), q.round)) &&
    (a in q.informed ==>
      EntryAt(LogOf(r, q.key), q.round).acceptedId == PROPOSE_ID &&
      EntryAt(LogOf(r, q.key), q.round).accepted == q.proposal) &&
    (a !in q.informed ==> Lookup(r, q.key) == Lookup(r0, q.key)) &&
    (a in q.informed && NoneAhead(m0, q) ==>
      LatestRound(LogOf(r, q.key)) == q.round &&
      Lookup(r, q.key) == ApplyOp(q.proposal, Lookup(r0, q.key)) &&
      (q.proposal.kind == SetCoordinator && q.proposal.value in stubs ==> r.coordinator == q.proposal.value))
  }

  /** The contract of RunPaxos run alone, from replicas m0 to m: other keys and other rounds
      stay untouched; nothing is executed unless consensus is reached; what is proposed is
      what the adoption loop makes of the acceptances held before; and every replica that
      handled Inform has executed it and has the run's round as its latest, if no live
      replica was ahead of the proposer. */
  ghost predicate Contract(m0: map<Addr, Replica>, m: map<Addr, Replica>, stubs: set<Addr>, q: Run) {
    m0.Keys == m.Keys == stubs && q.informed <= q.live <= stubs && (q.informed != {} ==> Decided(q)) &&
    (Decided(q) ==> Proposed(q)) &&
    (forall a :: a in stubs ==> ContractAt(m0, m0[a], m[a], stubs, q, a)) &&
    (Proposed(q) ==> AdoptsReported(m0, q))
  }

  lemma SoloProposal(s0: System, s: System, c0: map<Addr, Addr>, id: RunId)
    requires Wf(s0) && s.stubs == s0.stubs && id in s.runs && Proposed(s.runs[id])
    requires SoloState(ViewOf(s0, s.runs[id].key), c0, s, s.runs[id].key, id)
    ensures AdoptsReported(s0.replicas, s.runs[id])
  {
    var q, v := s.runs[id], ViewOf(s, s.runs[id].key);
    assert v.runs[id] == q && RunOk(v, q.key, q);
  }

  lemma SameElsewhereAt(s0: System, s: System, other: Key, a: Addr)
    requires Wf(s0) && Wf(s) && a in s0.stubs && a in s.stubs && ViewOf(s, other) == ViewOf(s0, other)
    ensures SameAtKey(s0.replicas[a], s.replicas[a], other)
  {
    assert ViewOf(s, other).logs[a] == ViewOf(s0, other).logs[a];
    assert ViewOf(s, other).vals[a] == ViewOf(s0, other).vals[a];
  }

  lemma SoloMeansContractAt(s0: System, s: System, c0: map<Addr, Addr>, id: RunId, a: Addr)
    requires Wf(s0) && Wf(s) && s.stubs == s0.stubs && id in s.runs && a in s.stubs
    requires var q := s.runs[id];
      SoloAt(ViewOf(s0, q.key), ViewOf(s, q.key), q, a) && q.informed <= q.live &&
      SoloCoordinator(ViewOf(s0, q.key), c0, s, id, a)
    requires forall other :: other != s.runs[id].key ==> SameAtKey(s0.replicas[a], s.replicas[a], other)
    ensures ContractAt(s0.replicas, s0.replicas[a], s.replicas[a], s.stubs, s.runs[id], a)
  {}

  lemma SoloMeansContract(s0: System, s: System, c0: map<Addr, Addr>, id: RunId)
    requires Wf(s0) && s.stubs == s0.stubs && id in s.runs
    requires SoloState(ViewOf(s0, s.runs[id].key), c0, s, s.runs[id].key, id)
    requires forall other :: other != s.runs[id].key ==> ViewOf(s, other) == ViewOf(s0, other)
    ensures Contract(s0.replicas, s.replicas, s.stubs, s.runs[id])
  {
    var q, key := s.runs[id], s.runs[id].key;
    assert ViewOf(s, key).runs[id] == q && RunOk(ViewOf(s, key), key, q);
    if Proposed(q) { SoloProposal(s0, s, c0, id); }
    forall a | a in s.stubs ensures ContractAt(s0.replicas, s0.replicas[a], s.replicas[a], s.stubs, q, a) {
      assert SoloAt(ViewOf(s0, key), ViewOf(s, key), q, a);
      forall other | other != key ensures SameAtKey(s0.replicas[a], s.replicas[a], other) {
        SameElsewhereAt(s0, s, other, a);
      }
      SoloMeansContractAt(s0, s, c0, id, a);
    }
  }

  lemma CoordinatorStarts(s0: System, e: Event, b: Addr)
    requires Wf(s0) && Enabled(s0, e) && e.Start? && b in s0.stubs
    ensures SoloCoordinator(ViewOf(s0, e.req.key), CoordinatorsOf(s0), Apply(s0, e), e.id, b)
  {}

  lemma SoloStarts(s0: System, e: Event)
    requires AllInv(s0) && Enabled(s0, e) && e.Start?
    ensures SoloState(ViewOf(s0, e.req.key), CoordinatorsOf(s0), Apply(s0, e), e.req.key, e.id)
  {
    var key := e.req.key;
    assert SoloInv(ViewOf(s0, key), ViewOf(Apply(s0, e), key), key, e.id) by {
      ViewStep(s0, e, key);
      assert Inv(ViewOf(s0, key), key);
      SoloStart(ViewOf(s0, key), key, e);
    }
    forall b | b in s0.stubs
      ensures SoloCoordinator(ViewOf(s0, key), CoordinatorsOf(s0), Apply(s0, e), e.id, b)
    {
      CoordinatorStarts(s0, e, b);
    }
  }

  /** The contract of RunPaxos run alone, from any reachable state and for every loss and
      failure: see Contract. */
  lemma WholeRunContract(stubs: set<Addr>, es: seq<Event>, fs: seq<Event>, id: RunId)
    requires Valid(Init(stubs), es) && Valid(Exec(Init(stubs), es), fs) && EventsOf(fs, {id})
    requires id !in Exec(Init(stubs), es).runs && fs != []
    ensures var s0, s := Exec(Init(stubs), es), Exec(Exec(Init(stubs), es), fs);
      id in s.runs && Contract(s0.replicas, s.replicas, stubs, s.runs[id])
  {
    var s0 := Exec(Init(stubs), es);
    forall key ensures Inv(ViewOf(s0, key), key) { InvAlways(stubs, es, key); }
    RunContract(s0, fs, id);
  }

  lemma OthersUntouched(s0: System, fs: seq<Event>, id: RunId, other: Key)
    requires Wf(s0) && Valid(s0, fs) && EventsOf(fs, {id}) && id !in s0.runs && fs != []
    requires fs[0].Start? && other != fs[0].req.key
    ensures ViewOf(Exec(s0, fs), other) == ViewOf(s0, other)
  {
    var s1 := Apply(s0, fs[0]);
    assert RunEvent(fs[0]) && fs[0].id == id;
    ViewStep(s0, fs[0], other);
    LaterEvents(s1, fs[1..], id);
    OtherKeysUntouched(s1, fs[1..], fs[0].req.key, id, other);
  }

  function CoordinatorsOf(s: System): map<Addr, Addr> {
    map a | a in s.replicas :: s.replicas[a].coordinator
  }

  lemma SoloFromStart(s0: System, e: Event, es: seq<Event>)
    requires AllInv(s0) && Enabled(s0, e) && e.Start? && Valid(Apply(s0, e), es) && EventsOf(es, {e.id})
    ensures SoloState(ViewOf(s0, e.req.key), CoordinatorsOf(s0), Exec(Apply(s0, e), es), e.req.key, e.id)
  {
    SoloStarts(s0, e);
    SoloExec(ViewOf(s0, e.req.key), CoordinatorsOf(s0), Apply(s0, e), es, e.req.key, e.id);
  }

  lemma FirstIsStart(s0: System, fs: seq<Event>, id: RunId)
    requires Wf(s0) && Valid(s0, fs) && EventsOf(fs, {id}) && id !in s0.runs && fs != []
    ensures fs[0].Start? && fs[0].id == id && EventsOf(fs[1..], {id})
  {
    assert RunEvent(fs[0]) && fs[0].id == id;
  }

  lemma RunContract(s0: System, fs: seq<Event>, id: RunId)
    requires AllInv(s0) && Valid(s0, fs) && EventsOf(fs, {id}) && id !in s0.runs && fs != []
    ensures var s := Exec(s0, fs); id in s.runs && Contract(s0.replicas, s.replicas, s0.stubs, s.runs[id])
  {
    FirstIsStart(s0, fs, id);
    SoloFromStart(s0, fs[0], fs[1..]);
    forall other | other != fs[0].req.key ensures ViewOf(Exec(s0, fs), other) == ViewOf(s0, other) {
      OthersUntouched(s0, fs, id, other);
    }
    SoloMeansContract(s0, Exec(s0, fs), CoordinatorsOf(s0), id);
  }

  /** A run starts once. */
  lemma {:induction false} LaterEvents(s: System, es: seq<Event>, id: RunId)
    requires Wf(s) && Valid(s, es) && EventsOf(es, {id}) && id in s.runs
    ensures AboutKey(s, id, s.runs[id].key, es)
    decreases |es|
  {
    if es != [] {
      assert RunEvent(es[0]) && es[0].id == id;
      StepKeepsRequest(s, es[0], id);
      LaterEvents(Apply(s, es[0]), es[1..], id);
      assert es == [es[0]] + es[1..];
    }
  }
}
