/** Invariants of every interleaving: any proposers, overlapping runs, losses,
    failures, restarts and recoveries. */
module Safety {
  import opened Types
  import opened Handlers
  import opened System
  import opened KeyView

  // ---- The adoption loop ---------------------------------------------------

  /** votes[i] is the promise that the loop adopts: nobody reported a greater
      accepted id, and nobody before it an equal one. */
  predicate EarliestMaximum(votes: seq<Vote>, i: nat) {
    i < |votes| &&
    (forall j | 0 <= j < |votes| :: votes[j].promise.acceptedId <= votes[i].promise.acceptedId) &&
    (forall j | 0 <= j < i :: votes[j].promise.acceptedId < votes[i].promise.acceptedId)
  }

  lemma {:induction false} AdoptIsEarliestMaximum(votes: seq<Vote>) returns (i: nat)
    ensures Adopt(votes).0 >= 0
    ensures Adopt(votes).0 == 0 <==> forall j | 0 <= j < |votes| :: votes[j].promise.acceptedId <= 0
    ensures Adopt(votes).0 > 0 ==>
              EarliestMaximum(votes, i) &&
              Adopt(votes) == (votes[i].promise.acceptedId, votes[i].promise.op)
  {
    i := 0;
    if votes != [] {
      var n := |votes| - 1;
      var rest := votes[..n];
      i := AdoptIsEarliestMaximum(rest);
      assert forall j | 0 <= j < n :: rest[j] == votes[j];
      if votes[n].promise.acceptedId > Adopt(rest).0 { i := n; }
    }
  }

  // ---- The invariant -------------------------------------------------------

  /** No promise is ever recorded, and every acceptance has the one proposal id. */
  predicate GoodEntry(e: PaxosLog) {
    e.promisedId == 0 && (e == EMPTY_ENTRY || (e.acceptedId == PROPOSE_ID && e.accepted.kind != NotSet))
  }

  /** Elections happen on their own key, writes on all the others. */
  predicate FitsKey(key: Key, op: Op) {
    if key == COORDINATOR_KEY then op.kind == SetCoordinator else op.kind == Set || op.kind == Delete
  }

  ghost predicate ProposedAt(v: View, round: nat, op: Op) {
    exists id :: id in v.runs && v.runs[id].round == round && v.runs[id].proposal == op && Proposed(v.runs[id])
  }

  ghost predicate RequestedOp(v: View, op: Op) {
    exists id :: id in v.runs && v.runs[id].op == op
  }

  ghost predicate LogOk(v: View, log: Log) {
    forall r :: r in log ==>
      GoodEntry(log[r]) && (log[r].acceptedId > 0 ==> ProposedAt(v, r, log[r].accepted))
  }

  /** The entry was decided by a run of this key. */
  predicate EntryOk(v: View, e: Entry) {
    e.run in v.runs && v.runs[e.run].round == e.round && v.runs[e.run].proposal == e.op &&
    Decided(v.runs[e.run]) && Proposed(v.runs[e.run])
  }

  predicate EntriesOk(v: View, h: seq<Entry>) { forall i | 0 <= i < |h| :: EntryOk(v, h[i]) }

  /** Each acceptor answers a run at most once per phase. */
  predicate VotesOk(q: Run) {
    (forall i | 0 <= i < |q.promises| ::
      q.promises[i].from in q.live && (q.phase == Preparing ==> q.promises[i].from !in q.todo)) &&
    (forall i, j | 0 <= i < j < |q.promises| :: q.promises[i].from != q.promises[j].from)
  }

  /** What the phase of a run says about its other fields. */
  predicate RunShape(members: set<Addr>, key: Key, q: Run) {
    q.key == key && FitsKey(key, q.op) && q.round >= 1 &&
    q.live <= members && q.todo <= q.live && q.accepts <= q.live && q.informed <= q.live &&
    (q.phase == Pinging ==> q.promises == [] && q.live == {}) &&
    (q.phase == Pinging || q.phase == Preparing ==> q.proposal == NO_OP && q.accepts == {}) &&
    (q.phase == Proposing ==> q.accepts !! q.todo) &&
    (q.phase == Proposing || Decided(q) ==> Proposed(q)) &&
    (q.informed != {} ==> Decided(q)) &&
    VotesOk(q)
  }

  /** What a promise reports was proposed at the run's round. */
  ghost predicate PromisesOk(v: View, q: Run) {
    forall i | 0 <= i < |q.promises| ::
      var p := q.promises[i].promise;
      (p.acceptedId == 0 || p.acceptedId == PROPOSE_ID) && (p.acceptedId > 0 ==> ProposedAt(v, q.round, p.op))
  }

  ghost predicate RunOk(v: View, key: Key, q: Run) {
    RunShape(v.logs.Keys, key, q) && PromisesOk(v, q) && (Proposed(q) ==> RequestedOp(v, q.proposal))
  }

  ghost predicate Inv(v: View, key: Key) {
    WfView(v) &&
    (forall a :: a in v.logs ==> LogOk(v, v.logs[a])) &&
    (forall id :: id in v.runs ==> RunOk(v, key, v.runs[id])) &&
    (forall a :: a in v.hist ==> EntriesOk(v, v.hist[a])) &&
    EntriesOk(v, v.decided) &&
    (forall a :: a in v.vals ==> ValueRequested(v, v.vals[a]))
  }

  // ---- Monotonicity --------------------------------------------------------

  /** What a run keeps for good once it has it. */
  predicate RunGrows(q: Run, q': Run) {
    q'.proposer == q.proposer && q'.key == q.key && q'.op == q.op && q'.round == q.round &&
    (q.live != {} ==> q'.live == q.live) &&
    (Proposed(q) ==> q'.proposal == q.proposal) && (Decided(q) ==> Decided(q'))
  }

  predicate Grows(v: View, v': View) {
    v'.logs.Keys == v.logs.Keys &&
    forall id :: id in v.runs ==> id in v'.runs && RunGrows(v.runs[id], v'.runs[id])
  }

  lemma GrowsKeeps(v: View, v': View)
    requires Grows(v, v')
    ensures forall r, op :: ProposedAt(v, r, op) ==> ProposedAt(v', r, op)
    ensures forall op :: RequestedOp(v, op) ==> RequestedOp(v', op)
    ensures forall e :: EntryOk(v, e) ==> EntryOk(v', e)
  {
    forall r, op | ProposedAt(v, r, op) ensures ProposedAt(v', r, op) {
      var id :| id in v.runs && v.runs[id].round == r && v.runs[id].proposal == op && Proposed(v.runs[id]);
      assert id in v'.runs && Proposed(v'.runs[id]);
    }
    forall op | RequestedOp(v, op) ensures RequestedOp(v', op) {
      var id :| id in v.runs && v.runs[id].op == op;
      assert id in v'.runs;
    }
  }

  lemma GrowsSet(v: View, id: RunId, q: Run)
    requires id in v.runs ==> RunGrows(v.runs[id], q)
    ensures Grows(v, VSetRun(v, id, q))
  {}

  lemma GrowsTrans(u: View, v: View, w: View)
    requires Grows(u, v) && Grows(v, w)
    ensures Grows(u, w)
  {}

  // ---- Preservation --------------------------------------------------------

  /** The sources of a run's promises and proposal stay in place. */
  lemma SourcesStay(v: View, v': View, q: Run, q': Run)
    requires Grows(v, v') && PromisesOk(v, q) && (Proposed(q) ==> RequestedOp(v, q.proposal))
    requires q'.round == q.round && q'.proposal == q.proposal && q'.promises == q.promises
    ensures PromisesOk(v', q') && (Proposed(q') ==> RequestedOp(v', q'.proposal))
  {
    GrowsKeeps(v, v');
  }

  lemma RunStays(v: View, v': View, key: Key, q: Run)
    requires Grows(v, v') && RunOk(v, key, q)
    ensures RunOk(v', key, q)
  {
    SourcesStay(v, v', q, q);
  }

  lemma LogStays(v: View, v': View, log: Log)
    requires Grows(v, v') && LogOk(v, log)
    ensures LogOk(v', log)
  {
    GrowsKeeps(v, v');
  }

  lemma EntriesStay(v: View, v': View, h: seq<Entry>)
    requires Grows(v, v') && EntriesOk(v, h)
    ensures EntriesOk(v', h)
  {
    GrowsKeeps(v, v');
  }

  /** A value that is stored was requested. */
  ghost predicate ValueRequested(v: View, value: Option<Value>) {
    value.Some? ==> RequestedOp(v, Op(Set, value.value))
  }

  lemma ValueStays(v: View, v': View, value: Option<Value>)
    requires Grows(v, v') && ValueRequested(v, value)
    ensures ValueRequested(v', value)
  {
    GrowsKeeps(v, v');
  }

  lemma LogsStay(v: View, v': View)
    requires Grows(v, v') && forall a :: a in v.logs ==> LogOk(v, v.logs[a])
    ensures forall a :: a in v.logs ==> LogOk(v', v.logs[a])
  {
    forall a | a in v.logs ensures LogOk(v', v.logs[a]) { LogStays(v, v', v.logs[a]); }
  }

  lemma RunsStayOk(v: View, v': View, key: Key)
    requires Grows(v, v') && forall id :: id in v.runs ==> RunOk(v, key, v.runs[id])
    ensures forall id :: id in v.runs ==> RunOk(v', key, v.runs[id])
  {
    forall id | id in v.runs ensures RunOk(v', key, v.runs[id]) { RunStays(v, v', key, v.runs[id]); }
  }

  lemma HistoriesStay(v: View, v': View)
    requires Grows(v, v') && EntriesOk(v, v.decided) && forall a :: a in v.hist ==> EntriesOk(v, v.hist[a])
    ensures EntriesOk(v', v.decided) && forall a :: a in v.hist ==> EntriesOk(v', v.hist[a])
  {
    EntriesStay(v, v', v.decided);
    forall a | a in v.hist ensures EntriesOk(v', v.hist[a]) { EntriesStay(v, v', v.hist[a]); }
  }

  lemma ValuesStay(v: View, v': View)
    requires Grows(v, v') && forall a :: a in v.vals ==> ValueRequested(v, v.vals[a])
    ensures forall a :: a in v.vals ==> ValueRequested(v', v.vals[a])
  {
    forall a | a in v.vals ensures ValueRequested(v', v.vals[a]) { ValueStays(v, v', v.vals[a]); }
  }

  lemma InvSetRun(v: View, key: Key, id: RunId, q: Run)
    requires Inv(v, key)
    requires id in v.runs ==> RunGrows(v.runs[id], q)
    requires RunOk(VSetRun(v, id, q), key, q)
    ensures Grows(v, VSetRun(v, id, q)) && Inv(VSetRun(v, id, q), key)
  {
    var v' := VSetRun(v, id, q);
    assert Grows(v, v');
    LogsStay(v, v');
    RunsStayOk(v, v', key);
    HistoriesStay(v, v');
    ValuesStay(v, v');
  }

  lemma InvSetLog(v: View, key: Key, a: Addr, log: Log)
    requires Inv(v, key) && a in v.logs && LogOk(v, log)
    ensures Inv(v.(logs := v.logs[a := log]), key)
  {
    var v' := v.(logs := v.logs[a := log]);
    assert Grows(v, v');
    LogStays(v, v', log);
    LogsStay(v, v');
    RunsStayOk(v, v', key);
    HistoriesStay(v, v');
    ValuesStay(v, v');
  }

  lemma InvSetValue(v: View, key: Key, a: Addr, value: Option<Value>)
    requires Inv(v, key) && a in v.logs && ValueRequested(v, value)
    ensures Inv(v.(vals := v.vals[a := value]), key) && Grows(v, v.(vals := v.vals[a := value]))
  {
    var v' := v.(vals := v.vals[a := value]);
    assert Grows(v, v');
    ValueStays(v, v', value);
    LogsStay(v, v');
    RunsStayOk(v, v', key);
    HistoriesStay(v, v');
    ValuesStay(v, v');
  }

  lemma InvSetEntries(v: View, key: Key, a: Addr, h: seq<Entry>)
    requires Inv(v, key) && a in v.logs && EntriesOk(v, h)
    ensures Inv(v.(hist := v.hist[a := h]), key)
  {
    var v' := v.(hist := v.hist[a := h]);
    assert Grows(v, v');
    EntriesStay(v, v', h);
    LogsStay(v, v');
    RunsStayOk(v, v', key);
    HistoriesStay(v, v');
    ValuesStay(v, v');
  }

  lemma InvSetHist(v: View, key: Key, a: Addr, value: Option<Value>, h: seq<Entry>)
    requires Inv(v, key) && a in v.logs && EntriesOk(v, h) && ValueRequested(v, value)
    ensures Inv(v.(vals := v.vals[a := value], hist := v.hist[a := h]), key)
  {
    InvSetValue(v, key, a, value);
    EntriesStay(v, v.(vals := v.vals[a := value]), h);
    InvSetEntries(v.(vals := v.vals[a := value]), key, a, h);
  }

  /** A proposed operation may be accepted at its round. */
  lemma AcceptOk(v: View, key: Key, id: RunId, log: Log)
    requires Inv(v, key) && id in v.runs && Proposed(v.runs[id]) && LogOk(v, log)
    ensures LogOk(v, SetAccepted(log, v.runs[id].round, PROPOSE_ID, v.runs[id].proposal))
  {
    assert ProposedAt(v, v.runs[id].round, v.runs[id].proposal);
  }

  /** The log and bookkeeping part of an Inform. */
  lemma InvInformed(v: View, key: Key, id: RunId, a: Addr)
    requires Inv(v, key) && id in v.runs && a in v.runs[id].live && v.runs[id].phase == Informing
    ensures var q := v.runs[id];
      var v1 := v.(logs := v.logs[a := SetAccepted(v.logs[a], q.round, PROPOSE_ID, q.proposal)]);
      var w := VSetRun(v1, id, q.(informed := q.informed + {a}));
      Grows(v, w) && Inv(w, key)
  {
    var q := v.runs[id];
    var log, q' := SetAccepted(v.logs[a], q.round, PROPOSE_ID, q.proposal), q.(informed := q.informed + {a});
    var v1 := v.(logs := v.logs[a := log]);
    assert Inv(v1, key) by {
      AcceptOk(v, key, id, v.logs[a]);
      InvSetLog(v, key, a, log);
    }
    assert q'.informed <= q'.live by { assert RunOk(v, key, q); }
    InformedRunOk(v, v1, key, id, q');
    InvSetRun(v1, key, id, q');
  }

  lemma InformedRunOk(v: View, v1: View, key: Key, id: RunId, q': Run)
    requires Inv(v, key) && id in v.runs && v.runs[id].phase == Informing
    requires v1 == v.(logs := v1.logs) && v1.logs.Keys == v.logs.Keys
    requires q' == v.runs[id].(informed := q'.informed) && v.runs[id].informed <= q'.informed <= q'.live
    ensures RunGrows(v.runs[id], q') && Grows(v, VSetRun(v1, id, q')) && RunOk(VSetRun(v1, id, q'), key, q')
  {
    assert RunOk(v, key, v.runs[id]);
    GrowsSet(v, id, q');
    GrowsSet(v1, id, q');
    SourcesStay(v, VSetRun(v1, id, q'), v.runs[id], q');
  }

  lemma InvInform(v: View, key: Key, id: RunId, a: Addr)
    requires Inv(v, key) && id in v.runs && a in v.runs[id].live && v.runs[id].phase == Informing
    ensures Grows(v, VInform(v, id, a)) && Inv(VInform(v, id, a), key)
  {
    var q := v.runs[id];
    assert RunOk(v, key, q);
    InvInformed(v, key, id, a);
    var v1 := v.(logs := v.logs[a := SetAccepted(v.logs[a], q.round, PROPOSE_ID, q.proposal)]);
    var w := VSetRun(v1, id, q.(informed := q.informed + {a}));
    if Executes(v.logs[a], q.round) { InvExecute(w, key, id, a); }
  }

  /** Executing a decided operation. */
  lemma InvExecute(v: View, key: Key, id: RunId, a: Addr)
    requires Inv(v, key) && id in v.runs && a in v.logs && Decided(v.runs[id])
    ensures var q := v.runs[id];
      Inv(v.(vals := v.vals[a := ApplyOp(q.proposal, v.vals[a])],
             hist := v.hist[a := v.hist[a] + [Entry(id, q.round, q.proposal)]]), key)
  {
    var q := v.runs[id];
    assert RunOk(v, key, q) && EntriesOk(v, v.hist[a]);
    assert q.proposal.kind == Set ==> q.proposal == Op(Set, q.proposal.value);
    InvSetHist(v, key, a, ApplyOp(q.proposal, v.vals[a]), v.hist[a] + [Entry(id, q.round, q.proposal)]);
  }

  lemma InvPropose(v: View, key: Key, id: RunId, a: Addr, fail: bool)
    requires Inv(v, key) && id in v.runs && a in v.logs && Proposed(v.runs[id])
    ensures var q := v.runs[id];
      Inv(v.(logs := v.logs[a := ProposeLog(v.logs[a], q.key, q.round, PROPOSE_ID, q.proposal, fail)]), key)
  {
    var q := v.runs[id];
    assert LogOk(v, v.logs[a]);
    AcceptOk(v, key, id, v.logs[a]);
    InvSetLog(v, key, a, ProposeLog(v.logs[a], q.key, q.round, PROPOSE_ID, q.proposal, fail));
  }

  lemma InvPrepare(v: View, key: Key, a: Addr, round: nat)
    requires Inv(v, key) && a in v.logs
    ensures Inv(v.(logs := v.logs[a := AddSlot(v.logs[a], round)]), key)
  {
    assert LogOk(v, v.logs[a]);
    InvSetLog(v, key, a, AddSlot(v.logs[a], round));
  }

  lemma InvDeliver(v: View, key: Key, id: RunId, rpc: Rpc, a: Addr, fail: bool)
    requires Inv(v, key) && id in v.runs && a in v.runs[id].live && Sent(rpc, v.runs[id].phase)
    ensures Grows(v, VDeliver(v, id, rpc, a, fail)) && Inv(VDeliver(v, id, rpc, a, fail), key)
  {
    assert RunOk(v, key, v.runs[id]);
    match rpc
    case PrepareRpc => InvPrepare(v, key, a, v.runs[id].round);
    case ProposeRpc => InvPropose(v, key, id, a, fail);
    case InformRpc => InvInform(v, key, id, a);
  }

  lemma InvStart(v: View, key: Key, e: Event)
    requires Inv(v, key) && VEnabled(v, e) && e.Start? && e.req.key == key
    ensures Grows(v, VApply(v, e)) && Inv(VApply(v, e), key)
  {
    InvSetRun(v, key, e.id, NewRun(e.proposer, e.req, v.logs[e.proposer]));
  }

  lemma InvPing(v: View, key: Key, e: Event)
    requires Inv(v, key) && VEnabled(v, e) && e.Ping?
    ensures Grows(v, VApply(v, e)) && Inv(VApply(v, e), key)
  {
    var q := v.runs[e.id];
    assert RunOk(v, key, q);
    InvSetRun(v, key, e.id, AfterPing(q, e.live));
  }

  lemma CallShape(members: set<Addr>, key: Key, q: Run, a: Addr, outcome: Outcome, log: Log)
    requires RunShape(members, key, q) && CallPhase(q.phase) && a in q.todo
    ensures RunShape(members, key, AfterCall(q, a, outcome, log))
    ensures RunGrows(q, AfterCall(q, a, outcome, log))
  {}

  lemma CallSources(v: View, v': View, key: Key, q: Run, a: Addr, outcome: Outcome, log: Log)
    requires Grows(v, v') && LogOk(v, log) && RunOk(v, key, q)
    ensures PromisesOk(v', AfterCall(q, a, outcome, log))
    ensures Proposed(q) ==> RequestedOp(v', q.proposal)
  {
    GrowsKeeps(v, v');
    var q' := AfterCall(q, a, outcome, log);
    if |q'.promises| > |q.promises| {
      assert q'.promises[..|q.promises|] == q.promises;
    }
  }

  lemma InvCall(v: View, key: Key, id: RunId, a: Addr, o: Outcome)
    requires Inv(v, key) && VEnabled(v, Call(id, a, o))
    ensures Grows(v, VCall(v, id, a, o)) && Inv(VCall(v, id, a, o), key)
  {
    assert RunOk(v, key, v.runs[id]) && LogOk(v, v.logs[a]);
    if o.Handled? {
      var v1 := VDeliver(v, id, RpcOf(v.runs[id].phase), a, o.fail);
      InvDeliver(v, key, id, RpcOf(v.runs[id].phase), a, o.fail);
      GrowsKeeps(v, v1);
      InvBookkeep(v1, key, id, a, o, v.logs[a]);
      GrowsTrans(v, v1, VCall(v, id, a, o));
    } else {
      InvBookkeep(v, key, id, a, o, v.logs[a]);
    }
  }

  lemma InvBookkeep(v: View, key: Key, id: RunId, a: Addr, o: Outcome, log: Log)
    requires Inv(v, key) && id in v.runs && CallPhase(v.runs[id].phase) && a in v.runs[id].todo && LogOk(v, log)
    ensures var w := VSetRun(v, id, AfterCall(v.runs[id], a, o, log)); Grows(v, w) && Inv(w, key)
  {
    var q := v.runs[id];
    var q' := AfterCall(q, a, o, log);
    assert RunOk(v, key, q);
    CallShape(v.logs.Keys, key, q, a, o, log);
    GrowsSet(v, id, q');
    CallSources(v, VSetRun(v, id, q'), key, q, a, o, log);
    InvSetRun(v, key, id, q');
  }

  /** What the end of the promise phase proposes was requested, and is accepted at
      this round already if it was adopted. */
  lemma ChosenOk(v: View, key: Key, q: Run)
    requires Inv(v, key) && RunOk(v, key, q) && RequestedOp(v, q.op)
    ensures RequestedOp(v, Chosen(q.promises, q.op)) && Chosen(q.promises, q.op).kind != NotSet
    ensures Adopt(q.promises).0 > 0 ==> ProposedAt(v, q.round, Chosen(q.promises, q.op))
  {
    var i := AdoptIsEarliestMaximum(q.promises);
    if Adopt(q.promises).0 > 0 {
      assert ProposedAt(v, q.round, q.promises[i].promise.op);
      var id :| id in v.runs && v.runs[id].round == q.round && v.runs[id].proposal == q.promises[i].promise.op
                && Proposed(v.runs[id]);
      assert RunOk(v, key, v.runs[id]);
    }
  }

  lemma InvDecide(v: View, key: Key, e: Entry)
    requires Inv(v, key) && EntryOk(v, e)
    ensures Grows(v, v.(decided := v.decided + [e])) && Inv(v.(decided := v.decided + [e]), key)
  {
    var w := v.(decided := v.decided + [e]);
    assert Grows(v, w);
    GrowsKeeps(v, w);
    forall i | i in w.runs ensures RunOk(w, key, w.runs[i]) { RunStays(v, w, key, v.runs[i]); }
    forall b | b in w.logs ensures LogOk(w, w.logs[b]) { assert LogOk(v, v.logs[b]); }
  }

  lemma PhaseShape(members: set<Addr>, key: Key, q: Run)
    requires RunShape(members, key, q) && CallPhase(q.phase) && Chosen(q.promises, q.op).kind != NotSet
    ensures RunShape(members, key, AfterPhase(q)) && RunGrows(q, AfterPhase(q))
  {}

  lemma ChosenRequested(v: View, w: View, key: Key, q: Run)
    requires Inv(v, key) && RunOk(v, key, q) && RequestedOp(v, q.op) && Grows(v, w)
    ensures RequestedOp(w, Chosen(q.promises, q.op))
  {
    ChosenOk(v, key, q);
    GrowsKeeps(v, w);
  }

  lemma PhaseKeeps(q: Run)
    ensures AfterPhase(q).promises == q.promises && AfterPhase(q).round == q.round
    ensures AfterPhase(q).proposal == q.proposal || AfterPhase(q).proposal == Chosen(q.promises, q.op)
  {}

  lemma PhaseSources(v: View, w: View, key: Key, q: Run)
    requires Inv(v, key) && RunOk(v, key, q) && RequestedOp(v, q.op) && Grows(v, w)
    ensures PromisesOk(w, AfterPhase(q))
    ensures Proposed(AfterPhase(q)) ==> RequestedOp(w, AfterPhase(q).proposal)
  {
    ChosenRequested(v, w, key, q);
    SourcesStay(v, w, q, q);
    PhaseKeeps(q);
  }

  lemma InvAdvance(v: View, key: Key, id: RunId)
    requires Inv(v, key) && VEnabled(v, Advance(id))
    ensures Grows(v, VAdvance(v, id)) && Inv(VAdvance(v, id), key)
  {
    var q := v.runs[id];
    assert RunOk(v, key, q) && RequestedOp(v, q.op);
    ChosenOk(v, key, q);
    PhaseShape(v.logs.Keys, key, q);
    var w := VSetRun(v, id, AfterPhase(q));
    GrowsSet(v, id, AfterPhase(q));
    PhaseSources(v, w, key, q);
    InvSetRun(v, key, id, AfterPhase(q));
    if ReachesConsensus(q) {
      InvDecide(w, key, Entry(id, q.round, q.proposal));
      GrowsTrans(v, w, VAdvance(v, id));
    }
  }

  lemma InvRestart(v: View, key: Key, a: Addr)
    requires Inv(v, key) && a in v.logs
    ensures Grows(v, VRestart(v, a)) && Inv(VRestart(v, a), key)
  {
    InvSetLog(v, key, a, map[]);
    InvSetHist(v.(logs := v.logs[a := map[]]), key, a, None, []);
  }

  lemma UnionOk(v: View, log: Log, over: Log)
    requires LogOk(v, log) && LogOk(v, over)
    ensures LogOk(v, log + over)
  {}

  lemma InvRecover(v: View, key: Key, a: Addr, source: Addr)
    requires Inv(v, key) && a in v.logs && source in v.logs
    ensures Grows(v, VRecover(v, a, source)) && Inv(VRecover(v, a, source), key)
  {
    var w := VRecover(v, a, source);
    UnionOk(v, v.logs[a], v.logs[source]);
    InvSetLog(v, key, a, w.logs[a]);
    InvSetHist(v.(logs := v.logs[a := w.logs[a]]), key, a, w.vals[a], w.hist[a]);
  }

  /** Every step preserves the invariant, and runs only grow. */
  lemma InvStep(v: View, key: Key, e: Event)
    requires Inv(v, key) && VEnabled(v, e) && (e.Start? ==> e.req.key == key)
    ensures Grows(v, VApply(v, e)) && Inv(VApply(v, e), key)
  {
    match e
    case Start(_, _, _) => InvStart(v, key, e);
    case Ping(_, _) => InvPing(v, key, e);
    case Call(id, a, o) => InvCall(v, key, id, a, o);
    case Late(id, a, rpc, fail) => InvDeliver(v, key, id, rpc, a, fail);
    case Advance(id) => InvAdvance(v, key, id);
    case Restart(a) => InvRestart(v, key, a);
    case Recover(a, source) => InvRecover(v, key, a, source);
  }

  // ---- All reachable states ------------------------------------------------

  lemma InitInv(stubs: set<Addr>, key: Key)
    ensures Inv(ViewOf(Init(stubs), key), key)
  {}

  lemma {:induction false} InvExec(s: System, es: seq<Event>, key: Key)
    requires Wf(s) && Valid(s, es) && Inv(ViewOf(s, key), key)
    ensures Inv(ViewOf(Exec(s, es), key), key) && Grows(ViewOf(s, key), ViewOf(Exec(s, es), key))
    decreases |es|
  {
    if es != [] {
      var s1 := Apply(s, es[0]);
      ViewStep(s, es[0], key);
      if Concerns(s, es[0], key) { InvStep(ViewOf(s, key), key, es[0]); }
      InvExec(s1, es[1..], key);
      GrowsTrans(ViewOf(s, key), ViewOf(s1, key), ViewOf(Exec(s, es), key));
    }
  }

  /** The invariant holds in every reachable state, for every key. */
  lemma InvAlways(stubs: set<Addr>, es: seq<Event>, key: Key)
    requires Valid(Init(stubs), es)
    ensures Inv(ViewOf(Exec(Init(stubs), es), key), key)
  {
    InitInv(stubs, key);
    InvExec(Init(stubs), es, key);
  }

  // ---- Promises are never recorded -----------------------------------------

  /** promised_id is 0 in every reachable log, so the id guards of Prepare and
      Propose never fire: only a random failure makes an acceptor refuse. */
  lemma PromisedIdGuardsNeverFire(stubs: set<Addr>, es: seq<Event>, a: Addr, key: Key, round: nat, op: Op, fail: bool)
    requires Valid(Init(stubs), es) && a in stubs
    ensures var log := LogOf(Exec(Init(stubs), es).replicas[a], key);
      EntryAt(log, round).promisedId == 0 &&
      (PrepareReply(log, key, round, PROPOSE_ID, fail).Aborted? <==> key != COORDINATOR_KEY && fail) &&
      (ProposeReply(log, key, round, PROPOSE_ID, op, fail).Aborted? <==> key != COORDINATOR_KEY && fail)
  {
    assert Inv(ViewOf(Exec(Init(stubs), es), key), key) by { InvAlways(stubs, es, key); }
    UnpromisedIn(Exec(Init(stubs), es), a, key, round);
    GuardsNeverFire(LogOf(Exec(Init(stubs), es).replicas[a], key), key, round, op, fail);
  }

  lemma UnpromisedIn(s: System, a: Addr, key: Key, round: nat)
    requires Wf(s) && a in s.stubs && Inv(ViewOf(s, key), key)
    ensures EntryAt(LogOf(s.replicas[a], key), round).promisedId == 0
  {
    assert LogOk(ViewOf(s, key), ViewOf(s, key).logs[a]);
  }

  lemma GuardsNeverFire(log: Log, key: Key, round: nat, op: Op, fail: bool)
    requires EntryAt(log, round).promisedId == 0
    ensures PrepareReply(log, key, round, PROPOSE_ID, fail).Aborted? <==> key != COORDINATOR_KEY && fail
    ensures ProposeReply(log, key, round, PROPOSE_ID, op, fail).Aborted? <==> key != COORDINATOR_KEY && fail
  {}

  // ---- Validity ------------------------------------------------------------

  /** The behaviour contains a request for this operation on this key. */
  ghost predicate RequestIn(es: seq<Event>, key: Key, op: Op) {
    exists i :: 0 <= i < |es| && es[i].Start? && es[i].req.key == key && ProposeValue(es[i].req) == op
  }

  lemma {:induction false} RunsComeFromRequests(s: System, es: seq<Event>, id: RunId)
    requires Wf(s) && Valid(s, es) && id in Exec(s, es).runs && id !in s.runs
    ensures RequestIn(es, Exec(s, es).runs[id].key, Exec(s, es).runs[id].op)
    decreases |es|
  {
    var s1 := Apply(s, es[0]);
    var t := Exec(s, es).runs[id];
    if id in s1.runs {
      StartMakesRun(s, es[0], id);
      RunsKeepRequest(s1, es[1..], id);
    } else {
      RunsComeFromRequests(s1, es[1..], id);
      var i :| 0 <= i < |es[1..]| && es[1..][i].Start? && es[1..][i].req.key == t.key
               && ProposeValue(es[1..][i].req) == t.op;
      assert es[i + 1] == es[1..][i];
    }
  }

  lemma StartMakesRun(s: System, e: Event, id: RunId)
    requires Wf(s) && Enabled(s, e) && id in Apply(s, e).runs && id !in s.runs
    ensures e.Start? && e.req.key == Apply(s, e).runs[id].key && ProposeValue(e.req) == Apply(s, e).runs[id].op
  {}

  lemma {:induction false} RunsKeepRequest(s: System, es: seq<Event>, id: RunId)
    requires Wf(s) && Valid(s, es) && id in s.runs
    ensures id in Exec(s, es).runs && Exec(s, es).runs[id].key == s.runs[id].key
    ensures Exec(s, es).runs[id].op == s.runs[id].op
    decreases |es|
  {
    if es != [] {
      StepKeepsRequest(s, es[0], id);
      RunsKeepRequest(Apply(s, es[0]), es[1..], id);
    }
  }

  lemma DeliverKeepsRequest(s: System, i: RunId, rpc: Rpc, a: Addr, fail: bool, id: RunId)
    requires Wf(s) && i in s.runs && a in s.stubs && id in s.runs
    ensures var t := Deliver(s, i, rpc, a, fail);
      id in t.runs && t.runs[id].key == s.runs[id].key && t.runs[id].op == s.runs[id].op
  {
    DeliverRuns(s, i, rpc, a, fail);
  }

  lemma StepKeepsRequest(s: System, e: Event, id: RunId)
    requires Wf(s) && Enabled(s, e) && id in s.runs
    ensures id in Apply(s, e).runs && Apply(s, e).runs[id].key == s.runs[id].key
    ensures Apply(s, e).runs[id].op == s.runs[id].op
  {
    match e
    case Call(i, a, o) =>
      if o.Handled? { DeliverKeepsRequest(s, i, RpcOf(s.runs[i].phase), a, o.fail, id); }
      CallRuns(s, i, a, o);
    case Late(i, a, rpc, fail) => DeliverKeepsRequest(s, i, rpc, a, fail, id);
    case _ =>
  }

  lemma RequestedMeansRequest(stubs: set<Addr>, es: seq<Event>, key: Key, op: Op)
    requires Valid(Init(stubs), es) && RequestedOp(ViewOf(Exec(Init(stubs), es), key), op)
    ensures RequestIn(es, key, op)
  {
    var s := Exec(Init(stubs), es);
    var id :| id in ViewOf(s, key).runs && ViewOf(s, key).runs[id].op == op;
    RunsComeFromRequests(Init(stubs), es, id);
  }

  /** Whatever an acceptor holds, a run proposes or informs, or a data map stores was
      requested earlier on the same key, through any adoption and recovery. */
  lemma Validity(stubs: set<Addr>, es: seq<Event>, key: Key)
    requires Valid(Init(stubs), es)
    ensures var s := Exec(Init(stubs), es);
      (forall a, r | a in s.stubs && r in LogOf(s.replicas[a], key) && LogOf(s.replicas[a], key)[r].acceptedId > 0 ::
        RequestIn(es, key, LogOf(s.replicas[a], key)[r].accepted)) &&
      (forall id | id in s.runs && s.runs[id].key == key && Proposed(s.runs[id]) ::
        RequestIn(es, key, s.runs[id].proposal)) &&
      (forall a | a in s.stubs && key in s.replicas[a].data ::
        RequestIn(es, key, Op(Set, s.replicas[a].data[key])))
  {
    var s := Exec(Init(stubs), es);
    assert AllRequested(s, key) by {
      InvAlways(stubs, es, key);
      InvRequested(s, key);
    }
    forall op | RequestedOp(ViewOf(s, key), op) ensures RequestIn(es, key, op) {
      RequestedMeansRequest(stubs, es, key, op);
    }
  }

  /** Whatever is accepted, proposed or stored is the operation of some run. */
  ghost predicate AllRequested(s: System, key: Key)
    requires Wf(s)
  {
    var v := ViewOf(s, key);
    (forall a, r | a in s.stubs && r in LogOf(s.replicas[a], key) && LogOf(s.replicas[a], key)[r].acceptedId > 0 ::
      RequestedOp(v, LogOf(s.replicas[a], key)[r].accepted)) &&
    (forall id | id in s.runs && s.runs[id].key == key && Proposed(s.runs[id]) ::
      RequestedOp(v, s.runs[id].proposal)) &&
    (forall a | a in s.stubs && key in s.replicas[a].data :: RequestedOp(v, Op(Set, s.replicas[a].data[key])))
  }

  lemma InvRequested(s: System, key: Key)
    requires Wf(s) && Inv(ViewOf(s, key), key)
    ensures AllRequested(s, key)
  {
    var v := ViewOf(s, key);
    forall id | id in s.runs && s.runs[id].key == key && Proposed(s.runs[id])
      ensures RequestedOp(v, s.runs[id].proposal)
    {
      assert RunOk(v, key, v.runs[id]);
    }
    forall a, r | a in s.stubs && r in LogOf(s.replicas[a], key) && LogOf(s.replicas[a], key)[r].acceptedId > 0
      ensures RequestedOp(v, LogOf(s.replicas[a], key)[r].accepted)
    {
      assert LogOk(v, v.logs[a]);
      AcceptedWasRequested(v, key, r, v.logs[a][r].accepted);
    }
    forall a | a in s.stubs && key in s.replicas[a].data
      ensures RequestedOp(v, Op(Set, s.replicas[a].data[key]))
    {
      assert ValueRequested(v, v.vals[a]) && v.vals[a] == Some(s.replicas[a].data[key]);
    }
  }

  lemma AcceptedWasRequested(v: View, key: Key, round: nat, op: Op)
    requires Inv(v, key) && ProposedAt(v, round, op)
    ensures RequestedOp(v, op) && FitsKey(key, op)
  {
    var id :| id in v.runs && v.runs[id].round == round && v.runs[id].proposal == op && Proposed(v.runs[id]);
    assert RunOk(v, key, v.runs[id]);
    var i :| i in v.runs && v.runs[i].op == op;
    assert RunOk(v, key, v.runs[i]);
  }

  ghost predicate CoordinatorsOk(s: System)
    requires Wf(s)
  {
    forall a :: a in s.stubs ==> s.replicas[a].coordinator == "" || s.replicas[a].coordinator in s.stubs
  }

  lemma {:induction false} CoordinatorsAreMembers(s: System, es: seq<Event>)
    requires Wf(s) && Valid(s, es) && CoordinatorsOk(s)
    ensures CoordinatorsOk(Exec(s, es))
    decreases |es|
  {
    if es != [] {
      CoordinatorStep(s, es[0]);
      CoordinatorsAreMembers(Apply(s, es[0]), es[1..]);
    }
  }

  /** A handler stores only members as coordinator. */
  lemma DeliverCoordinator(s: System, id: RunId, rpc: Rpc, a: Addr, fail: bool)
    requires Wf(s) && id in s.runs && a in s.stubs
    ensures var r' := Deliver(s, id, rpc, a, fail).replicas[a];
      r'.coordinator == s.replicas[a].coordinator || r'.coordinator in s.stubs
    ensures Deliver(s, id, rpc, a, fail).replicas == s.replicas[a := Deliver(s, id, rpc, a, fail).replicas[a]]
  {}

  lemma DeliveredCoordinators(s: System, id: RunId, rpc: Rpc, a: Addr, fail: bool)
    requires Wf(s) && id in s.runs && a in s.stubs && CoordinatorsOk(s)
    ensures Wf(Deliver(s, id, rpc, a, fail)) && CoordinatorsOk(Deliver(s, id, rpc, a, fail))
  {
    DeliverCoordinator(s, id, rpc, a, fail);
  }

  lemma CalledCoordinators(s: System, e: Event)
    requires Wf(s) && Enabled(s, e) && CoordinatorsOk(s) && e.Call?
    ensures CoordinatorsOk(Apply(s, e))
  {
    if e.outcome.Handled? { DeliveredCoordinators(s, e.id, RpcOf(s.runs[e.id].phase), e.a, e.outcome.fail); }
  }

  lemma CoordinatorStep(s: System, e: Event)
    requires Wf(s) && Enabled(s, e) && CoordinatorsOk(s)
    ensures CoordinatorsOk(Apply(s, e))
  {
    match e
    case Call(_, _, _) => CalledCoordinators(s, e);
    case Late(id, a, rpc, fail) => DeliveredCoordinators(s, id, rpc, a, fail);
    case _ =>
  }

  /** The reserved key never enters a data map. */
  lemma ReservedKeyIsNeverStored(stubs: set<Addr>, es: seq<Event>, a: Addr)
    requires Valid(Init(stubs), es) && a in stubs
    ensures COORDINATOR_KEY !in Exec(Init(stubs), es).replicas[a].data
  {
    InvAlways(stubs, es, COORDINATOR_KEY);
    NotStoredIn(Exec(Init(stubs), es), a);
  }

  lemma NotStoredIn(s: System, a: Addr)
    requires Wf(s) && a in s.stubs && Inv(ViewOf(s, COORDINATOR_KEY), COORDINATOR_KEY)
    ensures COORDINATOR_KEY !in s.replicas[a].data
  {
    var v := ViewOf(s, COORDINATOR_KEY);
    if v.vals[a].Some? { StoredOnWritableKey(v, COORDINATOR_KEY, a); }
  }

  lemma StoredOnWritableKey(v: View, key: Key, a: Addr)
    requires Inv(v, key) && a in v.vals && v.vals[a].Some?
    ensures key != COORDINATOR_KEY
  {
    var i :| i in v.runs && v.runs[i].op == Op(Set, v.vals[a].value);
    assert RunOk(v, key, v.runs[i]);
  }

  /** Elections stay on their own key: a SET_COORDINATOR is accepted nowhere else, the
      reserved key never enters a data map, and a stored coordinator is a member. */
  lemma ElectionsStayApart(stubs: set<Addr>, es: seq<Event>, a: Addr, key: Key, round: nat)
    requires Valid(Init(stubs), es) && a in stubs
    ensures var r := Exec(Init(stubs), es).replicas[a];
      (round in LogOf(r, key) && LogOf(r, key)[round].acceptedId > 0 ==>
        (LogOf(r, key)[round].accepted.kind == SetCoordinator <==> key == COORDINATOR_KEY)) &&
      COORDINATOR_KEY !in r.data &&
      (r.coordinator == "" || r.coordinator in stubs)
  {
    var s := Exec(Init(stubs), es);
    CoordinatorsAreMembers(Init(stubs), es);
    InvAlways(stubs, es, key);
    var v := ViewOf(s, key);
    assert LogOk(v, v.logs[a]);
    if round in v.logs[a] && v.logs[a][round].acceptedId > 0 {
      AcceptedWasRequested(v, key, round, v.logs[a][round].accepted);
    }
    ReservedKeyIsNeverStored(stubs, es, a);
  }
}
