/** One writable key under one coordinator c, with at most one run in flight on the
    key: c's latest round bounds every slot, so nothing is ever adopted. */
module Serial {
  import opened Types
  import opened Handlers
  import opened System
  import opened KeyView
  import opened Safety
  import opened Learner

  predicate Active(v: View, id: RunId) { id in v.runs && InFlight(v.runs[id]) }

  ghost predicate NoneActive(v: View) { forall id :: id in v.runs ==> !InFlight(v.runs[id]) }

  /** The coordinator's latest round of the key. */
  function Top(v: View, c: Addr): nat { if c in v.logs then LatestRound(v.logs[c]) else 0 }

  /** A slot may exceed the coordinator's latest round only while the run that made it
      is in flight. */
  ghost predicate SlotsOk(v: View, c: Addr, log: Log) {
    forall r :: r in log && r > Top(v, c) ==> exists id :: Active(v, id) && v.runs[id].round == r
  }

  predicate NothingAccepted(v: View, round: nat) {
    forall a :: a in v.logs ==> EntryAt(v.logs[a], round).acceptedId == 0
  }

  predicate NoneReported(q: Run) {
    forall i | 0 <= i < |q.promises| :: q.promises[i].promise.acceptedId == 0
  }

  /** The round of a run in flight, against the coordinator's latest round. */
  predicate RoundOk(q: Run, c: Addr, top: nat) {
    (InFlight(q) ==> q.proposer == c) &&
    match q.phase
    case Pinging => q.round == top + 1
    case Preparing => c in q.live && (q.round == top || (q.round == top + 1 && c in q.todo))
    case Proposing => c in q.live && q.round == top
    case Informing => c in q.live && q.round == top
    case Done(_) => q.live != {} ==> q.round <= top
  }

  predicate DecidedBefore(v: View, q: Run) {
    forall i | 0 <= i < |v.decided| :: v.decided[i].round < q.round
  }

  /** Nothing is accepted at the round of a run before it proposes, it proposes its own
      operation, and it decides exactly once. */
  predicate RunSerial(v: View, c: Addr, id: RunId, q: Run) {
    RoundOk(q, c, Top(v, c)) &&
    (Proposed(q) ==> q.proposal == q.op) &&
    (q.phase == Pinging || q.phase == Preparing ==> NothingAccepted(v, q.round) && NoneReported(q)) &&
    (q.phase == Pinging || q.phase == Preparing || q.phase == Proposing ==> DecidedBefore(v, q)) &&
    (Decided(q) ==> Entry(id, q.round, q.op) in v.decided) &&
    (q.phase == Informing ==>
      v.decided != [] && v.decided[|v.decided| - 1] == Entry(id, q.round, q.op))
  }

  predicate StrictlyInOrder(h: seq<Entry>) {
    forall i, j | 0 <= i < j < |h| :: h[i].round < h[j].round
  }

  predicate RoundsBounded(h: seq<Entry>, top: nat) { forall i | 0 <= i < |h| :: h[i].round <= top }

  predicate AllIn(h: seq<Entry>, d: seq<Entry>) { forall i | 0 <= i < |h| :: h[i] in d }

  /** A decision that the coordinator has not been informed of yet. */
  ghost predicate Unlinearized(v: View, c: Addr) {
    exists id :: Active(v, id) && v.runs[id].phase == Informing && c in v.runs[id].todo
  }

  /** The coordinator's value is what the decisions give, up to an unlinearized one. */
  ghost predicate ValueOk(v: View, c: Addr) {
    c in v.vals &&
    (v.vals[c] == ValueAfter(v.decided) ||
     (Unlinearized(v, c) && v.decided != [] && v.vals[c] == ValueAfter(v.decided[..|v.decided| - 1])))
  }

  ghost predicate OneActive(v: View) { forall i, j :: Active(v, i) && Active(v, j) ==> i == j }

  /** Runs that pinged anyone never share a round. */
  predicate RoundsDiffer(v: View) {
    forall i, j :: i in v.runs && j in v.runs && i != j && v.runs[i].live != {} && v.runs[j].live != {} ==>
      v.runs[i].round != v.runs[j].round
  }

  ghost predicate SerialInv(v: View, c: Addr) {
    c in v.logs && OneActive(v) && RoundsDiffer(v) && ValueOk(v, c) &&
    (forall a :: a in v.logs ==> SlotsOk(v, c, v.logs[a])) &&
    (forall id :: id in v.runs ==> RunSerial(v, c, id, v.runs[id])) &&
    StrictlyInOrder(v.decided) && RoundsBounded(v.decided, Top(v, c)) &&
    (forall a :: a in v.hist ==> AllIn(v.hist[a], v.decided))
  }

  // ---- Steps of the acceptors ----------------------------------------------

  /** log' is log with the run's round touched. */
  predicate Touches(log: Log, log': Log, q: Run) {
    (forall r :: r in log' ==> r in log || r == q.round) &&
    LatestRound(log') == Max(LatestRound(log), q.round) &&
    (q.phase == Preparing ==> EntryAt(log', q.round) == EntryAt(log, q.round))
  }

  lemma TopGrows(v: View, c: Addr, id: RunId, a: Addr, log: Log)
    requires SerialInv(v, c) && Active(v, id) && CallPhase(v.runs[id].phase) && a in v.logs
    requires Touches(v.logs[a], log, v.runs[id])
    ensures var v' := v.(logs := v.logs[a := log]);
      Top(v', c) == (if a == c then v.runs[id].round else Top(v, c)) && Top(v, c) <= Top(v', c)
  {
    assert RunSerial(v, c, id, v.runs[id]);
  }

  lemma SerialTouch(v: View, c: Addr, id: RunId, a: Addr, log: Log)
    requires WfView(v) && SerialInv(v, c) && Active(v, id) && CallPhase(v.runs[id].phase) && a in v.logs
    requires Touches(v.logs[a], log, v.runs[id])
    ensures SerialInv(v.(logs := v.logs[a := log]), c)
  {
    var v' := v.(logs := v.logs[a := log]);
    TopGrows(v, c, id, a, log);
    forall b | b in v'.logs ensures SlotsOk(v', c, v'.logs[b]) {
      TouchSlots(v, v', c, id, v.logs[b], v'.logs[b]);
    }
    forall i | i in v'.runs ensures RunSerial(v', c, i, v'.runs[i]) {
      TouchRun(v, c, id, a, log, i);
    }
    assert ValueOk(v', c) by { UnlinearizedSame(v, v', c); }
    assert OneActive(v') by { assert forall i :: Active(v', i) <==> Active(v, i); }
  }

  lemma TouchRun(v: View, c: Addr, id: RunId, a: Addr, log: Log, i: RunId)
    requires WfView(v) && SerialInv(v, c) && Active(v, id) && CallPhase(v.runs[id].phase) && a in v.logs
    requires Touches(v.logs[a], log, v.runs[id]) && i in v.runs
    ensures RunSerial(v.(logs := v.logs[a := log]), c, i, v.runs[i])
  {
    TopGrows(v, c, id, a, log);
    assert RunSerial(v, c, i, v.runs[i]) && RunSerial(v, c, id, v.runs[id]);
    if i != id { assert !Active(v, i); }
  }

  lemma TouchSlots(v: View, v': View, c: Addr, id: RunId, log: Log, log': Log)
    requires v'.runs == v.runs && Top(v, c) <= Top(v', c) && Active(v, id) && SlotsOk(v, c, log)
    requires forall r :: r in log' ==> r in log || r == v.runs[id].round
    ensures SlotsOk(v', c, log')
  {
    forall r | r in log' && r > Top(v', c) ensures exists i :: Active(v', i) && v'.runs[i].round == r {
      if r in log {
        var i :| Active(v, i) && v.runs[i].round == r;
        assert Active(v', i);
      } else {
        assert Active(v', id);
      }
    }
  }

  lemma UnlinearizedSame(v: View, v': View, c: Addr)
    requires v'.runs == v.runs
    ensures Unlinearized(v, c) <==> Unlinearized(v', c)
  {
    assert forall id :: Active(v, id) <==> Active(v', id);
  }

  // ---- Steps of the proposer -----------------------------------------------

  /** The run in flight moves to q, deciding its operation or not. */
  function Moved(v: View, id: RunId, q: Run, decide: bool): View {
    v.(runs := v.runs[id := q],
       decided := if decide then v.decided + [Entry(id, q.round, q.op)] else v.decided)
  }

  predicate MoveOk(v: View, c: Addr, id: RunId, q: Run, decide: bool) {
    Active(v, id) && q.round == v.runs[id].round &&
    (InFlight(q) || q.round <= Top(v, c)) &&
    (v.runs[id].live == {} ==> q.live != {} ==> q.round == Top(v, c) + 1) &&
    (v.runs[id].live != {} ==> q.live == v.runs[id].live) &&
    (decide ==> v.runs[id].phase == Proposing)
  }

  lemma SerialMove(v: View, c: Addr, id: RunId, q: Run, decide: bool)
    requires WfView(v) && SerialInv(v, c) && MoveOk(v, c, id, q, decide)
    requires RunSerial(Moved(v, id, q, decide), c, id, q) && ValueOk(Moved(v, id, q, decide), c)
    ensures SerialInv(Moved(v, id, q, decide), c)
  {
    var v' := Moved(v, id, q, decide);
    assert RunSerial(v, c, id, v.runs[id]);
    forall i | i in v'.runs ensures RunSerial(v', c, i, v'.runs[i]) {
      if i != id { MoveOthers(v, c, id, q, decide, i); }
    }
    assert OneActive(v') by { assert forall i :: Active(v', i) ==> Active(v, i); }
    forall a | a in v'.logs ensures SlotsOk(v', c, v'.logs[a]) { MoveSlots(v, c, id, q, decide, v.logs[a]); }
    forall a | a in v'.hist ensures AllIn(v'.hist[a], v'.decided) { assert AllIn(v.hist[a], v.decided); }
    MoveRounds(v, c, id, q, decide);
  }

  lemma MoveOthers(v: View, c: Addr, id: RunId, q: Run, decide: bool, i: RunId)
    requires SerialInv(v, c) && MoveOk(v, c, id, q, decide) && i in v.runs && i != id
    ensures RunSerial(Moved(v, id, q, decide), c, i, v.runs[i])
  {
    assert RunSerial(v, c, i, v.runs[i]);
    assert !Active(v, i);
  }

  lemma MoveSlots(v: View, c: Addr, id: RunId, q: Run, decide: bool, log: Log)
    requires SerialInv(v, c) && MoveOk(v, c, id, q, decide) && SlotsOk(v, c, log)
    ensures SlotsOk(Moved(v, id, q, decide), c, log)
  {
    var v' := Moved(v, id, q, decide);
    forall r | r in log && r > Top(v', c) ensures exists i :: Active(v', i) && v'.runs[i].round == r {
      var i :| Active(v, i) && v.runs[i].round == r;
      assert i == id && Active(v', id);
    }
  }

  lemma MoveRounds(v: View, c: Addr, id: RunId, q: Run, decide: bool)
    requires SerialInv(v, c) && MoveOk(v, c, id, q, decide)
    ensures RoundsDiffer(Moved(v, id, q, decide))
  {
    var v' := Moved(v, id, q, decide);
    forall i | i in v.runs && i != id && v.runs[i].live != {} && q.live != {}
      ensures v.runs[i].round != q.round
    {
      assert RunSerial(v, c, i, v.runs[i]) && !Active(v, i);
    }
  }

  lemma SerialStart(v: View, c: Addr, id: RunId, q: Run)
    requires WfView(v) && SerialInv(v, c) && NoneActive(v) && id !in v.runs
    requires q.proposer == c && q.phase == Pinging && q.round == Top(v, c) + 1
    requires q.live == {} && q.promises == [] && q.proposal == NO_OP
    ensures SerialInv(VSetRun(v, id, q), c)
  {
    var v' := VSetRun(v, id, q);
    assert forall i :: Active(v', i) ==> i == id;
    forall a | a in v'.logs ensures SlotsOk(v', c, v'.logs[a]) {
      NoSlotAbove(v, c, v.logs[a]);
    }
    forall i | i in v'.runs ensures RunSerial(v', c, i, v'.runs[i]) {
      if i == id { NothingAbove(v, c); } else { assert RunSerial(v, c, i, v.runs[i]); }
    }
    assert !Unlinearized(v, c);
    assert !Unlinearized(v', c);
  }

  /** At rest the coordinator's latest round bounds every slot on every replica. */
  lemma NoSlotAbove(v: View, c: Addr, log: Log)
    requires NoneActive(v) && SlotsOk(v, c, log)
    ensures forall r :: r in log ==> r <= Top(v, c)
  {
    assert forall id :: !Active(v, id);
  }

  lemma NothingAbove(v: View, c: Addr)
    requires SerialInv(v, c) && NoneActive(v)
    ensures NothingAccepted(v, Top(v, c) + 1)
  {
    forall a | a in v.logs ensures EntryAt(v.logs[a], Top(v, c) + 1).acceptedId == 0 {
      NoSlotAbove(v, c, v.logs[a]);
    }
  }

  // ---- Guarded steps -------------------------------------------------------

  /** The assumptions on one key: c alone proposes, one run at a time, on live sets
      that contain c; c handles its own calls in time; no crash. */
  ghost predicate Guarded(v: View, c: Addr, e: Event) {
    match e
    case Start(_, proposer, _) => proposer == c && NoneActive(v)
    case Ping(_, live) => c in live
    case Call(_, a, o) => a == c ==> o.Handled?
    case Late(_, a, _, _) => a != c
    case Advance(_) => true
    case _ => false
  }

  predicate ShapeOf(v: View, key: Key, id: RunId) {
    id in v.runs && RunShape(v.logs.Keys, key, v.runs[id])
  }

  lemma SerialPing(v: View, key: Key, c: Addr, id: RunId, live: set<Addr>)
    requires WfView(v) && SerialInv(v, c) && ShapeOf(v, key, id) && VEnabled(v, Ping(id, live)) && c in live
    ensures SerialInv(VSetRun(v, id, AfterPing(v.runs[id], live)), c)
  {
    var q := v.runs[id];
    var q' := AfterPing(q, live);
    assert RunSerial(v, c, id, q) && Active(v, id);
    var v' := Moved(v, id, q', false);
    MoveKeepsValue(v, c, id, q');
    SerialMove(v, c, id, q', false);
    assert v' == VSetRun(v, id, q');
  }

  /** Before the run informs, the coordinator's value is what all decisions give. */
  lemma LinearizedUntilInform(v: View, c: Addr, id: RunId)
    requires SerialInv(v, c) && Active(v, id) && (v.runs[id].phase != Informing || c !in v.runs[id].todo)
    ensures v.vals[c] == ValueAfter(v.decided)
  {
    assert !Unlinearized(v, c);
  }

  lemma MoveKeepsValue(v: View, c: Addr, id: RunId, q: Run)
    requires SerialInv(v, c) && Active(v, id) && v.runs[id].phase != Informing
    ensures ValueOk(Moved(v, id, q, false), c)
  {
    LinearizedUntilInform(v, c, id);
  }

  /** The coordinator's own Inform is executed: its value becomes the operation's. */
  lemma InformReachesCoordinator(v: View, key: Key, c: Addr, id: RunId)
    requires WfView(v) && SerialInv(v, c) && key != COORDINATOR_KEY && ShapeOf(v, key, id)
    requires id in v.runs && v.runs[id].phase == Informing
    ensures Executes(v.logs[c], v.runs[id].round)
    ensures VInform(v, id, c).vals[c] == ApplyOp(v.runs[id].op, v.vals[c]) == ValueAfter(v.decided)
  {
    var q := v.runs[id];
    assert RunSerial(v, c, id, q);
    var d := v.decided;
    ValueAfterAppend(d[..|d| - 1], d[|d| - 1]);
    assert d == d[..|d| - 1] + [d[|d| - 1]];
  }

  /** The log and bookkeeping part of an Inform. */
  function Informed(v: View, id: RunId, a: Addr): View
    requires id in v.runs && a in v.logs
  {
    var q := v.runs[id];
    v.(logs := v.logs[a := SetAccepted(v.logs[a], q.round, PROPOSE_ID, q.proposal)],
       runs := v.runs[id := q.(informed := q.informed + {a})])
  }

  lemma SerialInformed(v: View, c: Addr, id: RunId, a: Addr)
    requires WfView(v) && SerialInv(v, c) && id in v.runs && a in v.logs && v.runs[id].phase == Informing
    ensures SerialInv(Informed(v, id, a), c)
  {
    var q := v.runs[id];
    var q' := q.(informed := q.informed + {a});
    var log := SetAccepted(v.logs[a], q.round, PROPOSE_ID, q.proposal);
    var v1 := v.(logs := v.logs[a := log]);
    SerialTouch(v, c, id, a, log);
    assert RunSerial(v1, c, id, q);
    InformedKeepsValue(v1, c, id, a);
    SerialMove(v1, c, id, q', false);
    assert Informed(v, id, a) == Moved(v1, id, q', false);
  }

  lemma SerialInform(v: View, key: Key, c: Addr, id: RunId, a: Addr)
    requires WfView(v) && SerialInv(v, c) && key != COORDINATOR_KEY && ShapeOf(v, key, id)
    requires id in v.runs && a in v.logs && v.runs[id].phase == Informing
    ensures SerialInv(VInform(v, id, a), c)
    ensures a == c ==> VInform(v, id, a).vals[c] == ValueAfter(v.decided)
  {
    var q := v.runs[id];
    SerialInformed(v, c, id, a);
    if a == c { InformReachesCoordinator(v, key, c, id); }
    if Executes(v.logs[a], q.round) {
      InformIsDecided(v, key, c, id);
      SerialExecute(Informed(v, id, a), c, a, ApplyOp(q.proposal, v.vals[a]), Entry(id, q.round, q.proposal));
    }
  }

  lemma InformIsDecided(v: View, key: Key, c: Addr, id: RunId)
    requires WfView(v) && SerialInv(v, c) && ShapeOf(v, key, id) && id in v.runs && v.runs[id].phase == Informing
    ensures v.runs[id].proposal == v.runs[id].op
    ensures Entry(id, v.runs[id].round, v.runs[id].op) in v.decided
  {
    assert RunSerial(v, c, id, v.runs[id]);
  }

  lemma InformedKeepsValue(v: View, c: Addr, id: RunId, a: Addr)
    requires SerialInv(v, c) && Active(v, id)
    ensures ValueOk(Moved(v, id, v.runs[id].(informed := v.runs[id].informed + {a}), false), c)
  {
    var v' := Moved(v, id, v.runs[id].(informed := v.runs[id].informed + {a}), false);
    if Unlinearized(v, c) {
      var i :| Active(v, i) && v.runs[i].phase == Informing && c in v.runs[i].todo;
      assert Active(v', i) && v'.runs[i].phase == Informing && c in v'.runs[i].todo;
    }
  }

  lemma SerialExecute(v: View, c: Addr, a: Addr, value: Option<Value>, e: Entry)
    requires WfView(v) && SerialInv(v, c) && a in v.logs && e in v.decided
    requires a == c ==> value == ValueAfter(v.decided)
    ensures SerialInv(v.(vals := v.vals[a := value], hist := v.hist[a := v.hist[a] + [e]]), c)
  {
    var v' := v.(vals := v.vals[a := value], hist := v.hist[a := v.hist[a] + [e]]);
    assert forall i :: Active(v', i) <==> Active(v, i);
    UnlinearizedSame(v, v', c);
    forall b | b in v'.logs ensures SlotsOk(v', c, v'.logs[b]) { assert SlotsOk(v, c, v.logs[b]); }
    forall i | i in v'.runs ensures RunSerial(v', c, i, v'.runs[i]) { assert RunSerial(v, c, i, v.runs[i]); }
    assert AllIn(v.hist[a], v.decided);
  }

  lemma SerialPrepare(v: View, c: Addr, id: RunId, a: Addr)
    requires WfView(v) && SerialInv(v, c) && id in v.runs && CallPhase(v.runs[id].phase) && a in v.logs
    ensures var v' := v.(logs := v.logs[a := AddSlot(v.logs[a], v.runs[id].round)]);
      SerialInv(v', c) && (a == c ==> Top(v', c) == v.runs[id].round)
  {
    assert Active(v, id);
    SerialTouch(v, c, id, a, AddSlot(v.logs[a], v.runs[id].round));
    TopGrows(v, c, id, a, AddSlot(v.logs[a], v.runs[id].round));
  }

  lemma SerialPropose(v: View, c: Addr, id: RunId, a: Addr, fail: bool)
    requires WfView(v) && SerialInv(v, c) && id in v.runs && a in v.logs
    requires v.runs[id].phase == Proposing || v.runs[id].phase == Informing
    ensures SerialInv(VDeliver(v, id, ProposeRpc, a, fail), c)
  {
    assert Active(v, id);
    SerialTouch(v, c, id, a, VDeliver(v, id, ProposeRpc, a, fail).logs[a]);
  }

  /** Handling any RPC keeps the invariant; the coordinator's own Prepare takes its latest
      round to the run's, its own Inform brings its value up to date. */
  lemma SerialDeliver(v: View, key: Key, c: Addr, id: RunId, rpc: Rpc, a: Addr, fail: bool)
    requires WfView(v) && SerialInv(v, c) && key != COORDINATOR_KEY && ShapeOf(v, key, id)
    requires id in v.runs && a in v.logs && Sent(rpc, v.runs[id].phase)
    ensures SerialInv(VDeliver(v, id, rpc, a, fail), c)
    ensures a == c && rpc == PrepareRpc ==> Top(VDeliver(v, id, rpc, a, fail), c) == v.runs[id].round
    ensures a == c && rpc == InformRpc ==> VDeliver(v, id, rpc, a, fail).vals[c] == ValueAfter(v.decided)
  {
    match rpc
    case PrepareRpc => SerialPrepare(v, c, id, a);
    case ProposeRpc => SerialPropose(v, c, id, a, fail);
    case InformRpc => SerialInform(v, key, c, id, a);
  }

  lemma PreparedUnaccepted(v: View, c: Addr, id: RunId, a: Addr)
    requires SerialInv(v, c) && id in v.runs && v.runs[id].phase == Preparing && a in v.logs
    ensures EntryAt(v.logs[a], v.runs[id].round).acceptedId == 0
  {
    assert RunSerial(v, c, id, v.runs[id]);
  }

  lemma DeliverDecides(v: View, id: RunId, rpc: Rpc, a: Addr, fail: bool)
    requires WfView(v) && id in v.runs && a in v.logs
    ensures VDeliver(v, id, rpc, a, fail).decided == v.decided
  {}

  lemma SerialCall(v: View, key: Key, c: Addr, id: RunId, a: Addr, o: Outcome)
    requires WfView(v) && SerialInv(v, c) && key != COORDINATOR_KEY && ShapeOf(v, key, id)
    requires VEnabled(v, Call(id, a, o)) && (a == c ==> o.Handled?)
    ensures SerialInv(VCall(v, id, a, o), c)
  {
    if v.runs[id].phase == Preparing { PreparedUnaccepted(v, c, id, a); }
    if o.Handled? {
      SerialDeliver(v, key, c, id, RpcOf(v.runs[id].phase), a, o.fail);
      var v1 := VDeliver(v, id, RpcOf(v.runs[id].phase), a, o.fail);
      DeliverDecides(v, id, RpcOf(v.runs[id].phase), a, o.fail);
      SerialBookkeep(v1, c, id, a, o, v.logs[a]);
    } else {
      SerialBookkeep(v, c, id, a, o, v.logs[a]);
    }
  }

  lemma SerialBookkeep(v: View, c: Addr, id: RunId, a: Addr, o: Outcome, log: Log)
    requires WfView(v) && SerialInv(v, c) && Active(v, id) && CallPhase(v.runs[id].phase)
    requires v.runs[id].phase == Preparing ==> EntryAt(log, v.runs[id].round).acceptedId == 0
    requires a == c && v.runs[id].phase == Preparing ==> Top(v, c) == v.runs[id].round
    requires a == c && v.runs[id].phase == Informing ==> v.vals[c] == ValueAfter(v.decided)
    ensures SerialInv(VSetRun(v, id, AfterCall(v.runs[id], a, o, log)), c)
  {
    var q := v.runs[id];
    var q' := AfterCall(q, a, o, log);
    assert RunSerial(v, c, id, q);
    var v' := Moved(v, id, q', false);
    assert RunSerial(v', c, id, q');
    if q.phase != Informing || c !in q.todo { LinearizedUntilInform(v, c, id); }
    else if a != c { assert Active(v', id) && c in v'.runs[id].todo; }
    SerialMove(v, c, id, q', false);
    assert v' == VSetRun(v, id, q');
  }

  lemma NeverAdopts(q: Run)
    requires NoneReported(q)
    ensures Chosen(q.promises, q.op) == q.op
  {
    var j := AdoptIsEarliestMaximum(q.promises);
  }

  lemma AdvanceRun(v: View, key: Key, c: Addr, id: RunId)
    requires WfView(v) && SerialInv(v, c) && ShapeOf(v, key, id) && VEnabled(v, Advance(id))
    ensures var q := v.runs[id];
      Active(v, id) && MoveOk(v, c, id, AfterPhase(q), ReachesConsensus(q)) &&
      RunSerial(Moved(v, id, AfterPhase(q), ReachesConsensus(q)), c, id, AfterPhase(q))
    ensures ReachesConsensus(v.runs[id]) ==> v.runs[id].proposal == v.runs[id].op && c in v.runs[id].live
  {
    var q := v.runs[id];
    assert RunSerial(v, c, id, q);
    if q.phase == Preparing { NeverAdopts(q); }
  }

  lemma AdvanceValue(v: View, c: Addr, id: RunId)
    requires SerialInv(v, c) && VEnabled(v, Advance(id))
    requires ReachesConsensus(v.runs[id]) ==> c in v.runs[id].live
    ensures ValueOk(Moved(v, id, AfterPhase(v.runs[id]), ReachesConsensus(v.runs[id])), c)
  {
    var v' := Moved(v, id, AfterPhase(v.runs[id]), ReachesConsensus(v.runs[id]));
    LinearizedUntilInform(v, c, id);
    if ReachesConsensus(v.runs[id]) {
      assert v'.decided[..|v.decided|] == v.decided;
      assert Active(v', id) && c in v'.runs[id].todo;
    }
  }

  lemma SerialAdvance(v: View, key: Key, c: Addr, id: RunId)
    requires WfView(v) && SerialInv(v, c) && ShapeOf(v, key, id) && VEnabled(v, Advance(id))
    ensures SerialInv(VAdvance(v, id), c)
  {
    SerialMoved(v, key, c, id);
    AdvanceMoves(v, id);
  }

  lemma AdvanceMoves(v: View, id: RunId)
    requires VEnabled(v, Advance(id)) && (ReachesConsensus(v.runs[id]) ==> v.runs[id].proposal == v.runs[id].op)
    ensures Moved(v, id, AfterPhase(v.runs[id]), ReachesConsensus(v.runs[id])) == VAdvance(v, id)
  {}

  lemma SerialMoved(v: View, key: Key, c: Addr, id: RunId)
    requires WfView(v) && SerialInv(v, c) && ShapeOf(v, key, id) && VEnabled(v, Advance(id))
    ensures SerialInv(Moved(v, id, AfterPhase(v.runs[id]), ReachesConsensus(v.runs[id])), c)
    ensures ReachesConsensus(v.runs[id]) ==> v.runs[id].proposal == v.runs[id].op
  {
    var q := v.runs[id];
    AdvanceRun(v, key, c, id);
    AdvanceValue(v, c, id);
    SerialMove(v, c, id, AfterPhase(q), ReachesConsensus(q));
  }

  /** Every guarded step preserves the invariant. */
  lemma SerialStep(v: View, key: Key, c: Addr, e: Event)
    requires Inv(v, key) && SerialInv(v, c) && key != COORDINATOR_KEY
    requires VEnabled(v, e) && Guarded(v, c, e)
    ensures SerialInv(VApply(v, e), c)
  {
    if !e.Start? { assert RunOk(v, key, v.runs[e.id]); }
    match e
    case Start(id, proposer, req) => SerialStart(v, c, id, NewRun(proposer, req, v.logs[proposer]));
    case Ping(id, live) => SerialPing(v, key, c, id, live);
    case Call(id, a, o) => SerialCall(v, key, c, id, a, o);
    case Late(id, a, rpc, fail) => SerialDeliver(v, key, c, id, rpc, a, fail);
    case Advance(id) => SerialAdvance(v, key, c, id);
  }
}
