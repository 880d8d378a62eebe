/** The loops of a run in terms of what the network and the random failures do to each call:
    who is counted, and what is left at every replica. */
module Loops {
  import opened Types
  import opened Handlers
  import opened StubsMap
  import opened System
  import opened Stability
  import opened Solo
  import opened Tracing

  // ---- One loop of calls -----------------------------------------------------------

  /** Nobody has recorded a promise at the round. */
  predicate NoPromise(m: map<Addr, Replica>, key: Key, round: nat) {
    forall a :: a in m ==> EntryAt(LogOf(m[a], key), round).promisedId == 0
  }

  /** Those whose answer says yes: the call is handled, it does not fail at random, and the
      answer arrives. */
  function Heard(live: seq<Addr>, outcome: Addr -> Outcome, key: Key): set<Addr> {
    set a | a in live && outcome(a).Handled? && outcome(a).answered && (key == COORDINATOR_KEY || !outcome(a).fail)
  }

  /** A replica that has handled the call of a run in this phase. */
  function Served(r: Replica, stubs: set<Addr>, q: Run, fail: bool): Replica
    requires CallPhase(q.phase)
  {
    match q.phase
    case Preparing => HandlePrepare(r, q.key, q.round, PROPOSE_ID, fail).0
    case Proposing => HandlePropose(r, q.key, q.round, PROPOSE_ID, q.proposal, fail).0
    case Informing => HandleInform(r, stubs, q.key, AcceptanceOf(q)).0
  }

  /** The last address of an ascending sequence comes once. */
  lemma LastOnce(live: seq<Addr>)
    requires Ascending(live) && live != []
    ensures var n := |live| - 1;
      Ascending(live[..n]) && live[n] !in live[..n] && forall a :: a in live <==> a in live[..n] || a == live[n]
  {
    AscendingIsDistinct(live);
    var n := |live| - 1;
    assert forall a :: a in live <==> a in Elements(live);
  }

  /** A call changes the replica that handles it, and no other. */
  lemma CallServes(m: map<Addr, Replica>, stubs: set<Addr>, q: Run, a: Addr, o: Outcome)
    requires a in m && CallPhase(q.phase)
    ensures CallOn(m, stubs, q, a, o).0 == if o.Handled? then m[a := Served(m[a], stubs, q, o.fail)] else m
  {}

  lemma {:induction false} LoopServes(m: map<Addr, Replica>, stubs: set<Addr>, q: Run, live: seq<Addr>,
                                     outcome: Addr -> Outcome, b: Addr)
    requires Elements(live) <= m.Keys && CallPhase(q.phase) && Ascending(live) && b in m
    ensures Poll(m, stubs, q, live, outcome).0[b] ==
            if b in live && outcome(b).Handled? then Served(m[b], stubs, q, outcome(b).fail) else m[b]
    decreases |live|
  {
    if live != [] {
      var n := |live| - 1;
      LastOnce(live);
      LoopServes(m, stubs, q, live[..n], outcome, b);
      var r := Poll(m, stubs, q, live[..n], outcome);
      CallServes(r.0, stubs, r.1, live[n], outcome(live[n]));
    }
  }

  lemma ServedKeepsPromise(r: Replica, stubs: set<Addr>, q: Run, fail: bool)
    requires CallPhase(q.phase)
    ensures EntryAt(LogOf(Served(r, stubs, q, fail), q.key), q.round).promisedId ==
            EntryAt(LogOf(r, q.key), q.round).promisedId
  {}

  lemma LoopKeepsPromises(m: map<Addr, Replica>, stubs: set<Addr>, q: Run, live: seq<Addr>, outcome: Addr -> Outcome)
    requires Elements(live) <= m.Keys && CallPhase(q.phase) && Ascending(live) && NoPromise(m, q.key, q.round)
    ensures NoPromise(Poll(m, stubs, q, live, outcome).0, q.key, q.round)
  {
    var m' := Poll(m, stubs, q, live, outcome).0;
    forall b | b in m' ensures EntryAt(LogOf(m'[b], q.key), q.round).promisedId == 0 {
      LoopServes(m, stubs, q, live, outcome, b);
      if outcome(b).Handled? { ServedKeepsPromise(m[b], stubs, q, outcome(b).fail); }
    }
  }

  /** Who has been counted after one more call. */
  lemma PromiseCounted(m: map<Addr, Replica>, stubs: set<Addr>, q: Run, a: Addr, o: Outcome)
    requires a in m && q.phase == Preparing && NoPromise(m, q.key, q.round)
    ensures var q' := CallOn(m, stubs, q, a, o).1;
      if o.Handled? && o.answered && (q.key == COORDINATOR_KEY || !o.fail)
      then
        |q'.promises| == |q.promises| + 1 && q'.promises[..|q.promises|] == q.promises &&
        q'.promises[|q.promises|] == Vote(a, Report(LogOf(m[a], q.key), q.round))
      else q'.promises == q.promises
  {}

  /** Each vote is from a live address and reports what that held before the loop. */
  predicate Reports(votes: seq<Vote>, m: map<Addr, Replica>, live: seq<Addr>, key: Key, round: nat) {
    forall i | 0 <= i < |votes| ::
      votes[i].from in live && votes[i].from in m && votes[i].promise == Report(LogOf(m[votes[i].from], key), round)
  }

  lemma {:induction false} LoopReports(m: map<Addr, Replica>, stubs: set<Addr>, q: Run, live: seq<Addr>,
                                      prepare: Addr -> Outcome)
    requires Elements(live) <= m.Keys && q.phase == Preparing && q.promises == [] && Ascending(live)
    requires NoPromise(m, q.key, q.round)
    ensures Reports(Poll(m, stubs, q, live, prepare).1.promises, m, live, q.key, q.round)
    decreases |live|
  {
    if live != [] {
      var n := |live| - 1;
      LastOnce(live);
      LoopReports(m, stubs, q, live[..n], prepare);
      LoopKeepsPromises(m, stubs, q, live[..n], prepare);
      LoopServes(m, stubs, q, live[..n], prepare, live[n]);
      var (m', q') := Poll(m, stubs, q, live[..n], prepare);
      PromiseCounted(m', stubs, q', live[n], prepare(live[n]));
      OneMoreReport(q'.promises, CallOn(m', stubs, q', live[n], prepare(live[n])).1.promises, m, live, q.key, q.round);
    }
  }

  lemma OneMoreReport(votes: seq<Vote>, votes': seq<Vote>, m: map<Addr, Replica>, live: seq<Addr>, key: Key, round: nat)
    requires live != [] && live[|live| - 1] in m && Reports(votes, m, live[..|live| - 1], key, round)
    requires votes' == votes ||
             votes' == votes + [Vote(live[|live| - 1], Report(LogOf(m[live[|live| - 1]], key), round))]
    ensures Reports(votes', m, live, key, round)
  {}

  lemma AcceptCounted(m: map<Addr, Replica>, stubs: set<Addr>, q: Run, a: Addr, o: Outcome)
    requires a in m && q.phase == Proposing && NoPromise(m, q.key, q.round)
    ensures CallOn(m, stubs, q, a, o).1.accepts ==
            if o.Handled? && o.answered && (q.key == COORDINATOR_KEY || !o.fail) then q.accepts + {a} else q.accepts
  {}

  lemma SendersAppend(votes: seq<Vote>, votes': seq<Vote>, a: Addr)
    requires |votes'| == |votes| + 1 && votes'[..|votes|] == votes && votes'[|votes|].from == a
    ensures Senders(votes') == Senders(votes) + {a}
  {
    assert forall i | 0 <= i < |votes| :: votes'[i] == votes[i];
  }

  /** The Prepare loop counts exactly those whose promise arrives. */
  lemma {:induction false} LoopPromises(m: map<Addr, Replica>, stubs: set<Addr>, q: Run, live: seq<Addr>,
                                       prepare: Addr -> Outcome)
    requires Elements(live) <= m.Keys && q.phase == Preparing && q.promises == [] && Ascending(live)
    requires NoPromise(m, q.key, q.round)
    ensures Senders(Poll(m, stubs, q, live, prepare).1.promises) == Heard(live, prepare, q.key)
    decreases |live|
  {
    if live != [] {
      var n := |live| - 1;
      LastOnce(live);
      LoopPromises(m, stubs, q, live[..n], prepare);
      LoopKeepsPromises(m, stubs, q, live[..n], prepare);
      var (m', q') := Poll(m, stubs, q, live[..n], prepare);
      var q'' := CallOn(m', stubs, q', live[n], prepare(live[n])).1;
      PromiseCounted(m', stubs, q', live[n], prepare(live[n]));
      if q''.promises != q'.promises { SendersAppend(q'.promises, q''.promises, live[n]); }
    }
  }

  lemma OneMoreHeard(live: seq<Addr>, outcome: Addr -> Outcome, key: Key)
    requires live != []
    ensures var n := |live| - 1; var o := outcome(live[n]);
      Heard(live, outcome, key) ==
      Heard(live[..n], outcome, key) +
      if o.Handled? && o.answered && (key == COORDINATOR_KEY || !o.fail) then {live[n]} else {}
  {
    assert forall a :: a in live <==> a in live[..|live| - 1] || a == live[|live| - 1];
  }

  /** The Propose loop counts exactly those whose acceptance arrives. */
  lemma {:induction false} LoopAccepts(m: map<Addr, Replica>, stubs: set<Addr>, q: Run, live: seq<Addr>,
                                      propose: Addr -> Outcome)
    requires Elements(live) <= m.Keys && q.phase == Proposing && q.accepts == {} && Ascending(live)
    requires NoPromise(m, q.key, q.round)
    ensures Poll(m, stubs, q, live, propose).1.accepts == Heard(live, propose, q.key)
    decreases |live|
  {
    if live != [] {
      var n := |live| - 1;
      LastOnce(live);
      LoopAccepts(m, stubs, q, live[..n], propose);
      LoopKeepsPromises(m, stubs, q, live[..n], propose);
      var (m', q') := Poll(m, stubs, q, live[..n], propose);
      assert Poll(m, stubs, q, live, propose) == CallOn(m', stubs, q', live[n], propose(live[n]));
      AcceptCounted(m', stubs, q', live[n], propose(live[n]));
      OneMoreHeard(live, propose, q.key);
    }
  }

  lemma AscendingSenders(votes: seq<Vote>)
    requires VotesAscend(votes)
    ensures |Senders(votes)| == |votes|
  {
    forall i, j | 0 <= i < j < |votes| ensures votes[i].from != votes[j].from { LessIsStrict(votes[i].from); }
    SendersSize(votes);
  }

  lemma PromiseCount(m: map<Addr, Replica>, stubs: set<Addr>, q: Run, live: seq<Addr>, prepare: Addr -> Outcome)
    requires Elements(live) <= m.Keys && q.phase == Preparing && q.promises == [] && Ascending(live)
    requires NoPromise(m, q.key, q.round)
    ensures |Poll(m, stubs, q, live, prepare).1.promises| == |Heard(live, prepare, q.key)|
  {
    LoopPromises(m, stubs, q, live, prepare);
    PromisesAscend(m, stubs, q, live, prepare);
    AscendingSenders(Poll(m, stubs, q, live, prepare).1.promises);
  }

  // ---- The two tests -----------------------------------------------------------------

  /** What a run keeps while it polls. */
  predicate SameRun(q: Run, q': Run) { q'.key == q.key && q'.op == q.op && q'.round == q.round && q'.live == q.live }

  /** The Prepare loop and its test: more than half of the live addresses must be heard. */
  lemma PromiseStage(m: map<Addr, Replica>, stubs: set<Addr>, q: Run, live: seq<Addr>, prepare: Addr -> Outcome)
    requires Elements(live) <= m.Keys && Ascending(live) && q.live == Elements(live) && NoPromise(m, q.key, q.round)
    requires q.phase == Preparing && q.promises == [] && q.accepts == {}
    ensures var r := Poll(m, stubs, q, live, prepare); var next := AfterPhase(r.1);
      Elements(live) <= r.0.Keys && NoPromise(r.0, q.key, q.round) && SameRun(q, next) && next.accepts == {} &&
      next.promises == r.1.promises && VotesAscend(next.promises) &&
      Reports(next.promises, m, live, q.key, q.round) &&
      (next.phase == Proposing ==> next.proposal == Chosen(next.promises, q.op)) &&
      Senders(next.promises) == Heard(live, prepare, q.key) &&
      next.phase == if 2 * |Heard(live, prepare, q.key)| > |q.live| then Proposing else Done(false)
  {
    var r := Poll(m, stubs, q, live, prepare);
    LoopKeepsPromises(m, stubs, q, live, prepare);
    LoopPromises(m, stubs, q, live, prepare);
    LoopReports(m, stubs, q, live, prepare);
    PromisesAscend(m, stubs, q, live, prepare);
    AscendingSenders(r.1.promises);
  }

  /** The Propose loop and its test. */
  lemma AcceptStage(m: map<Addr, Replica>, stubs: set<Addr>, q: Run, live: seq<Addr>, propose: Addr -> Outcome)
    requires Elements(live) <= m.Keys && Ascending(live) && q.live == Elements(live) && NoPromise(m, q.key, q.round)
    requires q.phase == Proposing && q.accepts == {}
    ensures var r := Poll(m, stubs, q, live, propose); var next := AfterPhase(r.1);
      Elements(live) <= r.0.Keys && SameRun(q, next) && next.promises == q.promises && next.proposal == q.proposal &&
      next.accepts == Heard(live, propose, q.key) &&
      next.phase == if 2 * |Heard(live, propose, q.key)| > |q.live| then Informing else Done(false)
  {
    LoopAccepts(m, stubs, q, live, propose);
  }

  lemma InformStage(m: map<Addr, Replica>, stubs: set<Addr>, q: Run, live: seq<Addr>, inform: Addr -> Outcome)
    requires Elements(live) <= m.Keys && q.phase == Informing
    ensures var next := AfterPhase(Poll(m, stubs, q, live, inform).1);
      next.phase == Done(true) && SameRun(q, next) && next.promises == q.promises && next.proposal == q.proposal &&
      next.accepts == q.accepts
  {}

  /** From its proposal on, a run returns OK exactly when more than half of its live addresses
      are heard to accept. */
  lemma DecideExact(m: map<Addr, Replica>, stubs: set<Addr>, q: Run, live: seq<Addr>, o: Oracle)
    requires Elements(live) <= m.Keys && Ascending(live) && q.live == Elements(live) && NoPromise(m, q.key, q.round)
    requires q.phase == Proposing && q.accepts == {}
    ensures var d := DecideOverLive(m, stubs, q, live, o).run;
      SameRun(q, d) && d.promises == q.promises && d.proposal == q.proposal &&
      d.accepts == Heard(live, o.propose, q.key) &&
      d.phase == Done(2 * |Heard(live, o.propose, q.key)| > |q.live|)
  {
    AcceptStage(m, stubs, q, live, o.propose);
    var (m', q') := Poll(m, stubs, q, live, o.propose);
    DecideAfter(m, stubs, q, live, o, m', q');
    if AfterPhase(q').phase == Informing { InformStage(m', stubs, AfterPhase(q'), live, o.inform); }
  }


  // ---- What is left at a replica -------------------------------------------------------

  /** What the calls of a run of op at (key, round) leave at a replica: the slot of the round
      is there once any call is handled; it holds op if the replica accepted or was informed;
      op is executed if it was informed and had no later round; nothing else changes. */
  ghost predicate Leaves(before: Replica, after: Replica, stubs: set<Addr>, key: Key, round: nat, op: Op,
                         handled: bool, accepts: bool, informed: bool) {
    var log, log' := LogOf(before, key), LogOf(after, key);
    var executes := informed && LatestRound(log) <= round;
    (forall x: nat :: x in log' <==> x in log || (x == round && handled)) &&
    (forall x: nat :: EntryAt(log', x) == if x == round && (accepts || informed) then PaxosLog(0, PROPOSE_ID, op)
                                          else EntryAt(log, x)) &&
    Lookup(after, key) == (if executes then ApplyOp(op, Lookup(before, key)) else Lookup(before, key)) &&
    after.coordinator == (if executes && op.kind == SetCoordinator && op.value in stubs then op.value
                          else before.coordinator) &&
    (forall other :: other != key ==> SameAtKey(before, after, other))
  }

  lemma OthersSame(r0: Replica, r: Replica, r': Replica, key: Key)
    requires SameElsewhere(r, r', key) && forall other :: other != key ==> SameAtKey(r0, r, other)
    ensures forall other :: other != key ==> SameAtKey(r0, r', other)
  {
    forall other | other != key ensures SameAtKey(r0, r', other) {
      assert SameAtKey(r0, r, other);
      assert other in r'.data <==> other in r'.data.Keys - {key};
      assert other in r.data <==> other in r.data.Keys - {key};
    }
  }

  lemma TouchLeaves(r: Replica, stubs: set<Addr>, key: Key, round: nat, op: Op)
    ensures Leaves(r, r, stubs, key, round, op, false, false, false)
    ensures Leaves(r, TouchLog(r, key), stubs, key, round, op, false, false, false)
  {}

  lemma PrepareLeaves(r0: Replica, r: Replica, stubs: set<Addr>, key: Key, round: nat, op: Op, fail: bool)
    requires Leaves(r0, r, stubs, key, round, op, false, false, false)
    ensures Leaves(r0, HandlePrepare(r, key, round, PROPOSE_ID, fail).0, stubs, key, round, op, true, false, false)
  {
    OthersSame(r0, r, HandlePrepare(r, key, round, PROPOSE_ID, fail).0, key);
  }

  lemma ProposeLeaves(r0: Replica, r: Replica, stubs: set<Addr>, key: Key, round: nat, op: Op, handled: bool,
                      fail: bool)
    requires Leaves(r0, r, stubs, key, round, op, handled, false, false)
    requires EntryAt(LogOf(r0, key), round).promisedId == 0
    ensures Leaves(r0, HandlePropose(r, key, round, PROPOSE_ID, op, fail).0, stubs, key, round, op, true,
                   key == COORDINATOR_KEY || !fail, false)
  {
    OthersSame(r0, r, HandlePropose(r, key, round, PROPOSE_ID, op, fail).0, key);
  }

  lemma SameLatest(log: Log, log': Log, round: nat, handled: bool)
    requires forall x: nat :: x in log' <==> x in log || (x == round && handled)
    ensures LatestRound(log') <= round <==> LatestRound(log) <= round
  {
    if log' == map[] { assert log == map[]; }
  }

  lemma InformLeaves(r0: Replica, r: Replica, stubs: set<Addr>, key: Key, round: nat, op: Op, handled: bool,
                     accepts: bool)
    requires Leaves(r0, r, stubs, key, round, op, handled, accepts, false)
    requires EntryAt(LogOf(r0, key), round).promisedId == 0
    ensures Leaves(r0, HandleInform(r, stubs, key, AcceptResponse(round, PROPOSE_ID, op)).0, stubs, key, round, op,
                   true, accepts, true)
  {
    SameLatest(LogOf(r0, key), LogOf(r, key), round, handled);
    OthersSame(r0, r, HandleInform(r, stubs, key, AcceptResponse(round, PROPOSE_ID, op)).0, key);
  }

  /** From the proposal on, given what the replica was left with before it. */
  lemma DecideLeaves(m: map<Addr, Replica>, stubs: set<Addr>, q: Run, live: seq<Addr>, o: Oracle, b: Addr, r0: Replica,
                     prepared: bool)
    requires Elements(live) <= m.Keys && Ascending(live) && q.live == Elements(live) && NoPromise(m, q.key, q.round)
    requires q.phase == Proposing && q.accepts == {} && b in m && EntryAt(LogOf(r0, q.key), q.round).promisedId == 0
    requires Leaves(r0, m[b], stubs, q.key, q.round, q.proposal, prepared, false, false)
    ensures var d := DecideOverLive(m, stubs, q, live, o);
      var asked := b in live && o.propose(b).Handled?;
      var informed := 2 * |Heard(live, o.propose, q.key)| > |q.live| && b in live && o.inform(b).Handled?;
      b in d.replicas &&
      Leaves(r0, d.replicas[b], stubs, q.key, q.round, q.proposal, prepared || asked || informed,
             asked && (q.key == COORDINATOR_KEY || !o.propose(b).fail), informed)
  {
    var asked := b in live && o.propose(b).Handled?;
    var accepts := asked && (q.key == COORDINATOR_KEY || !o.propose(b).fail);
    AcceptStage(m, stubs, q, live, o.propose);
    var (m', q') := Poll(m, stubs, q, live, o.propose);
    DecideAfter(m, stubs, q, live, o, m', q');
    AskedLeaves(m, stubs, q, live, o.propose, b, r0, prepared);
    if AfterPhase(q').phase == Informing {
      InformedLeaves(m', stubs, AfterPhase(q'), live, o.inform, b, r0, prepared || asked, accepts);
    }
  }

  lemma AskedLeaves(m: map<Addr, Replica>, stubs: set<Addr>, q: Run, live: seq<Addr>, propose: Addr -> Outcome, b: Addr,
                    r0: Replica, prepared: bool)
    requires Elements(live) <= m.Keys && Ascending(live) && q.phase == Proposing && b in m
    requires EntryAt(LogOf(r0, q.key), q.round).promisedId == 0
    requires Leaves(r0, m[b], stubs, q.key, q.round, q.proposal, prepared, false, false)
    ensures var asked := b in live && propose(b).Handled?;
      Leaves(r0, Poll(m, stubs, q, live, propose).0[b], stubs, q.key, q.round, q.proposal, prepared || asked,
             asked && (q.key == COORDINATOR_KEY || !propose(b).fail), false)
  {
    LoopServes(m, stubs, q, live, propose, b);
    if b in live && propose(b).Handled? {
      ProposeLeaves(r0, m[b], stubs, q.key, q.round, q.proposal, prepared, propose(b).fail);
    }
  }

  lemma InformedLeaves(m: map<Addr, Replica>, stubs: set<Addr>, q: Run, live: seq<Addr>, inform: Addr -> Outcome,
                       b: Addr, r0: Replica, handled: bool, accepts: bool)
    requires Elements(live) <= m.Keys && Ascending(live) && q.phase == Informing && b in m
    requires EntryAt(LogOf(r0, q.key), q.round).promisedId == 0
    requires Leaves(r0, m[b], stubs, q.key, q.round, q.proposal, handled, accepts, false)
    ensures var informed := b in live && inform(b).Handled?;
      Leaves(r0, Poll(m, stubs, q, live, inform).0[b], stubs, q.key, q.round, q.proposal, handled || informed, accepts,
             informed)
  {
    LoopServes(m, stubs, q, live, inform, b);
    if b in live && inform(b).Handled? {
      InformLeaves(r0, m[b], stubs, q.key, q.round, q.proposal, handled, accepts);
    }
  }

  /** A run over its live addresses: whom it hears, and whether it returns OK. */
  lemma RunExact(m: map<Addr, Replica>, stubs: set<Addr>, q: Run, live: seq<Addr>, o: Oracle)
    requires Elements(live) <= m.Keys && Ascending(live) && q.live == Elements(live) && NoPromise(m, q.key, q.round)
    requires q.phase == Preparing && q.promises == [] && q.accepts == {}
    ensures var d := RunOverLive(m, stubs, q, live, o).run;
      var promised, accepted := Heard(live, o.prepare, q.key), Heard(live, o.propose, q.key);
      var proposes := 2 * |promised| > |q.live|;
      SameRun(q, d) && Senders(d.promises) == promised && VotesAscend(d.promises) &&
      Reports(d.promises, m, live, q.key, q.round) &&
      (proposes ==> d.proposal == Chosen(d.promises, q.op)) &&
      d.accepts == (if proposes then accepted else {}) &&
      d.phase == Done(proposes && 2 * |accepted| > |q.live|)
  {
    PromiseStage(m, stubs, q, live, o.prepare);
    var (m', q') := Poll(m, stubs, q, live, o.prepare);
    if AfterPhase(q').phase == Proposing { DecideExact(m', stubs, AfterPhase(q'), live, o); }
  }

  lemma RunLeaves(m: map<Addr, Replica>, stubs: set<Addr>, q: Run, live: seq<Addr>, o: Oracle, b: Addr, r0: Replica)
    requires Elements(live) <= m.Keys && Ascending(live) && q.live == Elements(live) && NoPromise(m, q.key, q.round)
    requires q.phase == Preparing && q.promises == [] && q.accepts == {} && b in m
    requires EntryAt(LogOf(r0, q.key), q.round).promisedId == 0 && (m[b] == r0 || m[b] == TouchLog(r0, q.key))
    ensures var d := RunOverLive(m, stubs, q, live, o);
      var proposes := 2 * |Heard(live, o.prepare, q.key)| > |q.live|;
      var prepared := b in live && o.prepare(b).Handled?;
      var asked := proposes && b in live && o.propose(b).Handled?;
      var informed := proposes && 2 * |Heard(live, o.propose, q.key)| > |q.live| && b in live && o.inform(b).Handled?;
      b in d.replicas &&
      Leaves(r0, d.replicas[b], stubs, q.key, q.round, d.run.proposal, prepared || asked || informed,
             asked && (q.key == COORDINATOR_KEY || !o.propose(b).fail), informed)
  {
    PromiseStage(m, stubs, q, live, o.prepare);
    var (m', q') := Poll(m, stubs, q, live, o.prepare);
    var next := AfterPhase(q');
    var prepared := b in live && o.prepare(b).Handled?;
    assert Leaves(r0, m'[b], stubs, q.key, q.round, next.proposal, prepared, false, false) by {
      TouchLeaves(r0, stubs, q.key, q.round, next.proposal);
      LoopServes(m, stubs, q, live, o.prepare, b);
      if prepared {
        PrepareLeaves(r0, m[b], stubs, q.key, q.round, next.proposal, o.prepare(b).fail);
      }
    }
    if next.phase == Proposing {
      DecideExact(m', stubs, next, live, o);
      DecideLeaves(m', stubs, next, live, o, b, r0, prepared);
    }
  }
}
