/** One whole call of RunPaxos as a function of the replicas it reaches, and as a
    behaviour of the step machine. */
module Tracing {
  import opened Types
  import opened Handlers
  import opened StubsMap
  import opened System
  import opened Safety
  import opened Commute

  /** The call is handled in time, its answer arrives, and nothing fails at random. */
  const ANSWERED := Handled(false, true)

  /** What the network and the random failures do to each call of one run. */
  datatype Oracle = Oracle(
    ping: Addr -> bool, prepare: Addr -> Outcome, propose: Addr -> Outcome, inform: Addr -> Outcome)

  /** The addresses that answer a ping, in the order of the stubs. */
  function LiveOf(stubs: seq<Addr>, ping: Addr -> bool): (live: seq<Addr>)
    ensures forall a :: a in live <==> a in stubs && ping(a)
  {
    if stubs == [] then []
    else
      var n := |stubs| - 1;
      assert forall a :: a in stubs <==> a in stubs[..n] || a == stubs[n];
      if ping(stubs[n]) then LiveOf(stubs[..n], ping) + [stubs[n]] else LiveOf(stubs[..n], ping)
  }

  lemma {:induction false} LiveAscends(stubs: seq<Addr>, ping: Addr -> bool)
    requires Ascending(stubs)
    ensures Ascending(LiveOf(stubs, ping)) && Elements(LiveOf(stubs, ping)) <= Elements(stubs)
  {
    if stubs != [] {
      var n := |stubs| - 1;
      LiveAscends(stubs[..n], ping);
      forall a | a in LiveOf(stubs[..n], ping) ensures Less(a, stubs[n]) {
        var i :| 0 <= i < n && stubs[i] == a;
      }
    }
  }

  // ---- One call --------------------------------------------------------------

  /** What the proposer hears of a Prepare. */
  function PrepareAnswer(r: Replica, key: Key, round: nat, o: Outcome): Option<PromiseResponse> {
    if o.NotHandled? || !o.answered then None
    else match HandlePrepare(r, key, round, PROPOSE_ID, o.fail).1 case Ok(p) => Some(p) case Aborted => None
  }

  function AfterPrepare(m: map<Addr, Replica>, a: Addr, key: Key, round: nat, o: Outcome): (m': map<Addr, Replica>)
    requires a in m
    ensures m'.Keys == m.Keys
  {
    if o.Handled? then m[a := HandlePrepare(m[a], key, round, PROPOSE_ID, o.fail).0] else m
  }

  /** What the proposer hears of a Propose. */
  function ProposeAnswer(r: Replica, key: Key, round: nat, op: Op, o: Outcome): Option<AcceptResponse> {
    if o.NotHandled? || !o.answered then None
    else match HandlePropose(r, key, round, PROPOSE_ID, op, o.fail).1 case Ok(p) => Some(p) case Aborted => None
  }

  function AfterPropose(m: map<Addr, Replica>, a: Addr, key: Key, round: nat, op: Op, o: Outcome)
    : (m': map<Addr, Replica>)
    requires a in m
    ensures m'.Keys == m.Keys
  {
    if o.Handled? then m[a := HandlePropose(m[a], key, round, PROPOSE_ID, op, o.fail).0] else m
  }

  function AfterInform(m: map<Addr, Replica>, stubs: set<Addr>, a: Addr, key: Key, acc: AcceptResponse, o: Outcome)
    : (m': map<Addr, Replica>)
    requires a in m
    ensures m'.Keys == m.Keys
  {
    if o.Handled? then m[a := HandleInform(m[a], stubs, key, acc).0] else m
  }

  function WithAnswer(votes: seq<Vote>, a: Addr, answer: Option<PromiseResponse>): seq<Vote> {
    if answer.Some? then votes + [Vote(a, answer.value)] else votes
  }

  /** What a call of a run leaves alone. */
  predicate SamePhase(q: Run, q': Run) {
    q'.phase == q.phase && q'.key == q.key && q'.op == q.op && q'.round == q.round && q'.live == q.live &&
    q'.proposal == q.proposal && (q.phase == Preparing ==> q'.accepts == q.accepts) &&
    (q.phase != Preparing ==> q'.promises == q.promises)
  }

  /** The replicas and the run after its call to a. */
  function CallOn(m: map<Addr, Replica>, stubs: set<Addr>, q: Run, a: Addr, o: Outcome)
    : (res: (map<Addr, Replica>, Run))
    requires a in m && CallPhase(q.phase)
    ensures res.0.Keys == m.Keys
    ensures SamePhase(q, res.1) && res.1.todo == q.todo - {a}
  {
    var q' := q.(todo := q.todo - {a});
    match q.phase
    case Preparing =>
      (AfterPrepare(m, a, q.key, q.round, o),
       q'.(promises := WithAnswer(q.promises, a, PrepareAnswer(m[a], q.key, q.round, o))))
    case Proposing =>
      (AfterPropose(m, a, q.key, q.round, q.proposal, o),
       if ProposeAnswer(m[a], q.key, q.round, q.proposal, o).Some? then q'.(accepts := q.accepts + {a}) else q')
    case Informing =>
      (AfterInform(m, stubs, a, q.key, AcceptanceOf(q), o),
       if o.Handled? then q'.(informed := q.informed + {a}) else q')
  }

  /** A loop of calls over live. */
  function Poll(m: map<Addr, Replica>, stubs: set<Addr>, q: Run, live: seq<Addr>, outcome: Addr -> Outcome)
    : (res: (map<Addr, Replica>, Run))
    requires Elements(live) <= m.Keys && CallPhase(q.phase)
    ensures res.0.Keys == m.Keys
    ensures SamePhase(q, res.1) && res.1.todo == q.todo - Elements(live)
    decreases |live|
  {
    if live == [] then (m, q)
    else
      var n := |live| - 1;
      var (m', q') := Poll(m, stubs, q, live[..n], outcome);
      CallOn(m', stubs, q', live[n], outcome(live[n]))
  }

  lemma NextPoll(m: map<Addr, Replica>, stubs: set<Addr>, q: Run, live: seq<Addr>, i: nat, outcome: Addr -> Outcome)
    requires Elements(live) <= m.Keys && i < |live| && CallPhase(q.phase)
    ensures live[i] in m && Elements(live[..i]) <= m.Keys && Elements(live[..i + 1]) <= m.Keys
    ensures var r := Poll(m, stubs, q, live[..i], outcome);
      Poll(m, stubs, q, live[..i + 1], outcome) == CallOn(r.0, stubs, r.1, live[i], outcome(live[i]))
  {
    assert live[..i + 1][..i] == live[..i];
  }

  // ---- The whole run ---------------------------------------------------------

  /** How a run ends, with the replicas, and how many loops of calls it made. */
  datatype RunResult = RunResult(run: Run, replicas: map<Addr, Replica>, loops: nat)

  /** A run alone from its proposal on. */
  function DecideOverLive(m: map<Addr, Replica>, stubs: set<Addr>, q: Run, live: seq<Addr>, o: Oracle): RunResult
    requires Elements(live) <= m.Keys && q.phase == Proposing
  {
    var (m', q') := Poll(m, stubs, q, live, o.propose);
    if AfterPhase(q').phase.Done? then RunResult(AfterPhase(q'), m', 2)
    else
      var (m'', q'') := Poll(m', stubs, AfterPhase(q'), live, o.inform);
      RunResult(AfterPhase(q''), m'', 3)
  }

  /** A run alone that has pinged, over its live addresses. */
  function RunOverLive(m: map<Addr, Replica>, stubs: set<Addr>, q: Run, live: seq<Addr>, o: Oracle): RunResult
    requires Elements(live) <= m.Keys && q.phase == Preparing
  {
    var (m', q') := Poll(m, stubs, q, live, o.prepare);
    if AfterPhase(q').phase.Done? then RunResult(AfterPhase(q'), m', 1)
    else DecideOverLive(m', stubs, AfterPhase(q'), live, o)
  }

  /** The replicas once `me` has read its latest round. */
  function AfterRead(m: map<Addr, Replica>, me: Addr, key: Key): (m': map<Addr, Replica>)
    requires me in m
    ensures m'.Keys == m.Keys
  {
    m[me := TouchLog(m[me], key)]
  }

  /** A run of `me` alone, from the reading of its latest round on. */
  function RunPaxosOn(m: map<Addr, Replica>, me: Addr, req: Request, stubs: seq<Addr>, o: Oracle): RunResult
    requires me in m && Elements(stubs) <= m.Keys
  {
    var live := LiveOf(stubs, o.ping);
    var q := AfterPing(NewRun(me, req, LogOf(m[me], req.key)), Elements(live));
    if q.phase.Done? then RunResult(q, AfterRead(m, me, req.key), 0)
    else RunOverLive(AfterRead(m, me, req.key), Elements(stubs), q, live, o)
  }

  /** The run once it has read its round and pinged. */
  lemma RunsOverLive(m: map<Addr, Replica>, m': map<Addr, Replica>, me: Addr, req: Request, stubs: seq<Addr>,
                     members: set<Addr>, o: Oracle, live: seq<Addr>) returns (q: Run)
    requires me in m && members == Elements(stubs) == m.Keys && live == LiveOf(stubs, o.ping)
    requires m' == AfterRead(m, me, req.key)
    ensures q.key == req.key && q.round == LatestRound(LogOf(m[me], req.key)) + 1 && q.op == ProposeValue(req)
    ensures q.promises == [] && q.accepts == {} && q.phase == if live == [] then Done(false) else Preparing
    ensures q == AfterPing(NewRun(me, req, LogOf(m[me], req.key)), Elements(live))
    ensures live != [] ==> q.live == q.todo == Elements(live)
    ensures RunPaxosOn(m, me, req, stubs, o) ==
            if live == [] then RunResult(q, m', 0) else RunOverLive(m', members, q, live, o)
  {
    q := AfterPing(NewRun(me, req, LogOf(m[me], req.key)), Elements(live));
    if live != [] { assert live[0] in Elements(live); }
  }

  /** An acceptor is counted once, and answers with the proposal itself. */
  lemma AcceptOnce(m: map<Addr, Replica>, stubs: set<Addr>, q: Run, a: Addr, o: Outcome)
    returns (answer: Option<AcceptResponse>, q': Run)
    requires q.phase == Proposing && a in m && a !in q.accepts
    ensures answer == ProposeAnswer(m[a], q.key, q.round, q.proposal, o)
    ensures CallOn(m, stubs, q, a, o) == (AfterPropose(m, a, q.key, q.round, q.proposal, o), q')
    ensures AcceptanceOf(q') == AcceptanceOf(q) && (answer.Some? ==> answer.value == AcceptanceOf(q))
    ensures q'.accepts <= q.accepts + {a} && |q'.accepts| == (if answer.Some? then |q.accepts| + 1 else |q.accepts|)
  {
    answer := ProposeAnswer(m[a], q.key, q.round, q.proposal, o);
    q' := CallOn(m, stubs, q, a, o).1;
  }

  lemma PromisePhase(q: Run)
    requires q.phase == Preparing
    ensures var q' := AfterPhase(q);
      if |q.promises| <= |q.live| / 2 then q'.phase == Done(false)
      else
        q'.phase == Proposing && q'.key == q.key && q'.round == q.round &&
        q'.live == q.live && q'.accepts == q.accepts &&
        q'.proposal == if Adopt(q.promises).0 > 0 then Adopt(q.promises).1 else q.op
  {}

  lemma AcceptPhase(q: Run)
    requires q.phase == Proposing
    ensures var q' := AfterPhase(q);
      if |q.accepts| <= |q.live| / 2 then q'.phase == Done(false)
      else q'.phase == Informing && q'.key == q.key && AcceptanceOf(q') == AcceptanceOf(q)
  {}

  lemma InformPhase(q: Run)
    requires q.phase == Informing
    ensures AfterPhase(q).phase == Done(true)
  {}

  /** What the Propose loop leaves to do. */
  lemma DecideAfter(m: map<Addr, Replica>, stubs: set<Addr>, q: Run, live: seq<Addr>, o: Oracle,
                    m': map<Addr, Replica>, q': Run)
    requires Elements(live) <= m.Keys && q.phase == Proposing && (m', q') == Poll(m, stubs, q, live, o.propose)
    ensures q'.live == q.live && Elements(live) <= m'.Keys
    ensures var next := AfterPhase(q');
      if |q'.accepts| <= |q.live| / 2
      then next.phase == Done(false) && DecideOverLive(m, stubs, q, live, o) == RunResult(next, m', 2)
      else
        next.phase == Informing && next.key == q.key && AcceptanceOf(next) == AcceptanceOf(q') &&
        var r := Poll(m', stubs, next, live, o.inform);
        DecideOverLive(m, stubs, q, live, o) == RunResult(AfterPhase(r.1), r.0, 3)
  {
    AcceptPhase(q');
  }

  // ---- The adoption loop -------------------------------------------------------

  lemma AdoptAnswer(votes: seq<Vote>, a: Addr, answer: Option<PromiseResponse>)
    ensures |WithAnswer(votes, a, answer)| == if answer.Some? then |votes| + 1 else |votes|
    ensures Adopt(WithAnswer(votes, a, answer)) ==
            if answer.Some? && answer.value.acceptedId > Adopt(votes).0
            then (answer.value.acceptedId, answer.value.op) else Adopt(votes)
  {
    if answer.Some? { assert WithAnswer(votes, a, answer)[..|votes|] == votes; }
  }

  // ---- One iteration of each loop --------------------------------------------------

  /** The i-th Prepare, and what the loop's counter and adopted operation become. */
  lemma NextPrepare(m0: map<Addr, Replica>, stubs: set<Addr>, q0: Run, live: seq<Addr>, i: nat,
                    prepare: Addr -> Outcome, m: map<Addr, Replica>, q: Run)
    returns (answer: Option<PromiseResponse>, q': Run)
    requires Elements(live) <= m0.Keys && i < |live| && q0.phase == Preparing && Elements(live[..i]) <= m0.Keys
    requires (m, q) == Poll(m0, stubs, q0, live[..i], prepare)
    ensures live[i] in m && answer == PrepareAnswer(m[live[i]], q0.key, q0.round, prepare(live[i]))
    ensures Elements(live[..i + 1]) <= m0.Keys
    ensures Poll(m0, stubs, q0, live[..i + 1], prepare) ==
            (AfterPrepare(m, live[i], q0.key, q0.round, prepare(live[i])), q')
    ensures |q'.promises| == if answer.Some? then |q.promises| + 1 else |q.promises|
    ensures Adopt(q'.promises) == if answer.Some? && answer.value.acceptedId > Adopt(q.promises).0
                                  then (answer.value.acceptedId, answer.value.op) else Adopt(q.promises)
  {
    NextPoll(m0, stubs, q0, live, i, prepare);
    answer := PrepareAnswer(m[live[i]], q0.key, q0.round, prepare(live[i]));
    AdoptAnswer(q.promises, live[i], answer);
    q' := CallOn(m, stubs, q, live[i], prepare(live[i])).1;
  }

  /** The i-th Propose: an acceptor is counted once, and answers with the proposal. */
  lemma NextPropose(m0: map<Addr, Replica>, stubs: set<Addr>, q0: Run, live: seq<Addr>, i: nat,
                    propose: Addr -> Outcome, m: map<Addr, Replica>, q: Run)
    returns (answer: Option<AcceptResponse>, q': Run)
    requires Elements(live) <= m0.Keys && i < |live| && q0.phase == Proposing && Elements(live[..i]) <= m0.Keys
    requires Ascending(live) && (m, q) == Poll(m0, stubs, q0, live[..i], propose) && q.accepts <= Elements(live[..i])
    ensures live[i] in m && answer == ProposeAnswer(m[live[i]], q0.key, q0.round, q0.proposal, propose(live[i]))
    ensures Elements(live[..i + 1]) <= m0.Keys && q'.accepts <= Elements(live[..i + 1])
    ensures Poll(m0, stubs, q0, live[..i + 1], propose) ==
            (AfterPropose(m, live[i], q0.key, q0.round, q0.proposal, propose(live[i])), q')
    ensures |q'.accepts| == if answer.Some? then |q.accepts| + 1 else |q.accepts|
    ensures AcceptanceOf(q') == AcceptanceOf(q) && (answer.Some? ==> answer.value == AcceptanceOf(q))
  {
    NextPoll(m0, stubs, q0, live, i, propose);
    assert Elements(live[..i + 1]) == Elements(live[..i]) + {live[i]} && live[i] !in Elements(live[..i]) by {
      assert live[..i + 1] == live[..i] + [live[i]];
      NotYetCalled(live, i);
    }
    answer, q' := AcceptOnce(m, stubs, q, live[i], propose(live[i]));
  }

  predicate VotesAscend(votes: seq<Vote>) { forall i, j | 0 <= i < j < |votes| :: Less(votes[i].from, votes[j].from) }

  predicate VotesFrom(votes: seq<Vote>, live: seq<Addr>) { forall i | 0 <= i < |votes| :: votes[i].from in live }

  lemma AnswerAscends(votes: seq<Vote>, live: seq<Addr>, answer: Option<PromiseResponse>)
    requires Ascending(live) && live != [] && VotesAscend(votes) && VotesFrom(votes, live[..|live| - 1])
    ensures var votes' := WithAnswer(votes, live[|live| - 1], answer); VotesAscend(votes') && VotesFrom(votes', live)
  {
    forall k | 0 <= k < |votes| ensures Less(votes[k].from, live[|live| - 1]) {
      var j :| 0 <= j < |live| - 1 && live[j] == votes[k].from;
    }
  }

  lemma {:induction false} PromisesAscend(m: map<Addr, Replica>, stubs: set<Addr>, q: Run, live: seq<Addr>,
                                         prepare: Addr -> Outcome)
    requires Elements(live) <= m.Keys && q.phase == Preparing && q.promises == [] && Ascending(live)
    ensures var votes := Poll(m, stubs, q, live, prepare).1.promises; VotesAscend(votes) && VotesFrom(votes, live)
    decreases |live|
  {
    if live != [] {
      var n := |live| - 1;
      PromisesAscend(m, stubs, q, live[..n], prepare);
      var (m', q') := Poll(m, stubs, q, live[..n], prepare);
      AnswerAscends(q'.promises, live, PrepareAnswer(m'[live[n]], q.key, q.round, prepare(live[n])));
    }
  }

  /** The Prepare loop polls in ascending order, so it adopts the greatest accepted id that
      was reported, and among equal ones that of the lowest address; it adopts nothing
      exactly when nobody reported an acceptance. */
  lemma AdoptsLowestAddress(m: map<Addr, Replica>, stubs: set<Addr>, q: Run, live: seq<Addr>, prepare: Addr -> Outcome)
    returns (i: nat)
    requires Elements(live) <= m.Keys && q.phase == Preparing && q.promises == [] && Ascending(live)
    ensures var votes := Poll(m, stubs, q, live, prepare).1.promises;
      (Adopt(votes).0 == 0 <==> forall j | 0 <= j < |votes| :: votes[j].promise.acceptedId <= 0) &&
      (Adopt(votes).0 != 0 ==>
        i < |votes| && Adopt(votes) == (votes[i].promise.acceptedId, votes[i].promise.op) &&
        forall j | 0 <= j < |votes| && j != i ::
          votes[j].promise.acceptedId < votes[i].promise.acceptedId ||
          (votes[j].promise.acceptedId == votes[i].promise.acceptedId && Less(votes[i].from, votes[j].from)))
  {
    PromisesAscend(m, stubs, q, live, prepare);
    i := AdoptIsEarliestMaximum(Poll(m, stubs, q, live, prepare).1.promises);
  }

  // ---- The run is a behaviour of the step machine ------------------------------

  /** One loop of calls over the live addresses. */
  function Calls(id: RunId, live: seq<Addr>, outcome: Addr -> Outcome): seq<Event> {
    if live == [] then []
    else Calls(id, live[..|live| - 1], outcome) + [Call(id, live[|live| - 1], outcome(live[|live| - 1]))]
  }

  function OutcomesOf(o: Oracle, loop: nat): Addr -> Outcome {
    if loop == 1 then o.prepare else if loop == 2 then o.propose else o.inform
  }

  /** The events of a run through its first n loops of calls. */
  function RunTrace(id: RunId, me: Addr, req: Request, live: seq<Addr>, o: Oracle, loops: nat): seq<Event> {
    if loops == 0 then [Start(id, me, req), Ping(id, Elements(live))]
    else (RunTrace(id, me, req, live, o, loops - 1) + Calls(id, live, OutcomesOf(o, loops))) + [Advance(id)]
  }

  lemma {:induction false} CallsAreOf(id: RunId, live: seq<Addr>, outcome: Addr -> Outcome)
    ensures EventsOf(Calls(id, live, outcome), {id})
  {
    if live != [] { CallsAreOf(id, live[..|live| - 1], outcome); }
  }

  lemma {:induction false} TraceIsOf(id: RunId, me: Addr, req: Request, live: seq<Addr>, o: Oracle, loops: nat)
    ensures EventsOf(RunTrace(id, me, req, live, o, loops), {id}) && RunTrace(id, me, req, live, o, loops) != []
  {
    if loops > 0 {
      TraceIsOf(id, me, req, live, o, loops - 1);
      CallsAreOf(id, live, OutcomesOf(o, loops));
    }
  }

  lemma Extend(t: System, es: seq<Event>, e: Event)
    requires Wf(t) && Valid(t, es) && Enabled(Exec(t, es), e)
    ensures Valid(t, es + [e]) && Exec(t, es + [e]) == Apply(Exec(t, es), e)
  {
    assert [e] == [e] + [];
    ValidCons(Exec(t, es), e, []);
    ExecConcat(t, es, [e]);
  }

  lemma CallIsCallOn(t: System, id: RunId, a: Addr, o: Outcome)
    requires Wf(t) && Enabled(t, Call(id, a, o))
    ensures var t' := Apply(t, Call(id, a, o));
      id in t'.runs && (t'.replicas, t'.runs[id]) == CallOn(t.replicas, t.stubs, t.runs[id], a, o)
  {}

  /** Run id is at the start of a loop of calls over live. */
  ghost predicate Polling(t: System, id: RunId, live: seq<Addr>) {
    Wf(t) && id in t.runs && CallPhase(t.runs[id].phase) && t.runs[id].todo == Elements(live) == t.runs[id].live &&
    Ascending(live) && Elements(live) <= t.stubs
  }

  /** u is t after run id has taken its calls to q and the replicas to m. */
  predicate Reached(t: System, u: System, id: RunId, m: map<Addr, Replica>, q: Run) {
    Wf(u) && u.stubs == t.stubs && id in u.runs && u.replicas == m && u.runs[id] == q
  }

  ghost predicate PollReaches(t: System, id: RunId, live: seq<Addr>, i: nat, outcome: Addr -> Outcome) {
    Polling(t, id, live) && i <= |live| && Elements(live[..i]) <= t.replicas.Keys &&
    Valid(t, Calls(id, live[..i], outcome)) &&
    var r := Poll(t.replicas, t.stubs, t.runs[id], live[..i], outcome);
    Reached(t, Exec(t, Calls(id, live[..i], outcome)), id, r.0, r.1)
  }

  lemma NotYetCalled(live: seq<Addr>, i: nat)
    requires Ascending(live) && i < |live|
    ensures live[i] in Elements(live) - Elements(live[..i])
  {
    assert live[..i + 1][..i] == live[..i];
    LessIsStrict(live[i]);
  }

  lemma NextCall(id: RunId, live: seq<Addr>, i: nat, outcome: Addr -> Outcome)
    requires i < |live|
    ensures Calls(id, live[..i + 1], outcome) == Calls(id, live[..i], outcome) + [Call(id, live[i], outcome(live[i]))]
  {
    assert live[..i + 1][..i] == live[..i];
  }

  lemma PollNext(t: System, id: RunId, live: seq<Addr>, i: nat, outcome: Addr -> Outcome)
    requires i < |live| && PollReaches(t, id, live, i, outcome)
    ensures PollReaches(t, id, live, i + 1, outcome)
  {
    var es, e := Calls(id, live[..i], outcome), Call(id, live[i], outcome(live[i]));
    var u := Exec(t, es);
    NotYetCalled(live, i);
    CallIsCallOn(u, id, live[i], outcome(live[i]));
    NextPoll(t.replicas, t.stubs, t.runs[id], live, i, outcome);
    NextCall(id, live, i, outcome);
    Extend(t, es, e);
  }

  lemma {:induction false} PollLoop(t: System, id: RunId, live: seq<Addr>, i: nat, outcome: Addr -> Outcome)
    requires Polling(t, id, live) && i <= |live|
    ensures PollReaches(t, id, live, i, outcome)
  {
    if i > 0 {
      PollLoop(t, id, live, i - 1, outcome);
      PollNext(t, id, live, i - 1, outcome);
    }
  }

  /** The trace of a run leads from s0 to replicas m and run record q. */
  ghost predicate TraceReaches(s0: System, id: RunId, me: Addr, req: Request, live: seq<Addr>, o: Oracle, loops: nat,
                               m: map<Addr, Replica>, q: Run) {
    Wf(s0) && Valid(s0, RunTrace(id, me, req, live, o, loops)) &&
    Reached(s0, Exec(s0, RunTrace(id, me, req, live, o, loops)), id, m, q)
  }

  lemma TraceStarts(s0: System, id: RunId, me: Addr, req: Request, live: seq<Addr>, o: Oracle)
    requires Wf(s0) && id !in s0.runs && me in s0.stubs && ProperRequest(req) && Elements(live) <= s0.stubs
    ensures var q := NewRun(me, req, LogOf(s0.replicas[me], req.key));
      TraceReaches(s0, id, me, req, live, o, 0, AfterRead(s0.replicas, me, req.key), AfterPing(q, Elements(live)))
  {
    var e, f := Start(id, me, req), Ping(id, Elements(live));
    assert [e] == [e] + [] && [e, f] == [e] + [f];
    ValidCons(s0, e, []);
    Extend(s0, [e], f);
  }

  lemma AllCalled(t: System, id: RunId, live: seq<Addr>, outcome: Addr -> Outcome)
    requires Polling(t, id, live)
    ensures Elements(live) <= t.replicas.Keys && Valid(t, Calls(id, live, outcome))
    ensures var r := Poll(t.replicas, t.stubs, t.runs[id], live, outcome);
      Reached(t, Exec(t, Calls(id, live, outcome)), id, r.0, r.1) && r.1.todo == {}
  {
    PollLoop(t, id, live, |live|, outcome);
    assert live[..|live|] == live;
  }

  lemma AdvanceReached(u: System, id: RunId)
    requires Wf(u) && id in u.runs && CallPhase(u.runs[id].phase) && u.runs[id].todo == {}
    ensures Enabled(u, Advance(id))
    ensures Reached(u, Apply(u, Advance(id)), id, u.replicas, AfterPhase(u.runs[id]))
  {}

  /** One more loop of calls, and the test that ends it. */
  lemma TraceNext(s0: System, id: RunId, me: Addr, req: Request, live: seq<Addr>, o: Oracle, loops: nat,
                  m: map<Addr, Replica>, q: Run)
    requires TraceReaches(s0, id, me, req, live, o, loops, m, q)
    requires CallPhase(q.phase) && q.todo == Elements(live) == q.live && Ascending(live) && Elements(live) <= s0.stubs
    ensures Elements(live) <= m.Keys
    ensures var r := Poll(m, s0.stubs, q, live, OutcomesOf(o, loops + 1));
      TraceReaches(s0, id, me, req, live, o, loops + 1, r.0, AfterPhase(r.1))
  {
    var es, outcome := RunTrace(id, me, req, live, o, loops), OutcomesOf(o, loops + 1);
    assert RunTrace(id, me, req, live, o, loops + 1) == (es + Calls(id, live, outcome)) + [Advance(id)];
    LoopReached(s0, id, es, m, q, live, outcome);
  }

  /** The calls of a loop and its Advance, after es. */
  lemma LoopReached(s0: System, id: RunId, es: seq<Event>, m: map<Addr, Replica>, q: Run, live: seq<Addr>,
                    outcome: Addr -> Outcome)
    requires Wf(s0) && Valid(s0, es) && Reached(s0, Exec(s0, es), id, m, q)
    requires CallPhase(q.phase) && q.todo == Elements(live) == q.live && Ascending(live) && Elements(live) <= s0.stubs
    ensures Elements(live) <= m.Keys
    ensures var fs := (es + Calls(id, live, outcome)) + [Advance(id)];
      var r := Poll(m, s0.stubs, q, live, outcome);
      Valid(s0, fs) && Reached(s0, Exec(s0, fs), id, r.0, AfterPhase(r.1))
  {
    var t, cs := Exec(s0, es), Calls(id, live, outcome);
    AllCalled(t, id, live, outcome);
    ExecConcat(s0, es, cs);
    AdvanceReached(Exec(t, cs), id);
    Extend(s0, es + cs, Advance(id));
  }

  lemma BackToStart(q: Run, live: seq<Addr>)
    requires CallPhase(q.phase) && q.live == Elements(live) && q.todo == {}
    ensures var q' := AfterPhase(q); CallPhase(q'.phase) ==> q'.todo == Elements(live) == q'.live
  {}

  /** Where a run alone ends, from its proposal on. */
  lemma DecideIsBehaviour(s0: System, id: RunId, me: Addr, req: Request, live: seq<Addr>, o: Oracle,
                          m: map<Addr, Replica>, q: Run)
    requires TraceReaches(s0, id, me, req, live, o, 1, m, q)
    requires q.phase == Proposing && q.todo == Elements(live) == q.live && Ascending(live) && Elements(live) <= s0.stubs
    ensures Elements(live) <= m.Keys
    ensures var r := DecideOverLive(m, s0.stubs, q, live, o);
      TraceReaches(s0, id, me, req, live, o, r.loops, r.replicas, r.run)
  {
    TraceNext(s0, id, me, req, live, o, 1, m, q);
    var (m', q') := Poll(m, s0.stubs, q, live, o.propose);
    DecideAfter(m, s0.stubs, q, live, o, m', q');
    BackToStart(q', live);
    if !AfterPhase(q').phase.Done? { TraceNext(s0, id, me, req, live, o, 2, m', AfterPhase(q')); }
  }

  lemma OverLiveIsBehaviour(s0: System, id: RunId, me: Addr, req: Request, live: seq<Addr>, o: Oracle,
                            m: map<Addr, Replica>, q: Run)
    requires TraceReaches(s0, id, me, req, live, o, 0, m, q)
    requires q.phase == Preparing && q.todo == Elements(live) == q.live && Ascending(live) && Elements(live) <= s0.stubs
    ensures Elements(live) <= m.Keys
    ensures var r := RunOverLive(m, s0.stubs, q, live, o);
      TraceReaches(s0, id, me, req, live, o, r.loops, r.replicas, r.run)
  {
    TraceNext(s0, id, me, req, live, o, 0, m, q);
    var (m', q') := Poll(m, s0.stubs, q, live, o.prepare);
    BackToStart(q', live);
    if !AfterPhase(q').phase.Done? { DecideIsBehaviour(s0, id, me, req, live, o, m', AfterPhase(q')); }
  }

  /** RunPaxos alone is a behaviour of the step machine: from any state with these replicas,
      its calls in order, each with the outcome that the oracle gives it, lead to the
      replicas and the run record that it computes. */
  lemma RunIsBehaviour(s0: System, id: RunId, me: Addr, req: Request, stubs: seq<Addr>, o: Oracle)
    requires Wf(s0) && id !in s0.runs && me in s0.stubs && ProperRequest(req)
    requires Ascending(stubs) && Elements(stubs) == s0.stubs
    ensures var r := RunPaxosOn(s0.replicas, me, req, stubs, o);
      TraceReaches(s0, id, me, req, LiveOf(stubs, o.ping), o, r.loops, r.replicas, r.run)
  {
    var live := LiveOf(stubs, o.ping);
    assert Ascending(live) && Elements(live) <= s0.stubs by { LiveAscends(stubs, o.ping); }
    TraceStarts(s0, id, me, req, live, o);
    var q := RunsOverLive(s0.replicas, AfterRead(s0.replicas, me, req.key), me, req, stubs, s0.stubs, o, live);
    if live != [] {
      OverLiveIsBehaviour(s0, id, me, req, live, o, AfterRead(s0.replicas, me, req.key), q);
    }
  }
}
