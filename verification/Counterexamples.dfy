/** What goes wrong without the operating assumptions: for each one, behaviours of the
    step machine that break the guarantee, from every state of the described kind. */
module Counterexamples {
  import opened Types
  import opened Handlers
  import opened System
  import opened KeyView
  import opened Commute
  import opened Serial
  import opened Stability
  import opened StubsMap
  import opened Tracing

  /** The events of a run that reaches acceptor a alone, losing and failing nothing. */
  function PromiseAlone(id: RunId, a: Addr): seq<Event> { [Ping(id, {a})] + DecideAlone(id, a) }
  /** One loop of calls to a, and its end. */
  function DecideAlone(id: RunId, a: Addr): seq<Event> { [Call(id, a, ANSWERED), Advance(id)] }

  function InformedAlone(id: RunId, a: Addr): seq<Event> { DecideAlone(id, a) + DecideAlone(id, a) }

  function RunAlone(id: RunId, a: Addr): seq<Event> {
    PromiseAlone(id, a) + InformedAlone(id, a)
  }

  /** Run id has not pinged yet, and a has seen nothing at its round. */
  predicate Untouched(s: System, id: RunId, a: Addr) {
    Wf(s) && id in s.runs && a in s.stubs && a in s.replicas &&
    var q := s.runs[id];
    q.phase == Pinging && q.promises == [] && q.accepts == {} && q.op.kind != NotSet &&
    EntryAt(LogOf(s.replicas[a], q.key), q.round) == EMPTY_ENTRY
  }

  /** t differs from s only in run id and replica a. */
  predicate OnlyAt(s: System, t: System, id: RunId, a: Addr) {
    Wf(s) && Wf(t) && t.stubs == s.stubs && t.runs.Keys == s.runs.Keys &&
    (forall i :: i in s.runs && i != id ==> t.runs[i] == s.runs[i]) &&
    (forall b :: b in s.stubs && b != a ==> t.replicas[b] == s.replicas[b]) &&
    id in s.runs && t.runs[id].key == s.runs[id].key && t.runs[id].op == s.runs[id].op &&
    t.runs[id].round == s.runs[id].round
  }

  lemma OnlyAtTrans(s: System, t: System, u: System, id: RunId, a: Addr)
    requires OnlyAt(s, t, id, a) && OnlyAt(t, u, id, a)
    ensures OnlyAt(s, u, id, a)
  {}

  lemma ExecTwo(s: System, e: Event, f: Event)
    requires Wf(s) && Enabled(s, e) && Enabled(Apply(s, e), f)
    ensures Valid(s, [e, f]) && Exec(s, [e, f]) == Apply(Apply(s, e), f)
  {
    assert [e, f] == [e] + [f];
    ExecOne(Apply(s, e), f);
    ValidCons(s, e, [f]);
  }

  lemma ExecOne(s: System, e: Event)
    requires Wf(s) && Enabled(s, e)
    ensures Valid(s, [e]) && Exec(s, [e]) == Apply(s, e)
  {
    assert [e] == [e] + [];
    ValidCons(s, e, []);
  }

  /** Run id proposes its own operation, having heard of a alone. */
  predicate ProposesAlone(q: Run, a: Addr) {
    q.phase == Proposing && q.live == {a} && q.todo == {a} && q.accepts == {} && q.proposal == q.op
  }

  lemma OnePing(s: System, id: RunId, a: Addr)
    requires Untouched(s, id, a)
    ensures Enabled(s, Ping(id, {a}))
    ensures var t := Apply(s, Ping(id, {a}));
      OnlyAt(s, t, id, a) && t.runs[id] == s.runs[id].(phase := Preparing, live := {a}, todo := {a}) &&
      t.replicas[a] == s.replicas[a]
  {}

  /** The data map of a is the same. */
  predicate SameData(s: System, t: System, a: Addr) {
    a in s.replicas && a in t.replicas && t.replicas[a].data == s.replicas[a].data
  }

  lemma OneCall(s: System, id: RunId, a: Addr, o: Outcome)
    requires Wf(s) && Enabled(s, Call(id, a, o))
    ensures OnlyAt(s, Apply(s, Call(id, a, o)), id, a)
  {
    CallRuns(s, id, a, o);
  }

  lemma CallKeepsData(s: System, id: RunId, a: Addr, o: Outcome)
    requires Wf(s) && Enabled(s, Call(id, a, o)) && s.runs[id].phase != Informing
    ensures SameData(s, Apply(s, Call(id, a, o)), a)
  {}

  lemma PromiseOfOne(s: System, id: RunId, a: Addr)
    requires Wf(s) && Enabled(s, Call(id, a, ANSWERED)) && s.runs[id].phase == Preparing
    requires var q := s.runs[id];
      q.todo == {a} && q.promises == [] && EntryAt(LogOf(s.replicas[a], q.key), q.round) == EMPTY_ENTRY
    ensures var t, q := Apply(s, Call(id, a, ANSWERED)), s.runs[id];
      id in t.runs &&
      t.runs[id] == q.(todo := {}, promises := [Vote(a, PromiseResponse(q.round, PROPOSE_ID, 0, NO_OP))]) &&
      EntryAt(LogOf(t.replicas[a], q.key), q.round) == EMPTY_ENTRY
  {}

  lemma OnePromise(s: System, id: RunId, a: Addr)
    requires Wf(s) && id in s.runs && a in s.stubs
    requires var q := s.runs[id];
      q.phase == Preparing && q.todo == {a} && q.promises == [] &&
      EntryAt(LogOf(s.replicas[a], q.key), q.round) == EMPTY_ENTRY
    ensures Enabled(s, Call(id, a, ANSWERED))
    ensures var t, q := Apply(s, Call(id, a, ANSWERED)), s.runs[id];
      OnlyAt(s, t, id, a) && SameData(s, t, a) &&
      t.runs[id] == q.(todo := {}, promises := [Vote(a, PromiseResponse(q.round, PROPOSE_ID, 0, NO_OP))]) &&
      EntryAt(LogOf(t.replicas[a], q.key), q.round) == EMPTY_ENTRY
  {
    OneCall(s, id, a, ANSWERED);
    CallKeepsData(s, id, a, ANSWERED);
    PromiseOfOne(s, id, a);
  }

  lemma OnePromiseIsEnough(s: System, id: RunId, a: Addr)
    requires Wf(s) && id in s.runs
    requires var q := s.runs[id];
      q.phase == Preparing && q.live == {a} && q.todo == {} && q.accepts == {} &&
      q.promises == [Vote(a, PromiseResponse(q.round, PROPOSE_ID, 0, NO_OP))]
    ensures Enabled(s, Advance(id))
    ensures var t := Apply(s, Advance(id));
      OnlyAt(s, t, id, a) && ProposesAlone(t.runs[id], a) && t.replicas == s.replicas
  {
    var votes := s.runs[id].promises;
    assert votes[..0] == [];
    assert Adopt(votes).0 == 0;
  }

  /** The entry of run id's own round at a. */
  function SlotOf(s: System, id: RunId, a: Addr): PaxosLog
    requires id in s.runs && a in s.replicas
  {
    EntryAt(LogOf(s.replicas[a], s.runs[id].key), s.runs[id].round)
  }

  predicate ReadyToAccept(s: System, id: RunId, a: Addr) {
    Wf(s) && id in s.runs && a in s.stubs && ProposesAlone(s.runs[id], a) && SlotOf(s, id, a) == EMPTY_ENTRY
  }

  /** a alone has accepted the run's own operation, and is the one to be informed. */
  predicate ReadyToInform(s: System, id: RunId, a: Addr) {
    Wf(s) && id in s.runs && a in s.stubs && s.runs[id].phase == Informing && s.runs[id].todo == {a} &&
    s.runs[id].live == {a} &&
    s.runs[id].proposal == s.runs[id].op && SlotOf(s, id, a) == PaxosLog(0, PROPOSE_ID, s.runs[id].op)
  }

  /** The run has returned OK with its own operation, which a has accepted. */
  predicate ReturnedOwn(s: System, id: RunId, a: Addr) {
    Wf(s) && id in s.runs && a in s.stubs && s.runs[id].phase == Done(true) &&
    s.runs[id].live == {a} && a in s.runs[id].informed &&
    s.runs[id].proposal == s.runs[id].op && SlotOf(s, id, a) == PaxosLog(0, PROPOSE_ID, s.runs[id].op)
  }

  lemma PromisedAlone(s: System, id: RunId, a: Addr)
    requires Wf(s) && id in s.runs && a in s.stubs
    requires var q := s.runs[id];
      q.phase == Preparing && q.live == {a} && q.todo == {a} && q.promises == [] && q.accepts == {} &&
      EntryAt(LogOf(s.replicas[a], q.key), q.round) == EMPTY_ENTRY
    ensures Valid(s, DecideAlone(id, a))
    ensures var t := Exec(s, DecideAlone(id, a)); OnlyAt(s, t, id, a) && ReadyToAccept(t, id, a) && SameData(s, t, a)
  {
    OnePromise(s, id, a);
    var u := Apply(s, Call(id, a, ANSWERED));
    OnePromiseIsEnough(u, id, a);
    ExecTwo(s, Call(id, a, ANSWERED), Advance(id));
    OnlyAtTrans(s, u, Apply(u, Advance(id)), id, a);
  }

  lemma ProposeAlone(s: System, id: RunId, a: Addr)
    requires Untouched(s, id, a)
    ensures Valid(s, PromiseAlone(id, a))
    ensures var t := Exec(s, PromiseAlone(id, a)); OnlyAt(s, t, id, a) && ReadyToAccept(t, id, a) && SameData(s, t, a)
  {
    OnePing(s, id, a);
    var u := Apply(s, Ping(id, {a}));
    PromisedAlone(u, id, a);
    ValidCons(s, Ping(id, {a}), DecideAlone(id, a));
    OnlyAtTrans(s, u, Exec(u, DecideAlone(id, a)), id, a);
  }

  lemma OneAcceptance(s: System, id: RunId, a: Addr)
    requires ReadyToAccept(s, id, a)
    ensures Enabled(s, Call(id, a, ANSWERED))
    ensures var t, q := Apply(s, Call(id, a, ANSWERED)), s.runs[id];
      OnlyAt(s, t, id, a) && SameData(s, t, a) && t.runs[id] == q.(todo := {}, accepts := {a}) &&
      SlotOf(t, id, a) == PaxosLog(0, PROPOSE_ID, q.op)
  {
    OneCall(s, id, a, ANSWERED);
    CallKeepsData(s, id, a, ANSWERED);
  }

  lemma OneAcceptanceIsEnough(s: System, id: RunId, a: Addr)
    requires Wf(s) && id in s.runs && a in s.stubs
    requires var q := s.runs[id];
      q.phase == Proposing && q.live == {a} && q.todo == {} && q.accepts == {a} && q.proposal == q.op &&
      SlotOf(s, id, a) == PaxosLog(0, PROPOSE_ID, q.op)
    ensures Enabled(s, Advance(id))
    ensures var t := Apply(s, Advance(id));
      OnlyAt(s, t, id, a) && ReadyToInform(t, id, a) && t.replicas == s.replicas
  {
    assert |s.runs[id].accepts| == 1;
  }

  lemma AcceptAlone(s: System, id: RunId, a: Addr)
    requires ReadyToAccept(s, id, a)
    ensures Valid(s, DecideAlone(id, a))
    ensures var t := Exec(s, DecideAlone(id, a)); OnlyAt(s, t, id, a) && ReadyToInform(t, id, a) && SameData(s, t, a)
  {
    OneAcceptance(s, id, a);
    var u := Apply(s, Call(id, a, ANSWERED));
    OneAcceptanceIsEnough(u, id, a);
    ExecTwo(s, Call(id, a, ANSWERED), Advance(id));
    OnlyAtTrans(s, u, Apply(u, Advance(id)), id, a);
  }

  lemma OneInform(s: System, id: RunId, a: Addr)
    requires ReadyToInform(s, id, a)
    ensures Enabled(s, Call(id, a, ANSWERED))
    ensures var t, q := Apply(s, Call(id, a, ANSWERED)), s.runs[id];
      OnlyAt(s, t, id, a) && t.runs[id] == q.(todo := {}, informed := q.informed + {a}) &&
      SlotOf(t, id, a) == PaxosLog(0, PROPOSE_ID, q.op)
  {
    OneCall(s, id, a, ANSWERED);
  }

  lemma InformAlone(s: System, id: RunId, a: Addr)
    requires ReadyToInform(s, id, a)
    ensures Valid(s, DecideAlone(id, a))
    ensures var t := Exec(s, DecideAlone(id, a)); OnlyAt(s, t, id, a) && ReturnedOwn(t, id, a)
  {
    OneInform(s, id, a);
    var u := Apply(s, Call(id, a, ANSWERED));
    ExecTwo(s, Call(id, a, ANSWERED), Advance(id));
    OnlyAtTrans(s, u, Exec(s, DecideAlone(id, a)), id, a);
  }

  lemma DecideAndInform(s: System, id: RunId, a: Addr)
    requires ReadyToAccept(s, id, a)
    ensures Valid(s, InformedAlone(id, a))
    ensures var t := Exec(s, InformedAlone(id, a)); OnlyAt(s, t, id, a) && ReturnedOwn(t, id, a)
  {
    AcceptAlone(s, id, a);
    var t := Exec(s, DecideAlone(id, a));
    InformAlone(t, id, a);
    ExecConcat(s, DecideAlone(id, a), DecideAlone(id, a));
    OnlyAtTrans(s, t, Exec(t, DecideAlone(id, a)), id, a);
  }

  /** The majority is counted over the run's own live set: a run whose ping reaches one
      acceptor alone, which has seen nothing at its round, returns OK. */
  lemma OneAcceptorDecides(s: System, id: RunId, a: Addr)
    requires Untouched(s, id, a)
    ensures Valid(s, RunAlone(id, a))
    ensures var t := Exec(s, RunAlone(id, a)); OnlyAt(s, t, id, a) && ReturnedOwn(t, id, a)
  {
    ProposeAlone(s, id, a);
    var t := Exec(s, PromiseAlone(id, a));
    DecideAndInform(t, id, a);
    ExecConcat(s, PromiseAlone(id, a), InformedAlone(id, a));
    OnlyAtTrans(s, t, Exec(s, RunAlone(id, a)), id, a);
  }

  lemma UntouchedElsewhere(s: System, t: System, i: RunId, a: Addr, j: RunId, b: Addr)
    requires OnlyAt(s, t, i, a) && Untouched(s, j, b) && i != j && a != b
    ensures Untouched(t, j, b)
  {}

  lemma ReturnedStays(s: System, t: System, i: RunId, a: Addr, j: RunId, b: Addr)
    requires OnlyAt(s, t, j, b) && ReturnedOwn(s, i, a) && i != j && a != b
    ensures ReturnedOwn(t, i, a)
  {}

  /** Disjoint live sets: two runs at one (key, round) both return OK, each with its own
      operation, and two acceptors hold different decisions. */
  lemma DisjointLiveSetsDecideTwice(s: System, i: RunId, j: RunId, a: Addr, b: Addr)
    requires Untouched(s, i, a) && Untouched(s, j, b) && i != j && a != b
    requires s.runs[i].key == s.runs[j].key && s.runs[i].round == s.runs[j].round
    ensures Valid(s, RunAlone(i, a) + RunAlone(j, b))
    ensures var t := Exec(s, RunAlone(i, a) + RunAlone(j, b));
      ReturnedOwn(t, i, a) && ReturnedOwn(t, j, b) &&
      t.runs[i].op == s.runs[i].op && t.runs[j].op == s.runs[j].op &&
      t.runs[i].key == t.runs[j].key && t.runs[i].round == t.runs[j].round
  {
    OneAcceptorDecides(s, i, a);
    var u := Exec(s, RunAlone(i, a));
    UntouchedElsewhere(s, u, i, a, j, b);
    OneAcceptorDecides(u, j, b);
    ReturnedStays(u, Exec(u, RunAlone(j, b)), i, a, j, b);
    ExecConcat(s, RunAlone(i, a), RunAlone(j, b));
  }

  /** A write whose live set leaves the coordinator out returns OK, and the coordinator
      still answers reads of the key from its old value. */
  lemma CoordinatorLeftOut(s: System, id: RunId, a: Addr, c: Addr, x: Value)
    requires Untouched(s, id, a) && c in s.stubs && c != a && s.runs[id].op == Op(Set, x)
    requires HandleGet(s.replicas[c], s.runs[id].key) != Found(x)
    ensures Valid(s, RunAlone(id, a))
    ensures var t := Exec(s, RunAlone(id, a));
      ReturnedOwn(t, id, a) && MissedAt(t, id, c, x)
  {
    OneAcceptorDecides(s, id, a);
  }

  /** One more call, then the run returns OK. */
  lemma LastCallReturns(s: System, id: RunId, a: Addr, o: Outcome)
    requires Wf(s) && id in s.runs && a in s.stubs && s.runs[id].phase == Informing && s.runs[id].todo == {a}
    ensures Enabled(s, Call(id, a, o)) && Valid(s, [Call(id, a, o), Advance(id)])
    ensures var t := Exec(s, [Call(id, a, o), Advance(id)]);
      t.replicas == Apply(s, Call(id, a, o)).replicas && id in t.runs && t.runs[id].phase == Done(true) &&
      t.runs[id].key == s.runs[id].key && t.runs[id].op == s.runs[id].op
  {
    CallRuns(s, id, a, o);
    ExecTwo(s, Call(id, a, o), Advance(id));
  }

  /** ... for a write of x that a misses, if the call does not bring it. */
  lemma LastCallMisses(s: System, id: RunId, a: Addr, o: Outcome, x: Value)
    requires Wf(s) && id in s.runs && a in s.stubs && s.runs[id].phase == Informing && s.runs[id].todo == {a}
    requires s.runs[id].op == Op(Set, x) && HandleGet(s.replicas[a], s.runs[id].key) != Found(x)
    requires Enabled(s, Call(id, a, o)) && SameData(s, Apply(s, Call(id, a, o)), a)
    ensures Valid(s, [Call(id, a, o), Advance(id)]) && MissedAt(Exec(s, [Call(id, a, o), Advance(id)]), id, a, x)
  {
    LastCallReturns(s, id, a, o);
  }

  /** The run has returned OK for a write of x that a read at c misses. */
  predicate MissedAt(s: System, id: RunId, c: Addr, x: Value) {
    id in s.runs && s.runs[id].phase == Done(true) && s.runs[id].op == Op(Set, x) && c in s.replicas &&
    HandleGet(s.replicas[c], s.runs[id].key) != Found(x)
  }

  function ReachConsensusAlone(id: RunId, a: Addr): seq<Event> { PromiseAlone(id, a) + DecideAlone(id, a) }

  lemma ConsensusAlone(s: System, id: RunId, a: Addr)
    requires Untouched(s, id, a)
    ensures Valid(s, ReachConsensusAlone(id, a))
    ensures var t := Exec(s, ReachConsensusAlone(id, a));
      OnlyAt(s, t, id, a) && ReadyToInform(t, id, a) && SameData(s, t, a)
  {
    ProposeAlone(s, id, a);
    var u := Exec(s, PromiseAlone(id, a));
    AcceptAlone(u, id, a);
    ExecConcat(s, PromiseAlone(id, a), DecideAlone(id, a));
    OnlyAtTrans(s, u, Exec(u, DecideAlone(id, a)), id, a);
  }

  /** Calls to oneself are not handled: a write returns OK although the coordinator never
      hears of it, and reads at the coordinator miss it. */
  lemma LostSelfInform(s: System, id: RunId, c: Addr, x: Value)
    requires Untouched(s, id, c) && s.runs[id].op == Op(Set, x)
    requires HandleGet(s.replicas[c], s.runs[id].key) != Found(x)
    ensures var es := ReachConsensusAlone(id, c) + [Call(id, c, NotHandled), Advance(id)];
      Valid(s, es) && MissedAt(Exec(s, es), id, c, x)
  {
    ConsensusAlone(s, id, c);
    var u := Exec(s, ReachConsensusAlone(id, c));
    LastCallMisses(u, id, c, NotHandled, x);
    ExecConcat(s, ReachConsensusAlone(id, c), [Call(id, c, NotHandled), Advance(id)]);
  }

  /** The call is handled, its answer lost. */
  const LOST := Handled(false, false)

  /** The only acceptance is not reported: the run aborts, and leaves its operation behind. */
  lemma AbortAlone(s: System, id: RunId, a: Addr)
    requires ReadyToAccept(s, id, a)
    ensures Valid(s, [Call(id, a, LOST), Advance(id)])
    ensures var t := Exec(s, [Call(id, a, LOST), Advance(id)]);
      OnlyAt(s, t, id, a) && SameData(s, t, a) && t.runs[id].phase == Done(false) && t.runs[id].live == {a} &&
      SlotOf(t, id, a) == PaxosLog(0, PROPOSE_ID, s.runs[id].op)
  {
    var u := Apply(s, Call(id, a, LOST));
    OneCall(s, id, a, LOST);
    assert SameData(s, u, a) by { CallKeepsData(s, id, a, LOST); }
    LostAcceptance(s, id, a);
    NoConsensus(u, id, a);
    ExecTwo(s, Call(id, a, LOST), Advance(id));
    OnlyAtTrans(s, u, Apply(u, Advance(id)), id, a);
  }

  /** A run that has heard no acceptance is aborted, and changes nothing any more. */
  lemma NoConsensus(s: System, id: RunId, a: Addr)
    requires Wf(s) && id in s.runs && a in s.stubs
    requires s.runs[id].phase == Proposing && s.runs[id].accepts == {} && s.runs[id].todo == {}
    ensures Enabled(s, Advance(id))
    ensures var t := Apply(s, Advance(id));
      OnlyAt(s, t, id, a) && t.replicas == s.replicas && t.runs[id] == s.runs[id].(phase := Done(false))
  {}

  lemma LostAcceptance(s: System, id: RunId, a: Addr)
    requires ReadyToAccept(s, id, a)
    ensures Enabled(s, Call(id, a, LOST))
    ensures var t := Apply(s, Call(id, a, LOST));
      id in t.runs && t.runs[id] == s.runs[id].(todo := {}) &&
      SlotOf(t, id, a) == PaxosLog(0, PROPOSE_ID, s.runs[id].op)
  {}

  /** The calls to the quorum are lost, the others answered. */
  function Avoiding(quorum: set<Addr>): Addr -> Outcome { a => if a in quorum then NotHandled else ANSWERED }

  lemma CallAvoiding(m: map<Addr, Replica>, stubs: set<Addr>, q: Run, a: Addr, quorum: set<Addr>)
    requires a in m && q.phase == Preparing && NoneReported(q)
    requires a !in quorum ==> EntryAt(LogOf(m[a], q.key), q.round) == EMPTY_ENTRY
    ensures var r := CallOn(m, stubs, q, a, Avoiding(quorum)(a));
      NoneReported(r.1) && |r.1.promises| == (if a in quorum then |q.promises| else |q.promises| + 1) &&
      forall b :: b in m && b != a ==> r.0[b] == m[b]
  {}

  lemma MoreOutside(live: seq<Addr>, quorum: set<Addr>)
    requires Ascending(live) && live != []
    ensures var n := |live| - 1;
      Ascending(live[..n]) && live[n] !in live[..n] && (forall a :: a in live <==> a in live[..n] || a == live[n]) &&
      |Elements(live) - quorum| ==
        if live[n] in quorum then |Elements(live[..n]) - quorum| else |Elements(live[..n]) - quorum| + 1
  {
    var n := |live| - 1;
    AscendingIsDistinct(live);
    if live[n] in quorum {
      assert Elements(live) - quorum == Elements(live[..n]) - quorum;
    } else {
      assert Elements(live) - quorum == (Elements(live[..n]) - quorum) + {live[n]};
    }
  }

  lemma {:induction false} PollAvoiding(m: map<Addr, Replica>, stubs: set<Addr>, q: Run, live: seq<Addr>,
                                       quorum: set<Addr>)
    requires Elements(live) <= m.Keys && Ascending(live) && q.phase == Preparing && q.promises == []
    requires forall a :: a in live && a !in quorum ==> EntryAt(LogOf(m[a], q.key), q.round) == EMPTY_ENTRY
    ensures var r := Poll(m, stubs, q, live, Avoiding(quorum));
      NoneReported(r.1) && |r.1.promises| == |Elements(live) - quorum| &&
      forall b :: b in m && b !in live ==> r.0[b] == m[b]
    decreases |live|
  {
    if live != [] {
      var n := |live| - 1;
      MoreOutside(live, quorum);
      PollAvoiding(m, stubs, q, live[..n], quorum);
      var r := Poll(m, stubs, q, live[..n], Avoiding(quorum));
      CallAvoiding(r.0, stubs, r.1, live[n], quorum);
    }
  }

  /** A live set that the quorum does not block: however many acceptors hold the chosen
      operation, a run there can miss them all, and proposes its own operation. */
  lemma UnblockedRunEscapes(s: System, id: RunId, live: seq<Addr>, quorum: set<Addr>)
    requires Polling(s, id, live) && s.runs[id].phase == Preparing && s.runs[id].promises == []
    requires !Blocks(quorum, Elements(live))
    requires forall a :: a in live && a !in quorum ==> SlotOf(s, id, a) == EMPTY_ENTRY
    ensures var es := Calls(id, live, Avoiding(quorum)) + [Advance(id)];
      Valid(s, es) && id in Exec(s, es).runs &&
      Exec(s, es).runs[id].phase == Proposing && Exec(s, es).runs[id].proposal == s.runs[id].op
  {
    var q := s.runs[id];
    assert Elements(live) <= s.replicas.Keys;
    AllCalled(s, id, live, Avoiding(quorum));
    PollAvoiding(s.replicas, s.stubs, q, live, quorum);
    var u := Exec(s, Calls(id, live, Avoiding(quorum)));
    PromisePhase(u.runs[id]);
    NeverAdopts(u.runs[id]);
    AdvanceReached(u, id);
    Extend(s, Calls(id, live, Avoiding(quorum)), Advance(id));
  }

  lemma LateRefuses(s: System, i: RunId, j: RunId, b: Addr)
    requires Wf(s) && i in s.runs && j in s.runs && b in s.stubs && s.runs[i].key == s.runs[j].key
    requires s.runs[j].phase == Preparing && b in s.runs[j].live && s.runs[j].round > s.runs[i].round
    ensures Enabled(s, Late(j, b, PrepareRpc, false))
    ensures var t := Apply(s, Late(j, b, PrepareRpc, false));
      t.runs == s.runs && t.replicas[b].data == s.replicas[b].data &&
      !Executes(LogOf(t.replicas[b], s.runs[i].key), s.runs[i].round)
  {}

  lemma RefusedInform(s: System, i: RunId, b: Addr)
    requires Wf(s) && i in s.runs && b in s.stubs && s.runs[i].phase == Informing && s.runs[i].todo == {b}
    requires !Executes(LogOf(s.replicas[b], s.runs[i].key), s.runs[i].round)
    ensures Enabled(s, Call(i, b, ANSWERED))
    ensures Apply(s, Call(i, b, ANSWERED)).replicas[b].data == s.replicas[b].data
  {}

  /** Runs on one key overlap: a later Prepare makes replica b refuse the Inform of the
      earlier run, which returns OK all the same, and reads at b miss its write. */
  lemma OvertakenInformIsRefused(s: System, i: RunId, j: RunId, b: Addr, x: Value)
    requires Wf(s) && i in s.runs && j in s.runs && i != j && b in s.stubs
    requires s.runs[i].phase == Informing && s.runs[i].todo == {b} && s.runs[i].op == Op(Set, x)
    requires s.runs[j].phase == Preparing && b in s.runs[j].live
    requires s.runs[j].key == s.runs[i].key && s.runs[j].round > s.runs[i].round
    requires HandleGet(s.replicas[b], s.runs[i].key) != Found(x)
    ensures var es := [Late(j, b, PrepareRpc, false)] + [Call(i, b, ANSWERED), Advance(i)];
      Valid(s, es) && MissedAt(Exec(s, es), i, b, x)
  {
    var e := Late(j, b, PrepareRpc, false);
    LateRefuses(s, i, j, b);
    var t := Apply(s, e);
    RefusedInform(t, i, b);
    LastCallMisses(t, i, b, ANSWERED, x);
    ValidCons(s, e, [Call(i, b, ANSWERED), Advance(i)]);
  }

  /** Such states are reachable: two proposers start on one key before either pings. */
  lemma UntouchedIsReachable(stubs: set<Addr>, a: Addr, b: Addr, key: Key, x: Value, y: Value)
    requires a in stubs && b in stubs && a != b && key != COORDINATOR_KEY
    ensures var es := [Start(1, a, Put(key, x)), Start(2, b, Put(key, y))];
      Valid(Init(stubs), es) &&
      var s := Exec(Init(stubs), es);
      Untouched(s, 1, a) && Untouched(s, 2, b) && s.runs[1].key == s.runs[2].key == key &&
      s.runs[1].round == s.runs[2].round && s.runs[1].op == Op(Set, x) && s.runs[2].op == Op(Set, y)
  {
    var e, f := Start(1, a, Put(key, x)), Start(2, b, Put(key, y));
    ExecTwo(Init(stubs), e, f);
  }
}
