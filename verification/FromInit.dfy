/** The behaviours of Counterexamples from the initial state on: each broken guarantee is
    broken in a reachable state. */
module FromInit {
  import opened Types
  import opened Handlers
  import opened System
  import opened Learner
  import opened Stability
  import opened StubsMap
  import opened Commute
  import opened Tracing
  import opened Counterexamples

  /** es leads from s to t. */
  predicate Leads(s: System, es: seq<Event>, t: System) { Wf(s) && Valid(s, es) && Exec(s, es) == t && Wf(t) }

  lemma LeadsOn(s: System, es: seq<Event>, t: System, fs: seq<Event>, u: System)
    requires Leads(s, es, t) && Leads(t, fs, u)
    ensures Leads(s, es + fs, u)
  {
    ExecConcat(s, es, fs);
  }

  lemma LeadsOne(s: System, e: Event)
    requires Wf(s) && Enabled(s, e)
    ensures Leads(s, [e], Apply(s, e))
  {
    assert [e] == [e] + [];
    ValidCons(s, e, []);
  }

  /** A first write of x has started, and nothing else has happened. */
  predicate Started(stubs: set<Addr>, s: System, key: Key, x: Value) {
    Wf(s) && s.stubs == stubs && s.runs.Keys == {1} && s.runs[1].key == key && s.runs[1].op == Op(Set, x) &&
    s.runs[1].round == 1 &&
    forall a :: a in stubs ==>
      Untouched(s, 1, a) && s.replicas[a].data == map[] && LogOf(s.replicas[a], key) == map[]
  }

  lemma FirstStart(stubs: set<Addr>, p: Addr, key: Key, x: Value)
    requires p in stubs && key != COORDINATOR_KEY
    ensures var e := Start(1, p, Put(key, x));
      Enabled(Init(stubs), e) && Leads(Init(stubs), [e], Apply(Init(stubs), e)) &&
      Started(stubs, Apply(Init(stubs), e), key, x)
  {
    LeadsOne(Init(stubs), Start(1, p, Put(key, x)));
  }

  /** A live set without the coordinator c: its reads miss the write. */
  lemma LeftOutFromInit(stubs: set<Addr>, c: Addr, a: Addr, key: Key, x: Value)
    requires c in stubs && a in stubs && c != a && key != COORDINATOR_KEY
    ensures var es := [Start(1, c, Put(key, x))] + RunAlone(1, a);
      Valid(Init(stubs), es) && MissedAt(Exec(Init(stubs), es), 1, c, x)
  {
    FirstStart(stubs, c, key, x);
    var s := Apply(Init(stubs), Start(1, c, Put(key, x)));
    CoordinatorLeftOut(s, 1, a, c, x);
    LeadsOn(Init(stubs), [Start(1, c, Put(key, x))], s, RunAlone(1, a), Exec(s, RunAlone(1, a)));
  }

  /** The coordinator's own Inform is not handled: its reads miss the write. */
  lemma LostSelfInformFromInit(stubs: set<Addr>, c: Addr, key: Key, x: Value)
    requires c in stubs && key != COORDINATOR_KEY
    ensures var es := [Start(1, c, Put(key, x))] + (ReachConsensusAlone(1, c) + [Call(1, c, NotHandled), Advance(1)]);
      Valid(Init(stubs), es) && MissedAt(Exec(Init(stubs), es), 1, c, x)
  {
    FirstStart(stubs, c, key, x);
    var s := Apply(Init(stubs), Start(1, c, Put(key, x)));
    LostSelfInform(s, 1, c, x);
    var fs := ReachConsensusAlone(1, c) + [Call(1, c, NotHandled), Advance(1)];
    LeadsOn(Init(stubs), [Start(1, c, Put(key, x))], s, fs, Exec(s, fs));
  }

  // ---- Overlapping runs ------------------------------------------------------------

  lemma SecondStart(s: System, i: RunId, j: RunId, c: Addr, key: Key, y: Value)
    requires ReadyToInform(s, i, c) && s.runs[i].key == key && j !in s.runs && key != COORDINATOR_KEY
    ensures Enabled(s, Start(j, c, Put(key, y)))
    ensures var t := Apply(s, Start(j, c, Put(key, y)));
      Enabled(t, Ping(j, {c})) && t.runs == s.runs[j := t.runs[j]] && SameData(s, t, c) &&
      t.runs[j].round > s.runs[i].round && t.runs[j].key == key && t.runs[j].phase == Pinging
  {
    assert s.runs[i].round in LogOf(s.replicas[c], key);
  }

  lemma SecondPings(s: System, j: RunId, c: Addr)
    requires Wf(s) && Enabled(s, Ping(j, {c}))
    ensures var t := Apply(s, Ping(j, {c}));
      t.runs == s.runs[j := s.runs[j].(phase := Preparing, live := {c}, todo := {c})] && t.replicas == s.replicas &&
      t.stubs == s.stubs
  {}

  /** Two runs of one proposer on one key: the second Prepare makes c refuse the first
      Inform, and reads at c miss the first write, which returns OK. */
  lemma OvertakenFromInit(stubs: set<Addr>, c: Addr, key: Key, x: Value, y: Value)
    requires c in stubs && key != COORDINATOR_KEY
    ensures var es := ([Start(1, c, Put(key, x))] + ReachConsensusAlone(1, c)) +
                      ([Start(2, c, Put(key, y)), Ping(2, {c})] +
                       ([Late(2, c, PrepareRpc, false)] + [Call(1, c, ANSWERED), Advance(1)]));
      Valid(Init(stubs), es) && MissedAt(Exec(Init(stubs), es), 1, c, x)
  {
    var t := ConsensusFromInit(stubs, c, key, x);
    OvertakenFrom(t, c, key, x, y);
    var fs := [Start(2, c, Put(key, y)), Ping(2, {c})] +
              ([Late(2, c, PrepareRpc, false)] + [Call(1, c, ANSWERED), Advance(1)]);
    LeadsOn(Init(stubs), [Start(1, c, Put(key, x))] + ReachConsensusAlone(1, c), t, fs, Exec(t, fs));
  }

  lemma ConsensusFromInit(stubs: set<Addr>, c: Addr, key: Key, x: Value) returns (t: System)
    requires c in stubs && key != COORDINATOR_KEY
    ensures var es := [Start(1, c, Put(key, x))] + ReachConsensusAlone(1, c);
      Valid(Init(stubs), es) && Exec(Init(stubs), es) == t
    ensures ReadyToInform(t, 1, c) && t.runs[1].key == key && t.runs[1].op == Op(Set, x) && 2 !in t.runs
    ensures HandleGet(t.replicas[c], key) == NotFound
  {
    FirstStart(stubs, c, key, x);
    var s := Apply(Init(stubs), Start(1, c, Put(key, x)));
    ConsensusAlone(s, 1, c);
    t := Exec(s, ReachConsensusAlone(1, c));
    LeadsOn(Init(stubs), [Start(1, c, Put(key, x))], s, ReachConsensusAlone(1, c), t);
  }

  lemma OvertakenFrom(s: System, c: Addr, key: Key, x: Value, y: Value)
    requires ReadyToInform(s, 1, c) && s.runs[1].key == key && s.runs[1].op == Op(Set, x) && 2 !in s.runs
    requires HandleGet(s.replicas[c], key) == NotFound && key != COORDINATOR_KEY
    ensures var fs := [Start(2, c, Put(key, y)), Ping(2, {c})] +
                      ([Late(2, c, PrepareRpc, false)] + [Call(1, c, ANSWERED), Advance(1)]);
      Valid(s, fs) && MissedAt(Exec(s, fs), 1, c, x)
  {
    SecondStart(s, 1, 2, c, key, y);
    var t := Apply(s, Start(2, c, Put(key, y)));
    ExecTwo(s, Start(2, c, Put(key, y)), Ping(2, {c}));
    SecondPings(t, 2, c);
    var u := Apply(t, Ping(2, {c}));
    OvertakenInformIsRefused(u, 1, 2, c, x);
    var gs := [Late(2, c, PrepareRpc, false)] + [Call(1, c, ANSWERED), Advance(1)];
    LeadsOn(s, [Start(2, c, Put(key, y)), Ping(2, {c})], u, gs, Exec(u, gs));
  }

  /** Two acceptors accepted different operations at the round of runs 1 and 2. */
  predicate AcceptorsDiffer(s: System, a: Addr, b: Addr) {
    1 in s.runs && 2 in s.runs && s.runs[1].key == s.runs[2].key && s.runs[1].round == s.runs[2].round &&
    a in s.replicas && b in s.replicas &&
    SlotOf(s, 1, a).acceptedId > 0 && SlotOf(s, 2, b).acceptedId > 0 &&
    SlotOf(s, 1, a).accepted != SlotOf(s, 2, b).accepted
  }

  lemma ReadyStays(s: System, t: System, i: RunId, a: Addr, j: RunId, b: Addr)
    requires OnlyAt(s, t, j, b) && ReadyToAccept(s, i, a) && i != j && a != b
    ensures ReadyToAccept(t, i, a)
  {}

  predicate SameOps(s: System, t: System, id: RunId) {
    id in s.runs && id in t.runs &&
    t.runs[id].key == s.runs[id].key && t.runs[id].round == s.runs[id].round && t.runs[id].op == s.runs[id].op
  }

  lemma BothPropose(s: System, a: Addr, b: Addr)
    requires Untouched(s, 1, a) && Untouched(s, 2, b) && a != b
    ensures Valid(s, PromiseAlone(1, a) + PromiseAlone(2, b))
    ensures var t := Exec(s, PromiseAlone(1, a) + PromiseAlone(2, b));
      ReadyToAccept(t, 1, a) && ReadyToAccept(t, 2, b) && t.stubs == s.stubs && SameOps(s, t, 1) && SameOps(s, t, 2)
  {
    ProposeAlone(s, 1, a);
    var t := Exec(s, PromiseAlone(1, a));
    UntouchedElsewhere(s, t, 1, a, 2, b);
    ProposeAlone(t, 2, b);
    var u := Exec(t, PromiseAlone(2, b));
    ReadyStays(t, u, 1, a, 2, b);
    LeadsOn(s, PromiseAlone(1, a), t, PromiseAlone(2, b), u);
  }

  /** Two overlapping runs that propose different operations at one (key, round): the state
      is reachable, and two more calls make two acceptors disagree. */
  lemma OverlapFromInit(stubs: set<Addr>, a: Addr, b: Addr, key: Key, x: Value, y: Value)
    requires a in stubs && b in stubs && a != b && key != COORDINATOR_KEY && x != y
    ensures var es := [Start(1, a, Put(key, x)), Start(2, b, Put(key, y))] + (PromiseAlone(1, a) + PromiseAlone(2, b));
      var fs := [Late(1, a, ProposeRpc, false), Late(2, b, ProposeRpc, false)];
      Valid(Init(stubs), es) && Valid(Exec(Init(stubs), es), fs) &&
      AcceptorsDiffer(Exec(Exec(Init(stubs), es), fs), a, b)
  {
    UntouchedIsReachable(stubs, a, b, key, x, y);
    var ss := [Start(1, a, Put(key, x)), Start(2, b, Put(key, y))];
    var s := Exec(Init(stubs), ss);
    BothPropose(s, a, b);
    var ps := PromiseAlone(1, a) + PromiseAlone(2, b);
    var es := ss + ps;
    LeadsOn(Init(stubs), ss, s, ps, Exec(s, ps));
    OverlapBreaksAgreement(stubs, es, 1, 2, a, b);
    TwoLates(Exec(Init(stubs), es), a, b);
  }

  lemma TwoLates(s: System, a: Addr, b: Addr)
    requires Wf(s) && ReadyToAccept(s, 1, a) && ReadyToAccept(s, 2, b)
    ensures var e, f := Late(1, a, ProposeRpc, false), Late(2, b, ProposeRpc, false);
      Valid(s, [e, f]) && Exec(s, [e, f]).runs == s.runs && Exec(s, [e, f]).stubs == s.stubs
  {
    ExecTwo(s, Late(1, a, ProposeRpc, false), Late(2, b, ProposeRpc, false));
  }

  // ---- A chosen operation ------------------------------------------------------------

  lemma ChosenAlone(stubs: set<Addr>, s: System, t: System, a: Addr, key: Key, x: Value)
    requires Started(stubs, s, key, x) && a in stubs && OnlyAt(s, t, 1, a) && ReturnedOwn(t, 1, a)
    ensures ChosenAt(t, key, Choice(1, Op(Set, x), {a}, {1}))
  {
    var c := Choice(1, Op(Set, x), {a}, {1});
    forall b | b in t.stubs ensures Holds(c, b, LogOf(t.replicas[b], key)) {
      if b != a { assert LogOf(t.replicas[b], key) == map[]; }
    }
  }

  lemma LateStart(s: System, b: Addr, key: Key, y: Value)
    requires Wf(s) && b in s.stubs && 2 !in s.runs && LogOf(s.replicas[b], key) == map[] && key != COORDINATOR_KEY
    ensures Valid(s, [Start(2, b, Put(key, y)), Ping(2, {b})])
    ensures var t := Exec(s, [Start(2, b, Put(key, y)), Ping(2, {b})]);
      Polling(t, 2, [b]) && t.runs[2].phase == Preparing && t.runs[2].promises == [] && t.runs[2].round == 1 &&
      t.runs[2].key == key && t.runs[2].op == Op(Set, y) && SlotOf(t, 2, b) == EMPTY_ENTRY
  {
    ExecTwo(s, Start(2, b, Put(key, y)), Ping(2, {b}));
    assert Elements([b]) == {b};
  }

  lemma SingletonUnblocked(a: Addr, b: Addr)
    requires a != b
    ensures !Blocks({a}, Elements([b]))
  {
    assert Elements([b]) - {a} == {b} && Elements([b]) == {b};
  }

  function LateRun(b: Addr, key: Key, y: Value): seq<Event> { [Start(2, b, Put(key, y)), Ping(2, {b})] }
  function Escape(a: Addr, b: Addr): seq<Event> { Calls(2, [b], Avoiding({a})) + [Advance(2)] }

  lemma EscapeFrom(s: System, a: Addr, b: Addr, key: Key, y: Value)
    requires Wf(s) && b in s.stubs && 2 !in s.runs && LogOf(s.replicas[b], key) == map[] && key != COORDINATOR_KEY
    requires a != b
    ensures Valid(s, LateRun(b, key, y) + Escape(a, b))
    ensures var t := Exec(s, LateRun(b, key, y) + Escape(a, b));
      2 in t.runs && t.runs[2].phase == Proposing && t.runs[2].proposal == Op(Set, y)
  {
    LateStart(s, b, key, y);
    var t := Exec(s, LateRun(b, key, y));
    SingletonUnblocked(a, b);
    UnblockedRunEscapes(t, 2, [b], {a});
    LeadsOn(s, LateRun(b, key, y), t, Escape(a, b), Exec(t, Escape(a, b)));
  }

  lemma ChosenFromInit(stubs: set<Addr>, a: Addr, key: Key, x: Value)
    requires a in stubs && key != COORDINATOR_KEY
    ensures var es := [Start(1, a, Put(key, x))] + RunAlone(1, a);
      Valid(Init(stubs), es) && ChosenAt(Exec(Init(stubs), es), key, Choice(1, Op(Set, x), {a}, {1})) &&
      var t := Exec(Init(stubs), es);
      2 !in t.runs && forall b :: b in stubs && b != a ==> LogOf(t.replicas[b], key) == map[]
  {
    FirstStart(stubs, a, key, x);
    var s := Apply(Init(stubs), Start(1, a, Put(key, x)));
    OneAcceptorDecides(s, 1, a);
    var t := Exec(s, RunAlone(1, a));
    LeadsOn(Init(stubs), [Start(1, a, Put(key, x))], s, RunAlone(1, a), t);
    ChosenAlone(stubs, s, t, a, key, x);
  }

  /** Chosen by a at (key, 1), and escaped there by a later run whose live set a does not
      block. */
  lemma EscapeFromInit(stubs: set<Addr>, a: Addr, b: Addr, key: Key, x: Value, y: Value)
    requires a in stubs && b in stubs && a != b && key != COORDINATOR_KEY
    ensures var es, fs := [Start(1, a, Put(key, x))] + RunAlone(1, a), LateRun(b, key, y) + Escape(a, b);
      Valid(Init(stubs), es) && Valid(Exec(Init(stubs), es), fs) &&
      ChosenAt(Exec(Init(stubs), es), key, Choice(1, Op(Set, x), {a}, {1})) &&
      var t := Exec(Exec(Init(stubs), es), fs);
      2 in t.runs && t.runs[2].phase == Proposing && t.runs[2].proposal == Op(Set, y)
  {
    ChosenFromInit(stubs, a, key, x);
    EscapeFrom(Exec(Init(stubs), [Start(1, a, Put(key, x))] + RunAlone(1, a)), a, b, key, y);
  }
}
