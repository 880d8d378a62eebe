/** Recovery does not delete: a replica that served calls before it recovers keeps a key that
    the coordinator has deleted meanwhile, and learners disagree. */
module DeletedKey {
  import opened Types
  import opened Handlers
  import opened StubsMap
  import opened System
  import opened KeyView
  import opened Learner
  import opened Commute
  import opened Solo
  import opened Tracing
  import opened Exact
  import opened Answered
  import opened FromInit
  import opened ClusterCounterexamples

  // ---- Behaviours of one run ---------------------------------------------------------

  lemma {:induction false} RunIsClean(s: System, es: seq<Event>, key: Key, ids: set<RunId>)
    requires Wf(s) && Valid(s, es) && EventsOf(es, ids)
    ensures CleanOn(s, es, key)
    decreases |es|
  {
    if es != [] {
      assert RunEvent(es[0]);
      RunIsClean(Apply(s, es[0]), es[1..], key, ids);
    }
  }

  lemma {:induction false} OtherRunsStay(s: System, es: seq<Event>, id: RunId)
    requires Wf(s) && Valid(s, es) && EventsOf(es, {id})
    ensures Exec(s, es).runs.Keys <= s.runs.Keys + {id}
    ensures forall i :: i in s.runs && i != id ==> i in Exec(s, es).runs && Exec(s, es).runs[i] == s.runs[i]
    decreases |es|
  {
    if es != [] {
      assert RunEvent(es[0]) && es[0].id == id;
      forall i | i != id ensures i in Apply(s, es[0]).runs <==> i in s.runs
                         ensures i in s.runs ==> Apply(s, es[0]).runs[i] == s.runs[i] {
        RunsOfOthers(s, es[0], i);
      }
      OtherRunsStay(Apply(s, es[0]), es[1..], id);
    }
  }

  /** The state after a whole run: its record, and the others'. */
  predicate AfterRun(s: System, t: System, id: RunId, r: RunResult) {
    Wf(t) && t.stubs == s.stubs && t.replicas == r.replicas && t.runs.Keys == s.runs.Keys + {id} && id in t.runs &&
    t.runs[id] == r.run && forall i :: i in s.runs && i != id ==> t.runs[i] == s.runs[i]
  }

  lemma AfterRunIs(s: System, t: System, id: RunId, r: RunResult)
    requires Reached(s, t, id, r.replicas, r.run) && t.runs.Keys <= s.runs.Keys + {id}
    requires forall i :: i in s.runs && i != id ==> i in t.runs && t.runs[i] == s.runs[i]
    ensures AfterRun(s, t, id, r)
  {
    assert t.runs.Keys == s.runs.Keys + {id};
  }

  lemma OneRun(s: System, id: RunId, me: Addr, req: Request, stubs: seq<Addr>, o: Oracle, r: RunResult)
    requires Wf(s) && id !in s.runs && me in s.stubs && ProperRequest(req)
    requires Ascending(stubs) && Elements(stubs) == s.stubs
    requires r == RunPaxosOn(s.replicas, me, req, stubs, o) && r.loops == 3
    ensures var es := RunTrace(id, me, req, LiveOf(stubs, o.ping), o, 3);
      Valid(s, es) && EventsOf(es, {id}) && AfterRun(s, Exec(s, es), id, r)
  {
    var es := RunTrace(id, me, req, LiveOf(stubs, o.ping), o, 3);
    assert Valid(s, es) && Reached(s, Exec(s, es), id, r.replicas, r.run) by {
      RunIsBehaviour(s, id, me, req, stubs, o);
    }
    TraceIsOf(id, me, req, LiveOf(stubs, o.ping), o, 3);
    OtherRunsStay(s, es, id);
    AfterRunIs(s, Exec(s, es), id, r);
  }

  // ---- A write that both hear of, and a deletion that one hears of --------------------

  function Writing(stubs: seq<Addr>, a: Addr, b: Addr, key: Key, x: Value): seq<Event> {
    RunTrace(1, b, Put(key, x), LiveOf(stubs, Reaching(a, b).ping), Reaching(a, b), 3)
  }

  function Deleting(stubs: seq<Addr>, b: Addr, key: Key): seq<Event> {
    RunTrace(2, b, Del(key), LiveOf(stubs, Reaching(b, b).ping), Reaching(b, b), 3)
  }

  /** a and b have executed the write of x, in run 1 at round 1. */
  ghost predicate Written(s: System, a: Addr, b: Addr, key: Key, x: Value) {
    Wf(s) && AllInv(s) && s.runs.Keys == {1} && s.runs[1].round == 1 && a in s.stubs && b in s.stubs &&
    Lookup(s.replicas[a], key) == Some(x) && Lookup(s.replicas[b], key) == Some(x) &&
    LatestRound(LogOf(s.replicas[b], key)) == 1
  }

  /** b has then executed a deletion, in run 2 at round 2. */
  ghost predicate Deleted(s: System, a: Addr, b: Addr, key: Key, x: Value) {
    Wf(s) && s.runs.Keys == {1, 2} && s.runs[1].round == 1 && s.runs[2].round == 2 && a in s.stubs && b in s.stubs &&
    Lookup(s.replicas[a], key) == Some(x) && Lookup(s.replicas[b], key) == None
  }

  lemma WrittenBoth(m0: map<Addr, Replica>, r: RunResult, a: Addr, b: Addr, key: Key, x: Value)
    requires RanOver(m0, r, a, b, Put(key, x), map[]) && NoneHeld(m0, r.run) && NoneAhead(m0, r.run)
    ensures a in r.replicas && b in r.replicas && r.run.round == 1
    ensures Lookup(r.replicas[a], key) == Some(x) && Lookup(r.replicas[b], key) == Some(x)
    ensures LatestRound(LogOf(r.replicas[b], key)) == 1
  {
    assert ContractAt(m0, m0[a], r.replicas[a], m0.Keys, r.run, a);
    assert ContractAt(m0, m0[b], r.replicas[b], m0.Keys, r.run, b);
  }

  /** The replicas that the write leaves. */
  ghost predicate WroteBoth(r: RunResult, a: Addr, b: Addr, key: Key, x: Value) {
    r.loops == 3 && r.run.round == 1 && a in r.replicas && b in r.replicas &&
    Lookup(r.replicas[a], key) == Some(x) && Lookup(r.replicas[b], key) == Some(x) &&
    LatestRound(LogOf(r.replicas[b], key)) == 1
  }

  lemma WritingResult(stubs: seq<Addr>, a: Addr, b: Addr, key: Key, x: Value)
    requires Ascending(stubs) && a in stubs && b in stubs && key != COORDINATOR_KEY
    ensures WroteBoth(RunPaxosOn(Init(Elements(stubs)).replicas, b, Put(key, x), stubs, Reaching(a, b)), a, b, key, x)
  {
    var m0 := Init(Elements(stubs)).replicas;
    var r := RunPaxosOn(m0, b, Put(key, x), stubs, Reaching(a, b));
    ReachableInv(Elements(stubs), []);
    RunsOver(Init(Elements(stubs)), 1, b, Put(key, x), stubs, a, b);
    NoneHeldInit(Elements(stubs), r.run);
    WrittenBoth(m0, r, a, b, key, x);
  }

  lemma WrittenIn(s: System, r: RunResult, a: Addr, b: Addr, key: Key, x: Value)
    requires WroteBoth(r, a, b, key, x) && AllInv(s) && AfterRun(Init(s.stubs), s, 1, r) && a in s.stubs && b in s.stubs
    ensures Written(s, a, b, key, x)
  {}

  lemma WritingLeads(stubs: seq<Addr>, a: Addr, b: Addr, key: Key, x: Value)
    requires Ascending(stubs) && a in stubs && b in stubs && key != COORDINATOR_KEY
    ensures var s0, es := Init(Elements(stubs)), Writing(stubs, a, b, key, x);
      Valid(s0, es) && EventsOf(es, {1}) && Written(Exec(s0, es), a, b, key, x)
  {
    var s0, es := Init(Elements(stubs)), Writing(stubs, a, b, key, x);
    WritingResult(stubs, a, b, key, x);
    var r := RunPaxosOn(s0.replicas, b, Put(key, x), stubs, Reaching(a, b));
    OneRun(s0, 1, b, Put(key, x), stubs, Reaching(a, b), r);
    ReachableInv(Elements(stubs), es);
    WrittenIn(Exec(s0, es), r, a, b, key, x);
  }

  /** The replicas that the deletion leaves. */
  ghost predicate DeletedOne(r: RunResult, a: Addr, b: Addr, key: Key, x: Value) {
    r.loops == 3 && r.run.round == 2 && a in r.replicas && b in r.replicas &&
    Lookup(r.replicas[a], key) == Some(x) && Lookup(r.replicas[b], key) == None
  }

  lemma NextRoundUnheld(m0: map<Addr, Replica>, q: Run, b: Addr)
    requires b in m0 && q.live == {b} && q.round == LatestRound(LogOf(m0[b], q.key)) + 1
    ensures NoneHeld(m0, q) && NoneAhead(m0, q)
  {}

  lemma DeletedBy(m0: map<Addr, Replica>, r: RunResult, a: Addr, b: Addr, key: Key, x: Value)
    requires a in m0 && b in m0 && a != b && RanOver(m0, r, b, b, Del(key), LogOf(m0[b], key))
    requires LatestRound(LogOf(m0[b], key)) == 1 && Lookup(m0[a], key) == Some(x)
    ensures DeletedOne(r, a, b, key, x)
  {
    NextRoundUnheld(m0, r.run, b);
    assert ContractAt(m0, m0[a], r.replicas[a], m0.Keys, r.run, a);
    assert ContractAt(m0, m0[b], r.replicas[b], m0.Keys, r.run, b);
  }

  lemma DeletedIn(s: System, t: System, r: RunResult, a: Addr, b: Addr, key: Key, x: Value)
    requires Written(s, a, b, key, x) && DeletedOne(r, a, b, key, x) && AfterRun(s, t, 2, r)
    ensures Deleted(t, a, b, key, x)
  {}

  lemma DeletingLeads(s: System, a: Addr, b: Addr, key: Key, x: Value, stubs: seq<Addr>)
    requires Written(s, a, b, key, x) && Ascending(stubs) && Elements(stubs) == s.stubs
    requires a != b && key != COORDINATOR_KEY
    ensures var es := Deleting(stubs, b, key);
      Valid(s, es) && EventsOf(es, {2}) && Deleted(Exec(s, es), a, b, key, x)
  {
    var es := Deleting(stubs, b, key);
    var r := RunPaxosOn(s.replicas, b, Del(key), stubs, Reaching(b, b));
    assert DeletedOne(r, a, b, key, x) by {
      RunsOver(s, 2, b, Del(key), stubs, b, b);
      DeletedBy(s.replicas, r, a, b, key, x);
    }
    OneRun(s, 2, b, Del(key), stubs, Reaching(b, b), r);
    DeletedIn(s, Exec(s, es), r, a, b, key, x);
  }

  // ---- The disagreement ------------------------------------------------------------------

  lemma NoCrashes(es: seq<Event>, ids: set<RunId>, a: Addr)
    requires EventsOf(es, ids)
    ensures NoRestart(es, a) && NoRecovery(es, a)
  {
    forall i | 0 <= i < |es| ensures RunEvent(es[i]) {}
  }

  /** b has a history of the key. */
  lemma HasHistory(stubs: set<Addr>, es: seq<Event>, fs: seq<Event>, a: Addr, b: Addr, key: Key, x: Value)
    requires Valid(Init(stubs), es) && EventsOf(es, {1}) && Written(Exec(Init(stubs), es), a, b, key, x)
    requires Valid(Exec(Init(stubs), es), fs) && EventsOf(fs, {2})
    ensures EntriesAt(Exec(Exec(Init(stubs), es), fs).hist[b], key) != []
  {
    NoCrashes(es, {1}, b);
    NoCrashes(fs, {2}, b);
    ValueIsExecuted(stubs, es, b, key);
    HistoryGrows(Exec(Init(stubs), es), fs, b, key);
  }

  lemma RoundsApart(runs: map<RunId, Run>, key: Key)
    requires runs.Keys == {1, 2} && runs[1].round == 1 && runs[2].round == 2
    ensures forall round: nat :: ClaimsAgree(runs, key, round)
  {}

  lemma NotClean(s: System, a: Addr, b: Addr, key: Key, x: Value)
    requires Deleted(s, a, b, key, x) && EntriesAt(s.hist[b], key) != []
    ensures !Clean(ViewOf(s, key), a, b)
  {}

  /** b has written x at a and b, and then deleted the key at b alone. */
  function WriteAndDelete(stubs: seq<Addr>, a: Addr, b: Addr, key: Key, x: Value): seq<Event> {
    Writing(stubs, a, b, key, x) + Deleting(stubs, b, key)
  }

  lemma BothOf(es: seq<Event>, fs: seq<Event>)
    requires EventsOf(es, {1}) && EventsOf(fs, {2})
    ensures EventsOf(es + fs, {1, 2})
  {}

  lemma WriteAndDeleteLeads(stubs: seq<Addr>, a: Addr, b: Addr, key: Key, x: Value)
    requires Ascending(stubs) && a in stubs && b in stubs && a != b && key != COORDINATOR_KEY
    ensures var s0, es := Init(Elements(stubs)), WriteAndDelete(stubs, a, b, key, x);
      Valid(s0, es) && EventsOf(es, {1, 2}) && Deleted(Exec(s0, es), a, b, key, x) &&
      EntriesAt(Exec(s0, es).hist[b], key) != []
  {
    var s0 := Init(Elements(stubs));
    var ws, ds := Writing(stubs, a, b, key, x), Deleting(stubs, b, key);
    WritingLeads(stubs, a, b, key, x);
    DeletingLeads(Exec(s0, ws), a, b, key, x, stubs);
    LeadsOn(s0, ws, Exec(s0, ws), ds, Exec(Exec(s0, ws), ds));
    BothOf(ws, ds);
    HasHistory(Elements(stubs), ws, ds, a, b, key, x);
  }

  /** From the initial state: b writes x at a and b, then deletes the key at b alone. All
      recoveries so far are clean, all claims of a round agree. Then a recovers from b: it
      still answers x, b answers that there is no such key, and their histories end in the
      same round. */
  lemma DeletedKeySurvivesRecovery(stubs: seq<Addr>, a: Addr, b: Addr, key: Key, x: Value)
    requires Ascending(stubs) && a in stubs && b in stubs && a != b && key != COORDINATOR_KEY
    ensures var s0, es := Init(Elements(stubs)), WriteAndDelete(stubs, a, b, key, x);
      Valid(s0, es) && CleanOn(s0, es, key) &&
      (forall round: nat :: ClaimsAgree(Exec(s0, es).runs, key, round)) &&
      var t := Apply(Exec(s0, es), Recover(a, b));
      !Agreement(ViewOf(t, key)) &&
      HandleGet(t.replicas[a], key) == GetResult.Found(x) && HandleGet(t.replicas[b], key) == NotFound
  {
    var s0, es := Init(Elements(stubs)), WriteAndDelete(stubs, a, b, key, x);
    WriteAndDeleteLeads(stubs, a, b, key, x);
    var s := Exec(s0, es);
    RunIsClean(s0, es, key, {1, 2});
    RoundsApart(s.runs, key);
    NotClean(s, a, b, key, x);
    RecoveryKeepsAgreementIff(Elements(stubs), es, key, a, b);
    SurvivesAt(s, a, b, key, x);
  }

  lemma SurvivesAt(s: System, a: Addr, b: Addr, key: Key, x: Value)
    requires Deleted(s, a, b, key, x) && a != b && key != COORDINATOR_KEY
    ensures var t := Apply(s, Recover(a, b));
      HandleGet(t.replicas[a], key) == GetResult.Found(x) && HandleGet(t.replicas[b], key) == NotFound
  {
    InstallAt(s.replicas[a], HandleRecover(s.replicas[b]), key);
  }
}
