/** What one call of RunPaxos guarantees when it runs alone, and what an election run
    means for replicas that look the coordinator up. */
module WholeRun {
  import opened Types
  import opened Handlers
  import opened StubsMap
  import opened System
  import opened KeyView
  import opened Safety
  import opened Commute
  import opened Solo
  import opened Tracing

  lemma {:induction false} PollInforms(m: map<Addr, Replica>, stubs: set<Addr>, q: Run, live: seq<Addr>,
                                      outcome: Addr -> Outcome)
    requires Elements(live) <= m.Keys && CallPhase(q.phase)
    ensures var q' := Poll(m, stubs, q, live, outcome).1;
      q'.informed == if q.phase == Informing then q.informed + set a | a in live && outcome(a).Handled? else q.informed
    decreases |live|
  {
    if live != [] {
      var n := |live| - 1;
      PollInforms(m, stubs, q, live[..n], outcome);
      assert forall a :: a in live <==> a in live[..n] || a == live[n];
    }
  }

  /** On OK the informed replicas are those that handled the Inform. */
  lemma WhoIsInformed(m: map<Addr, Replica>, me: Addr, req: Request, stubs: seq<Addr>, o: Oracle)
    requires me in m && Elements(stubs) == m.Keys
    ensures var r := RunPaxosOn(m, me, req, stubs, o);
      r.run.informed ==
      if r.run.phase == Done(true) then set a | a in LiveOf(stubs, o.ping) && o.inform(a).Handled? else {}
  {
    var live := LiveOf(stubs, o.ping);
    var m0 := AfterRead(m, me, req.key);
    var q := RunsOverLive(m, m0, me, req, stubs, m.Keys, o, live);
    if live != [] {
      assert Elements(live) <= m.Keys;
      var (m1, q1) := Poll(m0, m.Keys, q, live, o.prepare);
      PollInforms(m0, m.Keys, q, live, o.prepare);
      PromisePhase(q1);
      if !AfterPhase(q1).phase.Done? { DecideInforms(m1, m.Keys, AfterPhase(q1), live, o); }
    }
  }

  lemma DecideInforms(m: map<Addr, Replica>, stubs: set<Addr>, q: Run, live: seq<Addr>, o: Oracle)
    requires Elements(live) <= m.Keys && q.phase == Proposing && q.informed == {}
    ensures var r := DecideOverLive(m, stubs, q, live, o);
      r.run.informed == if r.run.phase == Done(true) then set a | a in live && o.inform(a).Handled? else {}
  {
    var (m1, q1) := Poll(m, stubs, q, live, o.propose);
    PollInforms(m, stubs, q, live, o.propose);
    AcceptPhase(q1);
    if !AfterPhase(q1).phase.Done? { PollInforms(m1, stubs, AfterPhase(q1), live, o.inform); }
  }

  /** A run that decides nothing leaves every data map alone. */
  lemma AbortKeepsData(m0: map<Addr, Replica>, m: map<Addr, Replica>, stubs: set<Addr>, q: Run, a: Addr)
    requires Contract(m0, m, stubs, q) && !Decided(q) && a in stubs
    ensures m[a].data == m0[a].data
  {
    assert ContractAt(m0, m0[a], m[a], stubs, q, a);
    forall k ensures Lookup(m[a], k) == Lookup(m0[a], k) {
      if k != q.key { assert SameAtKey(m0[a], m[a], k); }
    }
    SameLookups(m[a], m0[a]);
  }

  lemma RunAloneContract(s0: System, id: RunId, me: Addr, req: Request, stubs: seq<Addr>, o: Oracle)
    requires AllInv(s0) && Ascending(stubs) && Elements(stubs) == s0.stubs && me in s0.stubs && ProperRequest(req)
    requires id !in s0.runs
    ensures var r := RunPaxosOn(s0.replicas, me, req, stubs, o); Contract(s0.replicas, r.replicas, s0.stubs, r.run)
  {
    var r := RunPaxosOn(s0.replicas, me, req, stubs, o);
    var live := LiveOf(stubs, o.ping);
    RunIsBehaviour(s0, id, me, req, stubs, o);
    TraceIsOf(id, me, req, live, o, r.loops);
    RunContract(s0, RunTrace(id, me, req, live, o, r.loops), id);
  }

  /** The whole-run contract of RunPaxos, run alone on the replicas of any reachable state:
      Contract says what it does to each replica, key and round; ABORTED changes no data
      map; OK means that exactly the live replicas that handled Inform were informed. */
  lemma RunPaxosContract(stubs: seq<Addr>, es: seq<Event>, me: Addr, req: Request, o: Oracle)
    requires Ascending(stubs) && Valid(Init(Elements(stubs)), es) && me in stubs && ProperRequest(req)
    ensures var m := Exec(Init(Elements(stubs)), es).replicas;
      var r := RunPaxosOn(m, me, req, stubs, o);
      Contract(m, r.replicas, Elements(stubs), r.run) &&
      (r.run.phase == Done(false) ==> forall a :: a in stubs ==> r.replicas[a].data == m[a].data) &&
      (r.run.phase == Done(true) ==>
        r.run.informed == set a | a in LiveOf(stubs, o.ping) && o.inform(a).Handled?)
  {
    var s0 := Exec(Init(Elements(stubs)), es);
    forall key ensures Inv(ViewOf(s0, key), key) { InvAlways(Elements(stubs), es, key); }
    RunAloneContract(s0, FreshId(s0), me, req, stubs, o);
    WhoIsInformed(s0.replicas, me, req, stubs, o);
    var r := RunPaxosOn(s0.replicas, me, req, stubs, o);
    if r.run.phase == Done(false) {
      forall a | a in stubs ensures r.replicas[a].data == s0.replicas[a].data {
        AbortKeepsData(s0.replicas, r.replicas, s0.stubs, r.run, a);
      }
    }
  }

  function FreshId(s: System): (id: RunId)
    ensures id !in s.runs
  {
    if s.runs == map[] then 0
    else
      assert exists m :: m in s.runs.Keys && forall x :: x in s.runs.Keys ==> x <= m by {
        assert s.runs.Keys != {};
        var m := FiniteSetHasMax(s.runs.Keys);
      }
      var m :| m in s.runs.Keys && forall x :: x in s.runs.Keys ==> x <= m;
      m + 1
  }
}
