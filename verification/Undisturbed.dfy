/** What the coordinator can always do at rest: complete a write on its own and read it
    back. So the guarantees about successful writes are not empty promises. */
module Undisturbed {
  import opened Types
  import opened Handlers
  import opened System
  import opened KeyView
  import opened Safety
  import opened Serial
  import opened Commute
  import opened Solo
  import opened Cluster
  import opened Counterexamples

  function Doing(es: seq<Event>): seq<Action> {
    if es == [] then [] else [Do(es[0])] + Doing(es[1..])
  }

  /** Events that meet the assumptions on any key. */
  predicate AlwaysGuarded(e: Event, c: Addr) {
    (e.Ping? && c in e.live) || (e.Call? && e.outcome.Handled?) || e.Advance?
  }

  lemma {:induction false} DoesAll(cl: Cluster, es: seq<Event>)
    requires WfCluster(cl) && Valid(cl.sys, es) && forall i | 0 <= i < |es| :: AlwaysGuarded(es[i], cl.coord)
    ensures Runs(cl, Doing(es)) && After(cl, Doing(es)) == cl.(sys := Exec(cl.sys, es))
    decreases |es|
  {
    if es != [] {
      assert Allowed(cl, Do(es[0]));
      DoesAll(Next(cl, Do(es[0])), es[1..]);
      assert ([Do(es[0])] + Doing(es[1..]))[1..] == Doing(es[1..]);
    }
  }

  lemma DoesFirst(cl: Cluster, e: Event, es: seq<Event>)
    requires Allowed(cl, Do(e)) && Valid(Apply(cl.sys, e), es)
    requires forall i | 0 <= i < |es| :: AlwaysGuarded(es[i], cl.coord)
    ensures Valid(cl.sys, [e] + es) && Runs(cl, Doing([e] + es))
    ensures After(cl, Doing([e] + es)) == cl.(sys := Exec(cl.sys, [e] + es))
    ensures Exec(cl.sys, [e] + es) == Exec(Apply(cl.sys, e), es)
  {
    DoesAll(Next(cl, Do(e)), es);
    ValidCons(cl.sys, e, es);
    assert ([e] + es)[1..] == es;
    assert ([Do(e)] + Doing(es))[1..] == Doing(es);
  }

  lemma AloneIsGuarded(id: RunId, c: Addr)
    ensures forall i | 0 <= i < |RunAlone(id, c)| :: AlwaysGuarded(RunAlone(id, c)[i], c)
  {}

  lemma StartIsAllowed(cl: Cluster, id: RunId, key: Key, x: Value)
    requires WfCluster(cl) && AtRest(cl.sys) && id !in cl.sys.runs && key != COORDINATOR_KEY
    ensures Allowed(cl, Do(Start(id, cl.coord, Put(key, x))))
    ensures var s := Apply(cl.sys, Start(id, cl.coord, Put(key, x)));
      Untouched(s, id, cl.coord) && s.runs[id].op == Op(Set, x) && s.runs[id].key == key
  {
    forall k | k != COORDINATOR_KEY ensures NoneActive(ViewOf(cl.sys, k)) { RestOnKey(cl.sys, k); }
  }

  lemma AloneIsOf(id: RunId, c: Addr, e: Event)
    requires RunEvent(e) && e.id == id
    ensures EventsOf([e] + RunAlone(id, c), {id}) && [e] + RunAlone(id, c) != []
  {}

  lemma WrittenAlone(s0: System, es: seq<Event>, id: RunId, c: Addr, key: Key, x: Value)
    requires AllInv(s0) && c in s0.stubs && id !in s0.runs && es != [] && EventsOf(es, {id}) && Valid(s0, es)
    requires var s := Exec(s0, es);
      ReturnedOwn(s, id, c) && s.runs[id].op == Op(Set, x) && s.runs[id].key == key != COORDINATOR_KEY &&
      s.runs[id].round == LatestRound(LogOf(s0.replicas[c], key)) + 1
    ensures c in Exec(s0, es).replicas && Lookup(Exec(s0, es).replicas[c], key) == Some(x)
  {
    RunContract(s0, es, id);
    OwnIsWritten(s0, Exec(s0, es), id, c, key, x);
  }

  lemma OwnIsWritten(s0: System, s: System, id: RunId, c: Addr, key: Key, x: Value)
    requires Wf(s0) && c in s0.stubs && ReturnedOwn(s, id, c)
    requires s.runs[id].op == Op(Set, x) && s.runs[id].key == key
    requires s.runs[id].round == LatestRound(LogOf(s0.replicas[c], key)) + 1
    requires Contract(s0.replicas, s.replicas, s0.stubs, s.runs[id])
    ensures c in s.replicas && Lookup(s.replicas[c], key) == Some(x)
  {
    var q := s.runs[id];
    assert NoneAhead(s0.replicas, q) && q.proposal == Op(Set, x) && c in q.informed;
    ContractMeansWritten(s0.replicas, s.replicas, s0.stubs, q, c, x);
  }

  /** An informed replica stores what the run proposed, if no live replica was ahead. */
  lemma ContractMeansWritten(m0: map<Addr, Replica>, m: map<Addr, Replica>, stubs: set<Addr>, q: Run, a: Addr, x: Value)
    requires Contract(m0, m, stubs, q) && a in q.informed && q.proposal == Op(Set, x) && NoneAhead(m0, q)
    ensures a in m && Lookup(m[a], q.key) == Some(x)
  {
    assert ContractAt(m0, m0[a], m[a], stubs, q, a);
  }

  /** The write runs to its end, and returns OK with its own operation. */
  lemma DoneAlone(cl: Cluster, id: RunId, key: Key, x: Value) returns (es: seq<Event>)
    requires WfCluster(cl) && AtRest(cl.sys) && id !in cl.sys.runs && key != COORDINATOR_KEY
    ensures es == [Start(id, cl.coord, Put(key, x))] + RunAlone(id, cl.coord)
    ensures es != [] && EventsOf(es, {id}) && Valid(cl.sys, es)
    ensures Runs(cl, Doing(es)) && After(cl, Doing(es)) == cl.(sys := Exec(cl.sys, es))
    ensures var s := Exec(cl.sys, es);
      ReturnedOwn(s, id, cl.coord) && s.runs[id].op == Op(Set, x) && s.runs[id].key == key &&
      s.runs[id].round == LatestRound(LogOf(cl.sys.replicas[cl.coord], key)) + 1
  {
    var e, c := Start(id, cl.coord, Put(key, x)), cl.coord;
    es := [e] + RunAlone(id, c);
    StartIsAllowed(cl, id, key, x);
    OneAcceptorDecides(Apply(cl.sys, e), id, c);
    AloneIsGuarded(id, c);
    DoesFirst(cl, e, RunAlone(id, c));
    AloneIsOf(id, c, e);
  }

  /** At rest the coordinator can always complete a write by itself, and read it back. */
  lemma CoordinatorAloneCanWrite(cl: Cluster, id: RunId, key: Key, x: Value)
    requires ClusterInv(cl) && AtRest(cl.sys) && id !in cl.sys.runs && key != COORDINATOR_KEY
    ensures var acts := Doing([Start(id, cl.coord, Put(key, x))] + RunAlone(id, cl.coord));
      Runs(cl, acts) &&
      var s := After(cl, acts).sys;
      id in s.runs && s.runs[id].phase == Done(true) && HandleGet(s.replicas[cl.coord], key) == Found(x)
  {
    var es := DoneAlone(cl, id, key, x);
    forall k ensures Inv(ViewOf(cl.sys, k), k) { assert KeyInv(ViewOf(cl.sys, k), k, cl.coord); }
    WrittenAlone(cl.sys, es, id, cl.coord, key, x);
  }
}
