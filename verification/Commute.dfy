/** Runs on distinct keys commute: any interleaving of two of them ends in the same
    state, and with the same return statuses, as one after the other. */
module Commute {
  import opened Types
  import opened Handlers
  import opened System
  import opened KeyView
  import opened Safety

  /** Everything that one run event writes: its run, one key of at most one replica, the
      coordinator address stored there, and that key's history. */
  datatype Patch = Patch(
    key: Key, id: RunId, run: Run,
    at: Option<Addr>, log: Log, value: Option<Value>, coordinator: Option<Addr>,
    hist: Option<seq<Entry>>, decided: Option<seq<Entry>>)

  function PatchData(data: map<Key, Value>, key: Key, value: Option<Value>): map<Key, Value> {
    match value case Some(x) => data[key := x] case None => data - {key}
  }

  function PatchReplica(r: Replica, p: Patch): Replica {
    Replica(PatchData(r.data, p.key, p.value), r.logs[p.key := p.log],
            if p.coordinator.Some? then p.coordinator.value else r.coordinator)
  }

  predicate Fits(s: System, p: Patch) { Wf(s) && (p.at.Some? ==> p.at.value in s.stubs) }

  function PatchReplicas(m: map<Addr, Replica>, p: Patch): map<Addr, Replica>
    requires p.at.Some? ==> p.at.value in m
  {
    if p.at.None? then m else m[p.at.value := PatchReplica(m[p.at.value], p)]
  }

  function PatchHist(m: map<Addr, map<Key, seq<Entry>>>, p: Patch): map<Addr, map<Key, seq<Entry>>>
    requires p.at.Some? ==> p.at.value in m
  {
    if p.at.None? || p.hist.None? then m else m[p.at.value := m[p.at.value][p.key := p.hist.value]]
  }

  function ApplyPatch(s: System, p: Patch): (s': System)
    requires Fits(s, p)
    ensures Wf(s') && s'.stubs == s.stubs
  {
    System(s.stubs, PatchReplicas(s.replicas, p), s.runs[p.id := p.run],
           if p.decided.Some? then s.decided[p.key := p.decided.value] else s.decided,
           PatchHist(s.hist, p))
  }

  /** The replica that handles something in this event. */
  function Target(e: Event): Option<Addr> {
    match e
    case Start(_, proposer, _) => Some(proposer)
    case Call(_, a, o) => if o.Handled? then Some(a) else None
    case Late(_, a, _, _) => Some(a)
    case _ => None
  }

  predicate Informs(q: Run, e: Event) {
    (e.Call? && e.outcome.Handled? && q.phase == Informing) || (e.Late? && e.rpc == InformRpc)
  }

  /** The coordinator address that the event stores at its target, if any. */
  function NewCoordinator(v: View, stubs: set<Addr>, e: Event): Option<Addr> {
    if (e.Call? || e.Late?) && e.id in v.runs && e.a in v.logs && Informs(v.runs[e.id], e) &&
       Executes(v.logs[e.a], v.runs[e.id].round) && v.runs[e.id].proposal.kind == SetCoordinator &&
       v.runs[e.id].proposal.value in stubs
    then Some(v.runs[e.id].proposal.value) else None
  }

  /** A patch reads nothing but the view of its own key. */
  function PatchOf(v: View, stubs: set<Addr>, e: Event, key: Key): Patch
    requires WfView(v) && VEnabled(v, e) && RunEvent(e)
  {
    var v' := VApply(v, e);
    var at := Target(e);
    Patch(key, e.id, v'.runs[e.id], at,
          if at.Some? then v'.logs[at.value] else map[],
          if at.Some? then v'.vals[at.value] else None,
          NewCoordinator(v, stubs, e),
          if at.Some? && v'.hist[at.value] != v.hist[at.value] then Some(v'.hist[at.value]) else None,
          if v'.decided != v.decided then Some(v'.decided) else None)
  }

  // ---- Every event is its patch ----------------------------------------------

  lemma PatchesReplica(r: Replica, r': Replica, p: Patch)
    requires SameElsewhere(r, r', p.key) && LogOf(r', p.key) == p.log && Lookup(r', p.key) == p.value
    requires r'.coordinator == if p.coordinator.Some? then p.coordinator.value else r.coordinator
    ensures r' == PatchReplica(r, p)
  {
    assert r'.logs == r.logs[p.key := p.log];
    forall k | k != p.key ensures k in r'.data <==> k in r.data {
      assert k in r'.data.Keys - {p.key} <==> k in r.data.Keys - {p.key};
    }
    assert Lookup(r', p.key) == p.value;
    assert r'.data == PatchData(r.data, p.key, p.value);
  }

  lemma DeliverReplica(s: System, id: RunId, rpc: Rpc, a: Addr, fail: bool)
    requires Wf(s) && id in s.runs && a in s.stubs
    ensures var s' := Deliver(s, id, rpc, a, fail); var q := s.runs[id]; var log := LogOf(s.replicas[a], q.key);
      s'.stubs == s.stubs && s'.decided == s.decided &&
      s'.replicas == s.replicas[a := s'.replicas[a]] &&
      SameElsewhere(s.replicas[a], s'.replicas[a], q.key) &&
      s'.replicas[a].coordinator ==
        (if rpc == InformRpc && Executes(log, q.round) &&
            q.proposal.kind == SetCoordinator && q.proposal.value in s.stubs
         then q.proposal.value else s.replicas[a].coordinator)
  {}

  lemma DeliverHist(s: System, id: RunId, rpc: Rpc, a: Addr, fail: bool)
    requires Wf(s) && id in s.runs && a in s.stubs
    ensures var s' := Deliver(s, id, rpc, a, fail); var key := s.runs[id].key;
      EntriesAt(s'.hist[a], key) != EntriesAt(s.hist[a], key)
      ==> s'.hist == s.hist[a := s.hist[a][key := EntriesAt(s'.hist[a], key)]]
    ensures var s' := Deliver(s, id, rpc, a, fail); var key := s.runs[id].key;
      EntriesAt(s'.hist[a], key) == EntriesAt(s.hist[a], key) ==> s'.hist == s.hist
  {
    var q := s.runs[id];
    if rpc == InformRpc && Executes(LogOf(s.replicas[a], q.key), q.round) {
      var h := EntriesAt(s.hist[a], q.key);
      assert |h + [Entry(id, q.round, q.proposal)]| == |h| + 1;
    }
  }

  /** s' is s with p applied, component by component. */
  predicate Patched(s: System, s': System, p: Patch)
    requires Fits(s, p)
  {
    s'.stubs == s.stubs && s'.replicas == PatchReplicas(s.replicas, p) && s'.runs == s.runs[p.id := p.run] &&
    s'.decided == (if p.decided.Some? then s.decided[p.key := p.decided.value] else s.decided) &&
    s'.hist == PatchHist(s.hist, p)
  }

  /** What a patch of the event must say, read off the state after it. */
  predicate Describes(s: System, s': System, e: Event, p: Patch) {
    RunEvent(e) && Wf(s) && Wf(s') && s'.stubs == s.stubs &&
    p.id == e.id && e.id in s'.runs && p.run == s'.runs[e.id] && p.at == Target(e) &&
    (p.at.Some? ==>
      p.at.value in s.stubs &&
      p.log == LogOf(s'.replicas[p.at.value], p.key) && p.value == Lookup(s'.replicas[p.at.value], p.key) &&
      p.hist == (if EntriesAt(s'.hist[p.at.value], p.key) != EntriesAt(s.hist[p.at.value], p.key)
                 then Some(EntriesAt(s'.hist[p.at.value], p.key)) else None)) &&
    p.decided == (if EntriesAt(s'.decided, p.key) != EntriesAt(s.decided, p.key)
                  then Some(EntriesAt(s'.decided, p.key)) else None)
  }

  lemma PatchDescribes(s: System, e: Event, key: Key)
    requires Wf(s) && Enabled(s, e) && RunEvent(e) && Concerns(s, e, key) && VEnabled(ViewOf(s, key), e)
    ensures Describes(s, Apply(s, e), e, PatchOf(ViewOf(s, key), s.stubs, e, key))
  {
    ViewStep(s, e, key);
    var v, v' := ViewOf(s, key), ViewOf(Apply(s, e), key);
    assert v' == VApply(v, e);
  }

  lemma PatchedDeliver(s: System, s': System, e: Event, id: RunId, rpc: Rpc, a: Addr, fail: bool, p: Patch)
    requires Wf(s) && id in s.runs && a in s.stubs && p.key == s.runs[id].key && p.id == id && p.at == Some(a)
    requires var d := Deliver(s, id, rpc, a, fail);
      Describes(s, s', e, p) && s'.replicas == d.replicas && s'.hist == d.hist && s'.decided == d.decided &&
      s'.runs == s.runs[id := s'.runs[id]] &&
      p.coordinator == (if rpc == InformRpc && Executes(LogOf(s.replicas[a], p.key), s.runs[id].round) &&
                           s.runs[id].proposal.kind == SetCoordinator && s.runs[id].proposal.value in s.stubs
                        then Some(s.runs[id].proposal.value) else None)
    ensures Patched(s, s', p)
  {
    DeliverReplica(s, id, rpc, a, fail);
    DeliverHist(s, id, rpc, a, fail);
    PatchesReplica(s.replicas[a], s'.replicas[a], p);
  }

  lemma PatchedCall(s: System, e: Event, p: Patch)
    requires Wf(s) && Enabled(s, e) && e.Call? && p.key == s.runs[e.id].key
    requires Describes(s, Apply(s, e), e, p)
    requires p.coordinator == NewCoordinator(ViewOf(s, p.key), s.stubs, e)
    ensures Patched(s, Apply(s, e), p)
  {
    var q := s.runs[e.id];
    var s1 := CallApplies(s, e.id, e.a, e.outcome);
    assert Apply(s, e).runs == s.runs[e.id := Apply(s, e).runs[e.id]] by { CallRuns(s, e.id, e.a, e.outcome); }
    if e.outcome.Handled? {
      PatchedDeliver(s, Apply(s, e), e, e.id, RpcOf(q.phase), e.a, e.outcome.fail, p);
    }
  }

  lemma PatchedLate(s: System, e: Event, p: Patch)
    requires Wf(s) && Enabled(s, e) && e.Late? && p.key == s.runs[e.id].key
    requires Describes(s, Apply(s, e), e, p)
    requires p.coordinator == NewCoordinator(ViewOf(s, p.key), s.stubs, e)
    ensures Patched(s, Apply(s, e), p)
  {
    DeliverRuns(s, e.id, e.rpc, e.a, e.fail);
    PatchedDeliver(s, Apply(s, e), e, e.id, e.rpc, e.a, e.fail, p);
  }

  lemma PatchedStart(s: System, e: Event, p: Patch)
    requires Wf(s) && Enabled(s, e) && e.Start? && p.key == e.req.key
    requires Describes(s, Apply(s, e), e, p) && p.coordinator == None
    ensures Patched(s, Apply(s, e), p)
  {
    PatchesReplica(s.replicas[e.proposer], Apply(s, e).replicas[e.proposer], p);
  }

  lemma PatchedAdvance(s: System, e: Event, p: Patch)
    requires Wf(s) && Enabled(s, e) && e.Advance? && p.key == s.runs[e.id].key
    requires Describes(s, Apply(s, e), e, p)
    ensures Patched(s, Apply(s, e), p)
  {
    var q := s.runs[e.id];
    if ReachesConsensus(q) {
      var d := EntriesAt(s.decided, q.key);
      assert |d + [Entry(e.id, q.round, q.proposal)]| == |d| + 1;
    }
  }

  /** A run event changes the state by its patch, which the view of its key determines. */
  lemma EventIsPatch(s: System, e: Event, key: Key)
    requires Wf(s) && Enabled(s, e) && RunEvent(e) && Concerns(s, e, key)
    ensures VEnabled(ViewOf(s, key), e)
    ensures var p := PatchOf(ViewOf(s, key), s.stubs, e, key);
      Fits(s, p) && Apply(s, e) == ApplyPatch(s, p)
  {
    ViewStep(s, e, key);
    PatchDescribes(s, e, key);
    var p := PatchOf(ViewOf(s, key), s.stubs, e, key);
    match e
    case Start(_, _, _) => PatchedStart(s, e, p);
    case Ping(_, _) =>
    case Call(_, _, _) => PatchedCall(s, e, p);
    case Late(_, _, _, _) => PatchedLate(s, e, p);
    case Advance(_) => PatchedAdvance(s, e, p);
  }

  // ---- Patches of different keys commute --------------------------------------

  /** Different keys, different runs, and at most one of them stores a coordinator. */
  predicate Apart(p: Patch, q: Patch) {
    p.key != q.key && p.id != q.id && (p.coordinator.None? || q.coordinator.None?)
  }

  lemma DataCommutes(m: map<Key, Value>, k: Key, x: Option<Value>, l: Key, y: Option<Value>)
    requires k != l
    ensures PatchData(PatchData(m, k, x), l, y) == PatchData(PatchData(m, l, y), k, x)
  {}

  lemma UpdatesCommute<K, V>(m: map<K, V>, k: K, x: V, l: K, y: V)
    requires k != l
    ensures m[k := x][l := y] == m[l := y][k := x]
  {}

  lemma ReplicaCommutes(r: Replica, p: Patch, q: Patch)
    requires Apart(p, q)
    ensures PatchReplica(PatchReplica(r, p), q) == PatchReplica(PatchReplica(r, q), p)
  {
    DataCommutes(r.data, p.key, p.value, q.key, q.value);
    UpdatesCommute(r.logs, p.key, p.log, q.key, q.log);
  }

  lemma ReplicasCommute(m: map<Addr, Replica>, p: Patch, q: Patch)
    requires Apart(p, q) && (p.at.Some? ==> p.at.value in m) && (q.at.Some? ==> q.at.value in m)
    ensures PatchReplicas(PatchReplicas(m, p), q) == PatchReplicas(PatchReplicas(m, q), p)
  {
    if p.at.Some? && q.at.Some? {
      var a, b := p.at.value, q.at.value;
      if a == b {
        ReplicaCommutes(m[a], p, q);
        UpdateTwice(m, a, PatchReplica(m[a], p), PatchReplica(PatchReplica(m[a], p), q));
        UpdateTwice(m, a, PatchReplica(m[a], q), PatchReplica(PatchReplica(m[a], q), p));
      } else {
        UpdatesCommute(m, a, PatchReplica(m[a], p), b, PatchReplica(m[b], q));
      }
    }
  }

  lemma HistCommutes(m: map<Addr, map<Key, seq<Entry>>>, p: Patch, q: Patch)
    requires Apart(p, q) && (p.at.Some? ==> p.at.value in m) && (q.at.Some? ==> q.at.value in m)
    ensures PatchHist(PatchHist(m, p), q) == PatchHist(PatchHist(m, q), p)
  {
    if p.at.Some? && q.at.Some? && p.hist.Some? && q.hist.Some? {
      var a, b := p.at.value, q.at.value;
      var x, y := m[a][p.key := p.hist.value], m[b][q.key := q.hist.value];
      if a == b {
        UpdatesCommute(m[a], p.key, p.hist.value, q.key, q.hist.value);
        UpdateTwice(m, a, x, x[q.key := q.hist.value]);
        UpdateTwice(m, a, y, y[p.key := p.hist.value]);
      } else {
        UpdatesCommute(m, a, x, b, y);
      }
    }
  }

  lemma PatchesCommute(s: System, p: Patch, q: Patch)
    requires Fits(s, p) && Fits(s, q) && Apart(p, q)
    ensures Fits(ApplyPatch(s, p), q) && Fits(ApplyPatch(s, q), p)
    ensures ApplyPatch(ApplyPatch(s, p), q) == ApplyPatch(ApplyPatch(s, q), p)
  {
    ReplicasCommute(s.replicas, p, q);
    HistCommutes(s.hist, p, q);
    UpdatesCommute(s.runs, p.id, p.run, q.id, q.run);
    if p.decided.Some? && q.decided.Some? {
      UpdatesCommute(s.decided, p.key, p.decided.value, q.key, q.decided.value);
    }
  }

  // ---- Steps of different runs on different keys commute ----------------------

  ghost predicate AllInv(s: System) { Wf(s) && forall key :: Inv(ViewOf(s, key), key) }

  /** The key that a run event is about. */
  predicate OnKey(s: System, e: Event, key: Key) {
    RunEvent(e) && (if e.Start? then e.req.key == key else e.id in s.runs && s.runs[e.id].key == key)
  }

  lemma NoCoordinatorOffKey(s: System, e: Event, key: Key)
    requires AllInv(s) && Enabled(s, e) && OnKey(s, e, key) && key != COORDINATOR_KEY
    ensures NewCoordinator(ViewOf(s, key), s.stubs, e).None?
  {
    var v := ViewOf(s, key);
    if e.id in v.runs && v.runs[e.id].proposal.kind == SetCoordinator {
      assert Inv(v, key);
      ProposalFits(v, key, v.runs[e.id]);
    }
  }

  lemma ProposalFits(v: View, key: Key, q: Run)
    requires Inv(v, key) && RunOk(v, key, q) && Proposed(q)
    ensures FitsKey(key, q.proposal)
  {
    var i :| i in v.runs && v.runs[i].op == q.proposal;
    assert RunOk(v, key, v.runs[i]);
  }

  lemma EnabledBefore(s: System, e: Event, f: Event)
    requires Wf(s) && Enabled(s, e) && RunEvent(e) && RunEvent(f) && e.id != f.id
    ensures Enabled(Apply(s, e), f) <==> Enabled(s, f)
  {
    RunsOfOthers(s, e, f.id);
  }

  lemma RunsOfOthers(s: System, e: Event, id: RunId)
    requires Wf(s) && Enabled(s, e) && RunEvent(e) && e.id != id
    ensures id in Apply(s, e).runs <==> id in s.runs
    ensures id in s.runs ==> Apply(s, e).runs[id] == s.runs[id]
  {}

  lemma BothEnabled(s: System, e: Event, f: Event, key': Key)
    requires Wf(s) && Enabled(s, e) && Enabled(s, f) && RunEvent(e) && RunEvent(f) && e.id != f.id && OnKey(s, f, key')
    ensures Enabled(Apply(s, e), f) && OnKey(Apply(s, e), f, key')
  {
    EnabledBefore(s, e, f);
    RunsOfOthers(s, e, f.id);
  }

  /** Only one of two events on different keys can store a coordinator. */
  lemma PatchesApart(s: System, e: Event, f: Event, key: Key, key': Key)
    requires AllInv(s) && Enabled(s, e) && Enabled(s, f) && key != key' && RunEvent(e) && RunEvent(f) && e.id != f.id
    requires OnKey(s, e, key) && OnKey(s, f, key')
    ensures Apart(PatchIn(s, e, key), PatchIn(s, f, key'))
  {
    if key != COORDINATOR_KEY { NoCoordinatorOffKey(s, e, key); } else { NoCoordinatorOffKey(s, f, key'); }
  }

  lemma StepsCommute(s: System, e: Event, f: Event, key: Key, key': Key)
    requires AllInv(s) && Enabled(s, e) && Enabled(s, f) && key != key' && RunEvent(e) && RunEvent(f) && e.id != f.id
    requires OnKey(s, e, key) && OnKey(s, f, key')
    ensures Enabled(Apply(s, e), f) && Enabled(Apply(s, f), e)
    ensures Apply(Apply(s, e), f) == Apply(Apply(s, f), e)
  {
    BothEnabled(s, e, f, key');
    BothEnabled(s, f, e, key);
    PatchesApart(s, e, f, key, key');
    PatchAfter(s, e, key, f, key');
    PatchAfter(s, f, key', e, key);
    PatchesCommute(s, PatchIn(s, e, key), PatchIn(s, f, key'));
  }

  lemma PatchEnabled(s: System, e: Event, key: Key)
    requires Wf(s) && Enabled(s, e) && RunEvent(e) && OnKey(s, e, key)
    ensures VEnabled(ViewOf(s, key), e)
  {
    ViewStep(s, e, key);
  }

  function PatchIn(s: System, e: Event, key: Key): Patch
    requires Wf(s) && Enabled(s, e) && RunEvent(e) && OnKey(s, e, key)
  {
    PatchEnabled(s, e, key);
    PatchOf(ViewOf(s, key), s.stubs, e, key)
  }

  /** A step on another key does not change the patch of an event. */
  lemma PatchAfter(s: System, e: Event, key: Key, f: Event, key': Key)
    requires Wf(s) && Enabled(s, e) && RunEvent(e) && OnKey(s, e, key) && key != key'
    requires Enabled(s, f) && RunEvent(f) && OnKey(s, f, key') && Enabled(Apply(s, e), f) && OnKey(Apply(s, e), f, key')
    ensures var p, q := PatchIn(s, e, key), PatchIn(s, f, key');
      Fits(s, p) && Fits(ApplyPatch(s, p), q) && Fits(s, q) && Apply(s, f) == ApplyPatch(s, q) &&
      Apply(Apply(s, e), f) == ApplyPatch(ApplyPatch(s, p), q)
  {
    OneEvent(s, e, key);
    OneEvent(s, f, key');
    OneEvent(Apply(s, e), f, key');
    SamePatch(s, e, key, f, key');
  }

  lemma OneEvent(s: System, e: Event, key: Key)
    requires Wf(s) && Enabled(s, e) && RunEvent(e) && OnKey(s, e, key)
    ensures Fits(s, PatchIn(s, e, key)) && Apply(s, e) == ApplyPatch(s, PatchIn(s, e, key))
  {
    EventIsPatch(s, e, key);
  }

  /** A step on another key does not change what an event writes. */
  lemma SamePatch(s: System, e: Event, key: Key, f: Event, key': Key)
    requires Wf(s) && Enabled(s, e) && RunEvent(e) && OnKey(s, e, key) && key != key'
    requires Enabled(s, f) && RunEvent(f) && OnKey(s, f, key') && Enabled(Apply(s, e), f) && OnKey(Apply(s, e), f, key')
    ensures PatchIn(Apply(s, e), f, key') == PatchIn(s, f, key')
  {
    ViewStep(s, e, key');
  }

  // ---- Interleavings ----------------------------------------------------------

  lemma AllInvStep(s: System, e: Event)
    requires AllInv(s) && Enabled(s, e)
    ensures AllInv(Apply(s, e))
  {
    forall key ensures Inv(ViewOf(Apply(s, e), key), key) {
      ViewStep(s, e, key);
      if Concerns(s, e, key) { InvStep(ViewOf(s, key), key, e); }
    }
  }

  /** Run id is about this key: it has started on it or will. */
  predicate AboutKey(s: System, id: RunId, key: Key, es: seq<Event>) {
    (id in s.runs ==> s.runs[id].key == key) &&
    forall n | 0 <= n < |es| :: es[n].Start? && es[n].id == id ==> es[n].req.key == key
  }

  predicate EventsOf(es: seq<Event>, ids: set<RunId>) {
    forall n | 0 <= n < |es| :: RunEvent(es[n]) && es[n].id in ids
  }

  /** The events of one run, in order. */
  function Only(es: seq<Event>, id: RunId): (r: seq<Event>)
    requires forall n | 0 <= n < |es| :: RunEvent(es[n])
    ensures EventsOf(r, {id}) && forall e :: e in r ==> e in es
  {
    if es == [] then []
    else
      assert RunEvent(es[0]);
      if es[0].id == id then [es[0]] + Only(es[1..], id)
      else Only(es[1..], id)
  }

  lemma AboutKeyStep(s: System, e: Event, id: RunId, key: Key, es: seq<Event>)
    requires Wf(s) && Enabled(s, e) && AboutKey(s, id, key, [e] + es)
    ensures AboutKey(Apply(s, e), id, key, es) && AboutKey(s, id, key, es)
    ensures RunEvent(e) && e.id == id ==> OnKey(s, e, key)
  {
    assert ([e] + es)[0] == e;
    forall n | 0 <= n < |es| ensures es[n] == ([e] + es)[n + 1] {}
    if id in s.runs { StepKeepsRequest(s, e, id); }
    else if id in Apply(s, e).runs { StartMakesRun(s, e, id); assert e.id == id; }
  }

  lemma ValidCons(s: System, e: Event, es: seq<Event>)
    requires Wf(s)
    ensures Valid(s, [e] + es) <==> Enabled(s, e) && Valid(Apply(s, e), es)
    ensures Valid(s, [e] + es) ==> Exec(s, [e] + es) == Exec(Apply(s, e), es)
  {
    assert ([e] + es)[1..] == es;
  }

  /** An event of run j may be moved past events of run i. */
  lemma {:induction false} MovePast(s: System, e: Event, ts: seq<Event>, i: RunId, k: Key, l: Key)
    requires AllInv(s) && Valid(s, [e] + ts) && EventsOf(ts, {i}) && RunEvent(e) && e.id != i && k != l
    requires AboutKey(s, i, k, ts) && AboutKey(s, e.id, l, [e])
    ensures Valid(s, ts + [e]) && Exec(s, ts + [e]) == Exec(s, [e] + ts)
    decreases |ts|
  {
    if ts == [] {
      assert ts + [e] == [e] + ts;
    } else {
      var t, us := ts[0], ts[1..];
      assert EventsOf(us, {i}) && t.id == i && RunEvent(t);
      assert ts == [t] + us;
      var s' := MoveFirst(s, e, ts, t, us, k, l);
      MovePast(s', e, us, i, k, l);
    }
  }

  /** ... past the first of them, to state s' with us to go. */
  /** ... past the first of them, to state s' with us to go. */
  lemma MoveFirst(s: System, e: Event, ts: seq<Event>, t: Event, us: seq<Event>, k: Key, l: Key) returns (s': System)
    requires ts == [t] + us
    requires AllInv(s) && Valid(s, [e] + ts) && RunEvent(t) && RunEvent(e) && e.id != t.id && k != l
    requires AboutKey(s, t.id, k, ts) && AboutKey(s, e.id, l, [e])
    ensures AllInv(s') && Valid(s', [e] + us) && AboutKey(s', t.id, k, us) && AboutKey(s', e.id, l, [e])
    ensures Exec(s', [e] + us) == Exec(s, [e] + ts)
    ensures Valid(s', us + [e]) ==> Valid(s, ts + [e]) && Exec(s, ts + [e]) == Exec(s', us + [e])
  {
    MoveOne(s, e, t, us, k, l);
    AllInvStep(s, t);
    AboutKeyStep(s, t, t.id, k, us);
    s' := Apply(s, t);
    if Valid(s', us + [e]) { PutBack(s, t, us, e); }
  }

  lemma PutBack(s: System, t: Event, us: seq<Event>, e: Event)
    requires Wf(s) && Enabled(s, t) && Valid(Apply(s, t), us + [e])
    ensures Valid(s, ([t] + us) + [e]) && Exec(s, ([t] + us) + [e]) == Exec(Apply(s, t), us + [e])
  {
    assert ([t] + us) + [e] == [t] + (us + [e]);
    ValidCons(s, t, us + [e]);
  }

  lemma MoveOne(s: System, e: Event, t: Event, us: seq<Event>, k: Key, l: Key)
    requires AllInv(s) && Valid(s, [e] + ([t] + us)) && RunEvent(t) && RunEvent(e) && e.id != t.id && k != l
    requires AboutKey(s, t.id, k, [t] + us) && AboutKey(s, e.id, l, [e])
    ensures Enabled(s, t) && Valid(Apply(s, t), [e] + us) && AboutKey(Apply(s, t), e.id, l, [e])
    ensures Exec(Apply(s, t), [e] + us) == Exec(s, [e] + ([t] + us))
  {
    ValidCons(s, e, [t] + us);
    ValidCons(Apply(s, e), t, us);
    EnabledBefore(s, e, t);
    assert OnKey(s, t, k) by { AboutKeyStep(s, t, t.id, k, us); }
    assert OnKey(s, e, l) by { assert [e] == [e] + []; AboutKeyStep(s, e, e.id, l, []); }
    StepsCommute(s, e, t, l, k);
    ValidCons(Apply(s, t), e, us);
    RunsOfOthers(s, t, e.id);
  }

  /** Any interleaving of two runs on different keys ends in the same state (replicas,
      coordinators, histories) with the same return statuses as run i followed by run j. */
  lemma {:induction false} InterleavingSerializes(s: System, es: seq<Event>, i: RunId, j: RunId, k: Key, l: Key)
    requires AllInv(s) && Valid(s, es) && EventsOf(es, {i, j}) && i != j && k != l
    requires AboutKey(s, i, k, es) && AboutKey(s, j, l, es)
    ensures Valid(s, Only(es, i) + Only(es, j))
    ensures Exec(s, Only(es, i) + Only(es, j)) == Exec(s, es)
    decreases |es|
  {
    if es != [] {
      var e, t := es[0], es[1..];
      assert es == [e] + t;
      AllInvStep(s, e);
      AboutKeyStep(s, e, i, k, t);
      AboutKeyStep(s, e, j, l, t);
      InterleavingSerializes(Apply(s, e), t, i, j, k, l);
      OnlyAboutKey(s, t, i, k);
      OnlyCons(e, t, i);
      OnlyCons(e, t, j);
      ValidCons(s, e, Only(t, i) + Only(t, j));
      if e.id == i {
        ExtendFront(s, e, Only(t, i), Only(t, j));
      } else {
        SwapFront(s, e, Only(t, i), Only(t, j), i, j, k, l);
      }
    } else {
      assert Only(es, i) + Only(es, j) == [];
    }
  }

  lemma OnlyCons(e: Event, t: seq<Event>, id: RunId)
    requires RunEvent(e) && forall n | 0 <= n < |t| :: RunEvent(t[n])
    ensures (forall n | 0 <= n < |[e] + t| :: RunEvent(([e] + t)[n])) &&
            Only([e] + t, id) == if e.id == id then [e] + Only(t, id) else Only(t, id)
  {
    assert ([e] + t)[1..] == t;
  }

  lemma OnlyAboutKey(s: System, t: seq<Event>, id: RunId, key: Key)
    requires (forall n | 0 <= n < |t| :: RunEvent(t[n])) && AboutKey(s, id, key, t)
    ensures AboutKey(s, id, key, Only(t, id))
  {
    var r := Only(t, id);
    forall n | 0 <= n < |r| && r[n].Start? && r[n].id == id ensures r[n].req.key == key { assert r[n] in t; }
  }

  /** An event of the first of two runs that already follow each other. */
  lemma ExtendFront(s: System, e: Event, ti: seq<Event>, tj: seq<Event>)
    requires Wf(s) && Enabled(s, e) && Valid(Apply(s, e), ti + tj)
    ensures Valid(s, ([e] + ti) + tj) && Exec(s, ([e] + ti) + tj) == Exec(Apply(s, e), ti + tj)
  {
    Associate([e], ti, tj);
    ValidCons(s, e, ti + tj);
  }

  lemma Associate(x: seq<Event>, y: seq<Event>, z: seq<Event>)
    ensures (x + y) + z == x + (y + z)
  {}

  /** An event of the second is moved past the first. */
  lemma SwapFront(s: System, e: Event, ti: seq<Event>, tj: seq<Event>, i: RunId, j: RunId, k: Key, l: Key)
    requires AllInv(s) && Valid(s, [e] + (ti + tj)) && EventsOf(ti, {i}) && RunEvent(e) && e.id == j && i != j && k != l
    requires AboutKey(s, i, k, ti) && AboutKey(s, j, l, [e])
    ensures Valid(s, ti + ([e] + tj)) && Exec(s, ti + ([e] + tj)) == Exec(s, [e] + (ti + tj))
  {
    assert [e] + (ti + tj) == ([e] + ti) + tj;
    assert ti + ([e] + tj) == (ti + [e]) + tj;
    SplitValid(s, [e] + ti, tj);
    MovePast(s, e, ti, i, k, l);
    ExecConcat(s, ti + [e], tj);
    ExecConcat(s, [e] + ti, tj);
  }

  lemma {:induction false} SplitValid(s: System, es: seq<Event>, fs: seq<Event>)
    requires Wf(s) && Valid(s, es + fs)
    ensures Valid(s, es) && Valid(Exec(s, es), fs)
    decreases |es|
  {
    if es == [] {
      assert es + fs == fs;
    } else {
      assert (es + fs)[1..] == es[1..] + fs && (es + fs)[0] == es[0];
      SplitValid(Apply(s, es[0]), es[1..], fs);
    }
  }

  /** ... in particular from every reachable state. */
  lemma DistinctKeysCommute(stubs: set<Addr>, es: seq<Event>, fs: seq<Event>, i: RunId, j: RunId, k: Key, l: Key)
    requires Valid(Init(stubs), es) && Valid(Exec(Init(stubs), es), fs) && EventsOf(fs, {i, j}) && i != j && k != l
    requires AboutKey(Exec(Init(stubs), es), i, k, fs) && AboutKey(Exec(Init(stubs), es), j, l, fs)
    ensures var s := Exec(Init(stubs), es);
      Valid(s, Only(fs, i) + Only(fs, j)) && Valid(s, Only(fs, j) + Only(fs, i)) &&
      Exec(s, Only(fs, i) + Only(fs, j)) == Exec(s, fs) == Exec(s, Only(fs, j) + Only(fs, i))
  {
    var s := Exec(Init(stubs), es);
    forall key ensures Inv(ViewOf(s, key), key) { InvAlways(stubs, es, key); }
    InterleavingSerializes(s, fs, i, j, k, l);
    InterleavingSerializes(s, fs, j, i, l, k);
  }
}
