/** The part of the system that one key sees, and the steps of that part. Runs on
    one key never read another key's log or value, so invariants are proved on a
    view and hold of the system through ViewStep. */
module KeyView {
  import opened Types
  import opened Handlers
  import opened System

  datatype View = View(
    logs: map<Addr, Log>,
    vals: map<Addr, Option<Value>>,
    hist: map<Addr, seq<Entry>>,
    decided: seq<Entry>,
    runs: map<RunId, Run>)

  function LogsAt(replicas: map<Addr, Replica>, key: Key): map<Addr, Log> {
    map a | a in replicas :: LogOf(replicas[a], key)
  }

  function ValsAt(replicas: map<Addr, Replica>, key: Key): map<Addr, Option<Value>> {
    map a | a in replicas :: Lookup(replicas[a], key)
  }

  function HistAt(hist: map<Addr, map<Key, seq<Entry>>>, key: Key): map<Addr, seq<Entry>> {
    map a | a in hist :: EntriesAt(hist[a], key)
  }

  function RunsAt(runs: map<RunId, Run>, key: Key): map<RunId, Run> {
    map id | id in runs && runs[id].key == key :: runs[id]
  }

  function ViewOf(s: System, key: Key): View {
    View(LogsAt(s.replicas, key), ValsAt(s.replicas, key), HistAt(s.hist, key),
         EntriesAt(s.decided, key), RunsAt(s.runs, key))
  }

  predicate WfView(v: View) {
    v.vals.Keys == v.logs.Keys && v.hist.Keys == v.logs.Keys
  }

  function VInform(v: View, id: RunId, a: Addr): (v': View)
    requires WfView(v) && id in v.runs && a in v.logs
    ensures WfView(v') && v'.logs.Keys == v.logs.Keys && v'.runs.Keys == v.runs.Keys
  {
    var q, log := v.runs[id], v.logs[a];
    var v1 := v.(logs := v.logs[a := SetAccepted(log, q.round, PROPOSE_ID, q.proposal)],
                 runs := v.runs[id := q.(informed := q.informed + {a})]);
    if Executes(log, q.round)
    then v1.(vals := v.vals[a := ApplyOp(q.proposal, v.vals[a])],
             hist := v.hist[a := v.hist[a] + [Entry(id, q.round, q.proposal)]])
    else v1
  }

  function VDeliver(v: View, id: RunId, rpc: Rpc, a: Addr, fail: bool): (v': View)
    requires WfView(v) && id in v.runs && a in v.logs
    ensures WfView(v') && v'.logs.Keys == v.logs.Keys && v'.runs.Keys == v.runs.Keys
    ensures v'.runs[id] == v.runs[id].(informed := v'.runs[id].informed)
  {
    var q, log := v.runs[id], v.logs[a];
    match rpc
    case PrepareRpc => v.(logs := v.logs[a := AddSlot(log, q.round)])
    case ProposeRpc => v.(logs := v.logs[a := ProposeLog(log, q.key, q.round, PROPOSE_ID, q.proposal, fail)])
    case InformRpc => VInform(v, id, a)
  }

  function VRestart(v: View, a: Addr): View {
    v.(logs := v.logs[a := map[]], vals := v.vals[a := None], hist := v.hist[a := []])
  }

  function VRecover(v: View, a: Addr, source: Addr): View
    requires WfView(v) && a in v.logs && source in v.logs
  {
    v.(logs := v.logs[a := v.logs[a] + v.logs[source]],
       vals := v.vals[a := if v.vals[source].Some? then v.vals[source] else v.vals[a]],
       hist := v.hist[a := if v.hist[source] != [] then v.hist[source] else v.hist[a]])
  }

  predicate VEnabled(v: View, e: Event) {
    match e
    case Start(id, proposer, req) => id !in v.runs && proposer in v.logs && ProperRequest(req)
    case Ping(id, live) => id in v.runs && v.runs[id].phase == Pinging && live <= v.logs.Keys
    case Call(id, a, _) =>
      id in v.runs && CallPhase(v.runs[id].phase) && a in v.runs[id].todo && a in v.logs
    case Late(id, a, rpc, _) =>
      id in v.runs && Sent(rpc, v.runs[id].phase) && a in v.runs[id].live && a in v.logs
    case Advance(id) => id in v.runs && CallPhase(v.runs[id].phase) && v.runs[id].todo == {}
    case Restart(a) => a in v.logs
    case Recover(a, source) => a in v.logs && source in v.logs
  }

  function VDecide(v: View, id: RunId): View
    requires id in v.runs
  {
    v.(decided := v.decided + [Entry(id, v.runs[id].round, v.runs[id].proposal)])
  }

  function VSetRun(v: View, id: RunId, q: Run): View { v.(runs := v.runs[id := q]) }

  function VCall(v: View, id: RunId, a: Addr, outcome: Outcome): (v': View)
    requires WfView(v) && id in v.runs && CallPhase(v.runs[id].phase) && a in v.logs
    ensures WfView(v') && v'.logs.Keys == v.logs.Keys
  {
    var v1 := if outcome.Handled? then VDeliver(v, id, RpcOf(v.runs[id].phase), a, outcome.fail) else v;
    VSetRun(v1, id, AfterCall(v1.runs[id], a, outcome, v.logs[a]))
  }

  /** The run reaches consensus at the end of this phase. */
  predicate ReachesConsensus(q: Run) { q.phase == Proposing && AfterPhase(q).phase == Informing }

  function VAdvance(v: View, id: RunId): View
    requires id in v.runs
  {
    VSetRun(if ReachesConsensus(v.runs[id]) then VDecide(v, id) else v, id, AfterPhase(v.runs[id]))
  }

  function VApply(v: View, e: Event): (v': View)
    requires WfView(v) && VEnabled(v, e)
    ensures WfView(v') && v'.logs.Keys == v.logs.Keys
  {
    match e
    case Start(id, proposer, req) => VSetRun(v, id, NewRun(proposer, req, v.logs[proposer]))
    case Ping(id, live) => VSetRun(v, id, AfterPing(v.runs[id], live))
    case Call(id, a, outcome) => VCall(v, id, a, outcome)
    case Late(id, a, rpc, fail) => VDeliver(v, id, rpc, a, fail)
    case Advance(id) => VAdvance(v, id)
    case Restart(a) => VRestart(v, a)
    case Recover(a, source) => VRecover(v, a, source)
  }

  /** Does the event touch this key? */
  predicate Concerns(s: System, e: Event, key: Key)
    requires Enabled(s, e)
  {
    match e
    case Start(_, _, req) => req.key == key
    case Restart(_) => true
    case Recover(_, _) => true
    case _ => s.runs[e.id].key == key
  }

  lemma UpdateSame<K, V>(m: map<K, V>, k: K)
    requires k in m
    ensures m[k := m[k]] == m
  {}

  lemma UpdateTwice<K, V>(m: map<K, V>, k: K, x: V, y: V)
    ensures m[k := x][k := y] == m[k := y]
  {}

  lemma LogsReplace(replicas: map<Addr, Replica>, a: Addr, r: Replica, key: Key)
    requires a in replicas
    ensures LogsAt(replicas[a := r], key) == LogsAt(replicas, key)[a := LogOf(r, key)]
  {}

  lemma ValsReplace(replicas: map<Addr, Replica>, a: Addr, r: Replica, key: Key)
    requires a in replicas
    ensures ValsAt(replicas[a := r], key) == ValsAt(replicas, key)[a := Lookup(r, key)]
  {}

  lemma HistReplace(hist: map<Addr, map<Key, seq<Entry>>>, a: Addr, h: map<Key, seq<Entry>>, key: Key)
    requires a in hist
    ensures HistAt(hist[a := h], key) == HistAt(hist, key)[a := EntriesAt(h, key)]
  {}

  lemma RunsReplace(runs: map<RunId, Run>, id: RunId, q: Run, key: Key)
    requires id in runs ==> runs[id].key == q.key
    ensures RunsAt(runs[id := q], key) == if q.key == key then RunsAt(runs, key)[id := q] else RunsAt(runs, key)
  {}

  lemma ReplaceView(s: System, a: Addr, r: Replica, h: map<Key, seq<Entry>>, key: Key)
    requires Wf(s) && a in s.stubs
    ensures ViewOf(s.(replicas := s.replicas[a := r], hist := s.hist[a := h]), key) ==
            ViewOf(s, key).(logs := ViewOf(s, key).logs[a := LogOf(r, key)],
                            vals := ViewOf(s, key).vals[a := Lookup(r, key)],
                            hist := ViewOf(s, key).hist[a := EntriesAt(h, key)])
  {
    LogsReplace(s.replicas, a, r, key);
    ValsReplace(s.replicas, a, r, key);
    HistReplace(s.hist, a, h, key);
  }

  /** The view after an RPC that changes only the log of `key` at a. */
  lemma AcceptorView(s: System, a: Addr, r: Replica, q: Run, key: Key)
    requires Wf(s) && a in s.stubs && SameElsewhere(s.replicas[a], r, q.key) && r.data == s.replicas[a].data
    ensures ViewOf(s.(replicas := s.replicas[a := r]), key) ==
            if q.key == key then ViewOf(s, key).(logs := ViewOf(s, key).logs[a := LogOf(r, key)])
            else ViewOf(s, key)
  {
    LogsReplace(s.replicas, a, r, key);
    ValsReplace(s.replicas, a, r, key);
    UpdateSame(ViewOf(s, key).logs, a);
    UpdateSame(ViewOf(s, key).vals, a);
  }

  /** What an Inform does to replica a and to its history. */
  function InformHist(s: System, id: RunId, a: Addr): map<Key, seq<Entry>>
    requires id in s.runs && a in s.replicas && a in s.hist
  {
    var q := s.runs[id];
    if Executes(LogOf(s.replicas[a], q.key), q.round)
    then s.hist[a][q.key := EntriesAt(s.hist[a], q.key) + [Entry(id, q.round, q.proposal)]]
    else s.hist[a]
  }

  lemma InformSplit(s: System, id: RunId, a: Addr)
    requires Wf(s) && id in s.runs && a in s.stubs
    ensures var q := s.runs[id];
      var r' := HandleInform(s.replicas[a], s.stubs, q.key, AcceptanceOf(q)).0;
      DeliverInform(s, id, a) ==
      s.(replicas := s.replicas[a := r'], hist := s.hist[a := InformHist(s, id, a)],
         runs := s.runs[id := q.(informed := q.informed + {a})])
  {
    UpdateSame(s.hist, a);
  }

  lemma InformReplaced(s: System, id: RunId, a: Addr, key: Key)
    requires Wf(s) && id in s.runs && a in s.stubs
    ensures var q, v := s.runs[id], ViewOf(s, key);
      var r' := HandleInform(s.replicas[a], s.stubs, q.key, AcceptanceOf(q)).0;
      ViewOf(DeliverInform(s, id, a), key) ==
      View(v.logs[a := LogOf(r', key)], v.vals[a := Lookup(r', key)],
           v.hist[a := EntriesAt(InformHist(s, id, a), key)], v.decided,
           if q.key == key then v.runs[id := q.(informed := q.informed + {a})] else v.runs)
  {
    var q := s.runs[id];
    var r' := HandleInform(s.replicas[a], s.stubs, q.key, AcceptanceOf(q)).0;
    InformSplit(s, id, a);
    ReplaceView(s, a, r', InformHist(s, id, a), key);
    RunsReplace(s.runs, id, q.(informed := q.informed + {a}), key);
  }

  lemma InformView(s: System, id: RunId, a: Addr, key: Key)
    requires Wf(s) && id in s.runs && a in s.stubs
    ensures ViewOf(DeliverInform(s, id, a), key) ==
            if s.runs[id].key == key then VInform(ViewOf(s, key), id, a) else ViewOf(s, key)
  {
    var q, v, v' := s.runs[id], ViewOf(s, key), ViewOf(DeliverInform(s, id, a), key);
    var r, r' := s.replicas[a], HandleInform(s.replicas[a], s.stubs, s.runs[id].key, AcceptanceOf(s.runs[id])).0;
    InformReplaced(s, id, a, key);
    if q.key == key {
      assert v'.logs == VInform(v, id, a).logs;
      UpdateSame(v.vals, a);
      UpdateSame(v.hist, a);
    } else {
      assert LogOf(r', key) == LogOf(r, key) && Lookup(r', key) == Lookup(r, key);
      UpdateSame(v.logs, a);
      UpdateSame(v.vals, a);
      UpdateSame(v.hist, a);
    }
  }

  lemma DeliverView(s: System, id: RunId, rpc: Rpc, a: Addr, fail: bool, key: Key)
    requires Wf(s) && id in s.runs && a in s.stubs
    ensures ViewOf(Deliver(s, id, rpc, a, fail), key) ==
            if s.runs[id].key == key then VDeliver(ViewOf(s, key), id, rpc, a, fail) else ViewOf(s, key)
  {
    var q, r := s.runs[id], s.replicas[a];
    match rpc
    case PrepareRpc => AcceptorView(s, a, HandlePrepare(r, q.key, q.round, PROPOSE_ID, fail).0, q, key);
    case ProposeRpc =>
      AcceptorView(s, a, HandlePropose(r, q.key, q.round, PROPOSE_ID, q.proposal, fail).0, q, key);
    case InformRpc => InformView(s, id, a, key);
  }

  lemma CallView(s: System, id: RunId, a: Addr, outcome: Outcome, key: Key)
    requires Wf(s) && Enabled(s, Call(id, a, outcome))
    ensures ViewOf(Apply(s, Call(id, a, outcome)), key) ==
            if s.runs[id].key == key then VApply(ViewOf(s, key), Call(id, a, outcome)) else ViewOf(s, key)
  {
    var q := s.runs[id];
    var s1 := if outcome.Handled? then Deliver(s, id, RpcOf(q.phase), a, outcome.fail) else s;
    if outcome.Handled? { DeliverView(s, id, RpcOf(q.phase), a, outcome.fail, key); }
    RunsReplace(s1.runs, id, AfterCall(s1.runs[id], a, outcome, LogOf(s.replicas[a], q.key)), key);
  }

  lemma RestartView(s: System, a: Addr, key: Key)
    requires Wf(s) && a in s.stubs
    ensures ViewOf(RestartReplica(s, a), key) == VRestart(ViewOf(s, key), a)
  {
    ReplaceView(s, a, EMPTY_REPLICA, map[], key);
  }

  lemma RecoverView(s: System, a: Addr, source: Addr, key: Key)
    requires Wf(s) && a in s.stubs && source in s.stubs
    ensures ViewOf(RecoverReplica(s, a, source), key) == VRecover(ViewOf(s, key), a, source)
  {
    var r := Install(s.replicas[a], HandleRecover(s.replicas[source]));
    InstallAt(s.replicas[a], HandleRecover(s.replicas[source]), key);
    ReplaceView(s, a, r, OverlayHist(s.hist[a], s.hist[source]), key);
  }

  lemma StartView(s: System, id: RunId, proposer: Addr, req: Request, key: Key)
    requires Wf(s) && Enabled(s, Start(id, proposer, req))
    ensures ViewOf(Apply(s, Start(id, proposer, req)), key) ==
            if req.key == key then VApply(ViewOf(s, key), Start(id, proposer, req)) else ViewOf(s, key)
  {
    var r := TouchLog(s.replicas[proposer], req.key);
    LogsReplace(s.replicas, proposer, r, key);
    ValsReplace(s.replicas, proposer, r, key);
    UpdateSame(ViewOf(s, key).logs, proposer);
    UpdateSame(ViewOf(s, key).vals, proposer);
    RunsReplace(s.runs, id, NewRun(proposer, req, LogOf(s.replicas[proposer], req.key)), key);
  }

  /** A step changes the view of a key only if it concerns the key, and then it is
      the step of the view with the same label. */
  lemma ViewStep(s: System, e: Event, key: Key)
    requires Wf(s) && Enabled(s, e)
    ensures Concerns(s, e, key) ==>
              VEnabled(ViewOf(s, key), e) && ViewOf(Apply(s, e), key) == VApply(ViewOf(s, key), e)
    ensures !Concerns(s, e, key) ==> ViewOf(Apply(s, e), key) == ViewOf(s, key)
  {
    match e
    case Start(id, proposer, req) => StartView(s, id, proposer, req, key);
    case Ping(id, live) => RunsReplace(s.runs, id, AfterPing(s.runs[id], live), key);
    case Call(id, a, outcome) => CallView(s, id, a, outcome, key);
    case Late(id, a, rpc, fail) => DeliverView(s, id, rpc, a, fail, key);
    case Advance(id) => RunsReplace(s.runs, id, AfterPhase(s.runs[id]), key);
    case Restart(a) => RestartView(s, a, key);
    case Recover(a, source) => RecoverView(s, a, source, key);
  }

  /** An RPC changes its own run only in who was informed. */
  lemma DeliverRuns(s: System, id: RunId, rpc: Rpc, a: Addr, fail: bool)
    requires Wf(s) && id in s.runs && a in s.stubs
    ensures var s' := Deliver(s, id, rpc, a, fail);
      s'.runs == s.runs[id := s'.runs[id]] && s'.runs[id] == s.runs[id].(informed := s'.runs[id].informed)
  {
    UpdateSame(s.runs, id);
  }

  /** The run map after a call. */
  lemma CallRuns(s: System, id: RunId, a: Addr, o: Outcome)
    requires Wf(s) && Enabled(s, Call(id, a, o))
    ensures var s' := Apply(s, Call(id, a, o)); var q, q' := s.runs[id], s'.runs[id];
      s'.runs == s.runs[id := q'] && q'.key == q.key && q'.op == q.op && q'.phase == q.phase &&
      q'.todo == q.todo - {a}
  {
    if o.Handled? {
      DeliverRuns(s, id, RpcOf(s.runs[id].phase), a, o.fail);
    }
  }

  lemma CallApplies(s: System, id: RunId, a: Addr, o: Outcome) returns (s1: System)
    requires Wf(s) && Enabled(s, Call(id, a, o))
    ensures s1 == if o.Handled? then Deliver(s, id, RpcOf(s.runs[id].phase), a, o.fail) else s
    ensures id in s1.runs
    ensures Apply(s, Call(id, a, o)) ==
            s1.(runs := s1.runs[id := AfterCall(s1.runs[id], a, o, LogOf(s.replicas[a], s.runs[id].key))])
  {
    s1 := if o.Handled? then Deliver(s, id, RpcOf(s.runs[id].phase), a, o.fail) else s;
  }
}
