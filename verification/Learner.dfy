/** What learners keep in every interleaving, even with overlapping proposers, restarts
    and recoveries. */
module Learner {
  import opened Types
  import opened Handlers
  import opened System
  import opened KeyView
  import opened Safety
  import opened Recovery

  /** Rounds are executed in order. */
  predicate InOrder(h: seq<Entry>) {
    forall i, j | 0 <= i < j < |h| :: h[i].round <= h[j].round
  }

  /** The last round executed, 0 when there is none. */
  function LastRound(h: seq<Entry>): nat { if h == [] then 0 else h[|h| - 1].round }

  /** The operations were executed in the order of their rounds, and the log has the last
      of those rounds. */
  predicate Ordered(log: Log, h: seq<Entry>) { InOrder(h) && LastRound(h) <= LatestRound(log) }

  predicate OrderedAt(v: View, a: Addr) { a in v.logs && a in v.hist && Ordered(v.logs[a], v.hist[a]) }

  /** ... and the value is what they give. */
  predicate Learned(log: Log, value: Option<Value>, h: seq<Entry>) { Ordered(log, h) && value == ValueAfter(h) }

  predicate LearnedAt(v: View, a: Addr) {
    a in v.logs && a in v.vals && a in v.hist && Learned(v.logs[a], v.vals[a], v.hist[a])
  }

  predicate AllOrdered(v: View) { WfView(v) && forall a :: a in v.logs ==> OrderedAt(v, a) }

  predicate LearnerInv(v: View) { WfView(v) && forall a :: a in v.logs ==> LearnedAt(v, a) }

  /** The latest round of a and its executed operations only grow. */
  predicate AdvancesAt(v: View, v': View, a: Addr) {
    a in v.logs && a in v'.logs && a in v.hist && a in v'.hist &&
    LatestRound(v.logs[a]) <= LatestRound(v'.logs[a]) && v.hist[a] <= v'.hist[a]
  }

  lemma ValueAfterAppend(h: seq<Entry>, e: Entry)
    ensures ValueAfter(h + [e]) == ApplyOp(e.op, ValueAfter(h))
  {
    assert (h + [e])[..|h|] == h;
  }

  // ---- One step, seen from one replica ---------------------------------------

  /** Nothing changes at b. */
  predicate SameAt(v: View, v': View, b: Addr) {
    b in v.logs && b in v'.logs && b in v.vals && b in v'.vals && b in v.hist && b in v'.hist &&
    v'.logs[b] == v.logs[b] && v'.vals[b] == v.vals[b] && v'.hist[b] == v.hist[b]
  }

  /** a handles an RPC in this event. */
  predicate Handles(e: Event, a: Addr) { ((e.Call? && e.outcome.Handled?) || e.Late?) && e.a == a }

  /** a neither restarts nor recovers in this event. */
  predicate Spares(e: Event, a: Addr) { e.Restart? || e.Recover? ==> e.a != a }

  lemma DeliverElsewhere(v: View, id: RunId, rpc: Rpc, a: Addr, fail: bool, b: Addr)
    requires WfView(v) && id in v.runs && a in v.logs && b in v.logs && a != b
    ensures SameAt(v, VDeliver(v, id, rpc, a, fail), b)
  {}

  lemma ElsewhereSame(v: View, e: Event, b: Addr)
    requires WfView(v) && VEnabled(v, e) && b in v.logs && !Handles(e, b) && Spares(e, b)
    ensures SameAt(v, VApply(v, e), b)
  {
    match e
    case Call(id, a, o) => if o.Handled? { DeliverElsewhere(v, id, RpcOf(v.runs[id].phase), a, o.fail, b); }
    case Late(id, a, rpc, fail) => DeliverElsewhere(v, id, rpc, a, fail, b);
    case _ =>
  }

  /** An Inform is executed at the end of what was executed before, or not at all. */
  lemma InformLearns(log: Log, value: Option<Value>, h: seq<Entry>, e: Entry)
    requires Ordered(log, h)
    ensures var log' := SetAccepted(log, e.round, PROPOSE_ID, e.op);
      if Executes(log, e.round) then
        Ordered(log', h + [e]) && (Learned(log, value, h) ==> Learned(log', ApplyOp(e.op, value), h + [e]))
      else Ordered(log', h) && (Learned(log, value, h) ==> Learned(log', value, h))
  {
    ValueAfterAppend(h, e);
  }

  /** A step from v to v' keeps what a has learned. */
  predicate KeepsAt(v: View, v': View, a: Addr) {
    (OrderedAt(v, a) ==> OrderedAt(v', a)) && (LearnedAt(v, a) ==> LearnedAt(v', a))
  }

  lemma InformKeeps(v: View, id: RunId, a: Addr)
    requires WfView(v) && id in v.runs && a in v.logs
    ensures KeepsAt(v, VInform(v, id, a), a) && AdvancesAt(v, VInform(v, id, a), a)
  {
    if OrderedAt(v, a) {
      InformLearns(v.logs[a], v.vals[a], v.hist[a], Entry(id, v.runs[id].round, v.runs[id].proposal));
    }
  }

  lemma DeliverKeeps(v: View, id: RunId, rpc: Rpc, a: Addr, fail: bool)
    requires WfView(v) && id in v.runs && a in v.logs
    ensures KeepsAt(v, VDeliver(v, id, rpc, a, fail), a) && AdvancesAt(v, VDeliver(v, id, rpc, a, fail), a)
  {
    if rpc == InformRpc { InformKeeps(v, id, a); }
  }

  /** Only a restart or a recovery of a itself can take something from a. */
  lemma StepKeeps(v: View, e: Event, a: Addr)
    requires WfView(v) && VEnabled(v, e) && a in v.logs && Spares(e, a)
    ensures KeepsAt(v, VApply(v, e), a) && AdvancesAt(v, VApply(v, e), a)
  {
    if !Handles(e, a) {
      ElsewhereSame(v, e, a);
    } else if e.Call? {
      DeliverKeeps(v, e.id, RpcOf(v.runs[e.id].phase), a, e.outcome.fail);
    } else {
      DeliverKeeps(v, e.id, e.rpc, a, e.fail);
    }
  }

  /** Recovery never lowers a latest round, and takes over rounds in order. */
  lemma RecoverKeepsOrder(v: View, a: Addr, source: Addr)
    requires WfView(v) && a in v.logs && source in v.logs && OrderedAt(v, a) && OrderedAt(v, source)
    ensures OrderedAt(VRecover(v, a, source), a)
    ensures LatestRound(v.logs[a]) <= LatestRound(VRecover(v, a, source).logs[a])
  {
    LatestOfUnion(v.logs[a], v.logs[source]);
  }

  /** a stores nothing that the source has deleted. */
  predicate Clean(v: View, a: Addr, source: Addr) {
    a in v.vals && source in v.vals && source in v.hist &&
    (v.vals[a].Some? && v.vals[source].None? ==> v.hist[source] == [])
  }

  /** After a recovery the value of a is what its history gives exactly when the recovery
      was clean: a key that the source deleted survives at a. */
  lemma RecoverLearnsIff(v: View, a: Addr, source: Addr)
    requires WfView(v) && a in v.logs && source in v.logs && LearnedAt(v, a) && LearnedAt(v, source)
    ensures LearnedAt(VRecover(v, a, source), a) <==> Clean(v, a, source)
  {
    RecoverKeepsOrder(v, a, source);
  }

  // ---- Latest rounds and executed rounds ---------------------------------------

  predicate NoRestart(es: seq<Event>, a: Addr) { forall i | 0 <= i < |es| :: es[i].Restart? ==> es[i].a != a }
  predicate NoRecovery(es: seq<Event>, a: Addr) { forall i | 0 <= i < |es| :: es[i].Recover? ==> es[i].a != a }

  lemma LatestStep(v: View, e: Event, a: Addr)
    requires WfView(v) && VEnabled(v, e) && a in v.logs && (e.Restart? ==> e.a != a)
    ensures LatestRound(v.logs[a]) <= LatestRound(VApply(v, e).logs[a])
  {
    if Spares(e, a) { StepKeeps(v, e, a); } else { LatestOfUnion(v.logs[a], v.logs[e.source]); }
  }

  lemma LatestIn(s: System, e: Event, a: Addr, key: Key)
    requires Wf(s) && Enabled(s, e) && a in s.stubs && (e.Restart? ==> e.a != a)
    ensures LatestRound(LogOf(s.replicas[a], key)) <= LatestRound(LogOf(Apply(s, e).replicas[a], key))
  {
    ViewStep(s, e, key);
    if Concerns(s, e, key) { LatestStep(ViewOf(s, key), e, a); }
    assert ViewOf(Apply(s, e), key).logs[a] == LogOf(Apply(s, e).replicas[a], key);
  }

  /** Along every behaviour in which a does not restart, its latest round of a key never
      decreases, whatever recovers from whom. */
  lemma {:induction false} LatestNeverDecreases(s: System, es: seq<Event>, a: Addr, key: Key)
    requires Wf(s) && Valid(s, es) && NoRestart(es, a) && a in s.stubs
    ensures LatestRound(LogOf(s.replicas[a], key)) <= LatestRound(LogOf(Exec(s, es).replicas[a], key))
    decreases |es|
  {
    if es != [] {
      LatestIn(s, es[0], a, key);
      LatestNeverDecreases(Apply(s, es[0]), es[1..], a, key);
    }
  }

  /** In this event a executes an Inform of the key. */
  predicate ExecutesAt(s: System, e: Event, a: Addr, key: Key) {
    Handles(e, a) && a in s.replicas && e.id in s.runs && s.runs[e.id].key == key &&
    (if e.Call? then s.runs[e.id].phase == Informing else e.rpc == InformRpc) &&
    Executes(LogOf(s.replicas[a], key), s.runs[e.id].round)
  }

  lemma InformRaisesLatest(v: View, id: RunId, a: Addr, fail: bool)
    requires WfView(v) && id in v.runs && a in v.logs
    ensures v.runs[id].round <= LatestRound(VDeliver(v, id, InformRpc, a, fail).logs[a])
  {}

  lemma ExecutionRaisesView(v: View, e: Event, a: Addr)
    requires WfView(v) && VEnabled(v, e) && Handles(e, a)
    requires if e.Call? then v.runs[e.id].phase == Informing else e.rpc == InformRpc
    ensures v.runs[e.id].round <= LatestRound(VApply(v, e).logs[a])
  {
    InformRaisesLatest(v, e.id, a, if e.Call? then e.outcome.fail else e.fail);
  }

  lemma ExecutionRaisesLatest(s: System, e: Event, a: Addr, key: Key)
    requires Wf(s) && Enabled(s, e) && ExecutesAt(s, e, a, key)
    ensures s.runs[e.id].round <= LatestRound(LogOf(Apply(s, e).replicas[a], key))
  {
    ViewStep(s, e, key);
    ExecutionRaisesView(ViewOf(s, key), e, a);
    assert ViewOf(Apply(s, e), key).logs[a] == LogOf(Apply(s, e).replicas[a], key);
  }

  /** ... and neither do the rounds that it executes. */
  lemma ExecutedRoundsNeverDecrease(s: System, e: Event, fs: seq<Event>, f: Event, a: Addr, key: Key)
    requires Wf(s) && Enabled(s, e) && a in s.stubs && ExecutesAt(s, e, a, key)
    requires Valid(Apply(s, e), fs) && NoRestart(fs, a)
    requires Enabled(Exec(Apply(s, e), fs), f) && ExecutesAt(Exec(Apply(s, e), fs), f, a, key)
    ensures s.runs[e.id].round <= Exec(Apply(s, e), fs).runs[f.id].round
  {
    ExecutionRaisesLatest(s, e, a, key);
    LatestNeverDecreases(Apply(s, e), fs, a, key);
  }

  // ---- Histories and values ----------------------------------------------------

  lemma OrderStep(v: View, e: Event, a: Addr)
    requires AllOrdered(v) && VEnabled(v, e) && a in v.logs
    ensures OrderedAt(VApply(v, e), a)
  {
    assert OrderedAt(v, a);
    if Spares(e, a) {
      StepKeeps(v, e, a);
    } else if e.Recover? {
      assert OrderedAt(v, e.source);
      RecoverKeepsOrder(v, a, e.source);
    }
  }

  lemma {:induction false} OrderedAlways(s: System, es: seq<Event>, key: Key)
    requires Wf(s) && Valid(s, es) && AllOrdered(ViewOf(s, key))
    ensures AllOrdered(ViewOf(Exec(s, es), key))
    decreases |es|
  {
    if es != [] {
      ViewStep(s, es[0], key);
      if Concerns(s, es[0], key) {
        forall a | a in ViewOf(s, key).logs ensures OrderedAt(VApply(ViewOf(s, key), es[0]), a) {
          OrderStep(ViewOf(s, key), es[0], a);
        }
      }
      OrderedAlways(Apply(s, es[0]), es[1..], key);
    }
  }

  lemma LearnedStep(v: View, e: Event, a: Addr)
    requires WfView(v) && VEnabled(v, e) && a in v.logs && LearnedAt(v, a) && (e.Recover? ==> e.a != a)
    ensures LearnedAt(VApply(v, e), a)
  {
    if Spares(e, a) { StepKeeps(v, e, a); }
  }

  lemma LearnedIn(s: System, e: Event, a: Addr, key: Key)
    requires Wf(s) && Enabled(s, e) && a in s.stubs && LearnedAt(ViewOf(s, key), a) && (e.Recover? ==> e.a != a)
    ensures LearnedAt(ViewOf(Apply(s, e), key), a)
  {
    ViewStep(s, e, key);
    if Concerns(s, e, key) { LearnedStep(ViewOf(s, key), e, a); }
  }

  lemma {:induction false} LearnedWithoutRecovery(s: System, es: seq<Event>, a: Addr, key: Key)
    requires Wf(s) && Valid(s, es) && NoRecovery(es, a) && a in s.stubs && LearnedAt(ViewOf(s, key), a)
    ensures LearnedAt(ViewOf(Exec(s, es), key), a)
    decreases |es|
  {
    if es != [] {
      LearnedIn(s, es[0], a, key);
      LearnedWithoutRecovery(Apply(s, es[0]), es[1..], a, key);
    }
  }

  lemma HistoryStep(s: System, e: Event, a: Addr, key: Key)
    requires Wf(s) && Enabled(s, e) && a in s.stubs && Spares(e, a)
    ensures EntriesAt(s.hist[a], key) <= EntriesAt(Apply(s, e).hist[a], key)
  {
    ViewStep(s, e, key);
    if Concerns(s, e, key) { StepKeeps(ViewOf(s, key), e, a); }
    assert ViewOf(Apply(s, e), key).hist[a] == EntriesAt(Apply(s, e).hist[a], key);
  }

  lemma PrefixTrans(g: seq<Entry>, h: seq<Entry>, k: seq<Entry>)
    requires g <= h && h <= k
    ensures g <= k
  {}

  lemma {:induction false} HistoryGrows(s: System, es: seq<Event>, a: Addr, key: Key)
    requires Wf(s) && Valid(s, es) && NoRestart(es, a) && NoRecovery(es, a) && a in s.stubs
    ensures EntriesAt(s.hist[a], key) <= EntriesAt(Exec(s, es).hist[a], key)
    decreases |es|
  {
    if es != [] {
      var t := Apply(s, es[0]);
      HistoryStep(s, es[0], a, key);
      HistoryGrows(t, es[1..], a, key);
      PrefixTrans(EntriesAt(s.hist[a], key), EntriesAt(t.hist[a], key), EntriesAt(Exec(s, es).hist[a], key));
    }
  }

  /** From every reachable state and along every behaviour in which a does not restart, its
      latest round of the key never decreases; its history is always in the order of the
      rounds and within the log; and while a does not recover either, operations are only
      appended to it. */
  lemma LearnerMonotonicity(stubs: set<Addr>, es: seq<Event>, fs: seq<Event>, a: Addr, key: Key)
    requires Valid(Init(stubs), es) && Valid(Exec(Init(stubs), es), fs) && a in stubs && NoRestart(fs, a)
    ensures var s, t := Exec(Init(stubs), es), Exec(Exec(Init(stubs), es), fs);
      var h, h' := EntriesAt(s.hist[a], key), EntriesAt(t.hist[a], key);
      LatestRound(LogOf(s.replicas[a], key)) <= LatestRound(LogOf(t.replicas[a], key)) &&
      InOrder(h') && LastRound(h') <= LatestRound(LogOf(t.replicas[a], key)) &&
      (NoRecovery(fs, a) ==> h <= h')
  {
    var s := Exec(Init(stubs), es);
    LatestNeverDecreases(s, fs, a, key);
    assert AllOrdered(ViewOf(Init(stubs), key));
    OrderedAlways(Init(stubs), es, key);
    OrderedAlways(s, fs, key);
    assert OrderedAt(ViewOf(Exec(s, fs), key), a);
    if NoRecovery(fs, a) { HistoryGrows(s, fs, a, key); }
  }

  /** Absent recovery of a itself, its data entry is the effect of what it has executed
      since it last started, whatever happens to the others. */
  lemma ValueIsExecuted(stubs: set<Addr>, es: seq<Event>, a: Addr, key: Key)
    requires Valid(Init(stubs), es) && NoRecovery(es, a) && a in stubs
    ensures var s := Exec(Init(stubs), es);
      Lookup(s.replicas[a], key) == ValueAfter(EntriesAt(s.hist[a], key))
  {
    LearnedWithoutRecovery(Init(stubs), es, a, key);
    LearnedMeans(Exec(Init(stubs), es), a, key);
  }

  lemma LearnedMeans(s: System, a: Addr, key: Key)
    requires Wf(s) && a in s.stubs && LearnedAt(ViewOf(s, key), a)
    ensures Lookup(s.replicas[a], key) == ValueAfter(EntriesAt(s.hist[a], key))
  {}

  /** The effect of the last operation of a history alone. */
  function LastEffect(h: seq<Entry>): Option<Value> { if h == [] then None else ApplyOp(h[|h| - 1].op, None) }

  /** On a writable key it is the effect of the last executed Inform alone. */
  lemma ValueIsLastExecuted(stubs: set<Addr>, es: seq<Event>, a: Addr, key: Key)
    requires Valid(Init(stubs), es) && NoRecovery(es, a) && a in stubs && key != COORDINATOR_KEY
    ensures var s := Exec(Init(stubs), es);
      Lookup(s.replicas[a], key) == LastEffect(EntriesAt(s.hist[a], key))
  {
    assert Inv(ViewOf(Exec(Init(stubs), es), key), key) by { InvAlways(stubs, es, key); }
    LearnedWithoutRecovery(Init(stubs), es, a, key);
    LastDecidesIn(Exec(Init(stubs), es), key, a);
  }

  lemma LastDecidesIn(s: System, key: Key, a: Addr)
    requires Wf(s) && a in s.stubs && Inv(ViewOf(s, key), key) && LearnedAt(ViewOf(s, key), a) && key != COORDINATOR_KEY
    ensures Lookup(s.replicas[a], key) == LastEffect(EntriesAt(s.hist[a], key))
  {
    LastDecides(ViewOf(s, key), key, a);
  }

  lemma LastDecides(v: View, key: Key, a: Addr)
    requires Inv(v, key) && LearnedAt(v, a) && key != COORDINATOR_KEY
    ensures v.vals[a] == LastEffect(v.hist[a])
  {
    if v.hist[a] != [] { EntryFits(v, key, v.hist[a][|v.hist[a]| - 1]); }
  }

  lemma EntryFits(v: View, key: Key, e: Entry)
    requires Inv(v, key) && EntryOk(v, e)
    ensures FitsKey(key, e.op)
  {
    var q := v.runs[e.run];
    assert RunOk(v, key, q);
    var i :| i in v.runs && v.runs[i].op == q.proposal;
    assert RunOk(v, key, v.runs[i]);
  }

  /** Every recovery of the behaviour is clean on this key. Restarts and recoveries onto a
      database that does not store the key are always. */
  predicate CleanOn(s: System, es: seq<Event>, key: Key)
    requires Wf(s) && Valid(s, es)
    decreases |es|
  {
    es == [] ||
    ((es[0].Recover? ==> Clean(ViewOf(s, key), es[0].a, es[0].source)) && CleanOn(Apply(s, es[0]), es[1..], key))
  }

  lemma CleanStep(v: View, e: Event, a: Addr)
    requires LearnerInv(v) && VEnabled(v, e) && a in v.logs && (e.Recover? ==> Clean(v, e.a, e.source))
    ensures LearnedAt(VApply(v, e), a)
  {
    assert LearnedAt(v, a);
    if e.Recover? && e.a == a {
      assert LearnedAt(v, e.source);
      RecoverLearnsIff(v, a, e.source);
    } else {
      LearnedStep(v, e, a);
    }
  }

  lemma {:induction false} LearnersAlways(s: System, es: seq<Event>, key: Key)
    requires Wf(s) && Valid(s, es) && CleanOn(s, es, key) && LearnerInv(ViewOf(s, key))
    ensures LearnerInv(ViewOf(Exec(s, es), key))
    decreases |es|
  {
    if es != [] {
      ViewStep(s, es[0], key);
      if Concerns(s, es[0], key) {
        forall a | a in ViewOf(s, key).logs ensures LearnedAt(VApply(ViewOf(s, key), es[0]), a) {
          CleanStep(ViewOf(s, key), es[0], a);
        }
      }
      LearnersAlways(Apply(s, es[0]), es[1..], key);
    }
  }

  lemma LearnersReach(stubs: set<Addr>, es: seq<Event>, key: Key)
    requires Valid(Init(stubs), es) && CleanOn(Init(stubs), es, key)
    ensures LearnerInv(ViewOf(Exec(Init(stubs), es), key))
  {
    assert LearnerInv(ViewOf(Init(stubs), key));
    LearnersAlways(Init(stubs), es, key);
  }

  // ---- Agreement -----------------------------------------------------------

  predicate Claims(q: Run, key: Key, round: nat) { q.key == key && q.round == round && Proposed(q) }

  /** All runs that claim the round propose the same operation. */
  predicate ClaimsAgree(runs: map<RunId, Run>, key: Key, round: nat) {
    forall i, j | i in runs && j in runs ::
      Claims(runs[i], key, round) && Claims(runs[j], key, round) ==> runs[i].proposal == runs[j].proposal
  }

  lemma ViewAcceptorsAgree(v: View, key: Key, round: nat, a: Addr, b: Addr)
    requires Inv(v, key) && a in v.logs && b in v.logs && ClaimsAgree(v.runs, key, round)
    ensures var x, y := EntryAt(v.logs[a], round), EntryAt(v.logs[b], round);
      x.acceptedId > 0 && y.acceptedId > 0 ==> x.accepted == y.accepted
  {
    assert LogOk(v, v.logs[a]) && LogOk(v, v.logs[b]);
    var x, y := EntryAt(v.logs[a], round), EntryAt(v.logs[b], round);
    if x.acceptedId > 0 && y.acceptedId > 0 {
      var i :| i in v.runs && v.runs[i].round == round && v.runs[i].proposal == x.accepted && Proposed(v.runs[i]);
      var j :| j in v.runs && v.runs[j].round == round && v.runs[j].proposal == y.accepted && Proposed(v.runs[j]);
      assert RunOk(v, key, v.runs[i]) && RunOk(v, key, v.runs[j]);
      assert Claims(v.runs[i], key, round) && Claims(v.runs[j], key, round);
    }
  }

  /** If no two runs propose different operations at a (key, round), any two acceptors that
      accepted there hold the same operation, through restarts and recoveries too. */
  lemma AcceptorsAgree(stubs: set<Addr>, es: seq<Event>, key: Key, round: nat, a: Addr, b: Addr)
    requires Valid(Init(stubs), es) && a in stubs && b in stubs
    requires ClaimsAgree(Exec(Init(stubs), es).runs, key, round)
    ensures var s := Exec(Init(stubs), es);
      var x, y := EntryAt(LogOf(s.replicas[a], key), round), EntryAt(LogOf(s.replicas[b], key), round);
      x.acceptedId > 0 && y.acceptedId > 0 ==> x.accepted == y.accepted
  {
    InvAlways(stubs, es, key);
    ViewAcceptorsAgree(ViewOf(Exec(Init(stubs), es), key), key, round, a, b);
  }

  lemma ViewLearnersAgree(v: View, key: Key, a: Addr, b: Addr)
    requires Inv(v, key) && LearnerInv(v) && key != COORDINATOR_KEY && a in v.logs && b in v.logs
    requires LastRound(v.hist[a]) == LastRound(v.hist[b]) && ClaimsAgree(v.runs, key, LastRound(v.hist[a]))
    ensures v.vals[a] == v.vals[b]
  {
    assert LearnedAt(v, a) && LearnedAt(v, b);
    LastDecides(v, key, a);
    LastDecides(v, key, b);
    RoundsArePositive(v, key, a);
    RoundsArePositive(v, key, b);
    if v.hist[a] != [] && v.hist[b] != [] {
      var x, y := v.hist[a][|v.hist[a]| - 1], v.hist[b][|v.hist[b]| - 1];
      assert EntryOk(v, x) && EntryOk(v, y);
      assert RunOk(v, key, v.runs[x.run]) && RunOk(v, key, v.runs[y.run]);
      assert Claims(v.runs[x.run], key, x.round) && Claims(v.runs[y.run], key, x.round);
    }
  }

  /** ... and two replicas whose histories of a key end in the same round agree on its value,
      through restarts and through all recoveries that are clean on the key. */
  lemma LearnersAgree(stubs: set<Addr>, es: seq<Event>, key: Key, a: Addr, b: Addr)
    requires Valid(Init(stubs), es) && CleanOn(Init(stubs), es, key) && a in stubs && b in stubs
    requires var s := Exec(Init(stubs), es);
      LastRound(EntriesAt(s.hist[a], key)) == LastRound(EntriesAt(s.hist[b], key)) &&
      ClaimsAgree(s.runs, key, LastRound(EntriesAt(s.hist[a], key)))
    ensures var s := Exec(Init(stubs), es); Lookup(s.replicas[a], key) == Lookup(s.replicas[b], key)
  {
    if key == COORDINATOR_KEY {
      ReservedKeyIsNeverStored(stubs, es, a);
      ReservedKeyIsNeverStored(stubs, es, b);
    } else {
      assert Inv(ViewOf(Exec(Init(stubs), es), key), key) by { InvAlways(stubs, es, key); }
      LearnersReach(stubs, es, key);
      LearnersAgreeIn(Exec(Init(stubs), es), key, a, b);
    }
  }

  lemma LearnersAgreeIn(s: System, key: Key, a: Addr, b: Addr)
    requires Wf(s) && Inv(ViewOf(s, key), key) && LearnerInv(ViewOf(s, key)) && key != COORDINATOR_KEY
    requires a in s.stubs && b in s.stubs
    requires LastRound(EntriesAt(s.hist[a], key)) == LastRound(EntriesAt(s.hist[b], key))
    requires ClaimsAgree(s.runs, key, LastRound(EntriesAt(s.hist[a], key)))
    ensures Lookup(s.replicas[a], key) == Lookup(s.replicas[b], key)
  {
    ViewLearnersAgree(ViewOf(s, key), key, a, b);
  }

  /** Any two replicas whose histories of the key end in the same round agree on its value. */
  predicate Agreement(v: View) {
    WfView(v) &&
    forall a, b :: a in v.logs && b in v.logs && LastRound(v.hist[a]) == LastRound(v.hist[b]) ==> v.vals[a] == v.vals[b]
  }

  lemma CleanRecoveryAgrees(v: View, key: Key, a: Addr, source: Addr)
    requires Inv(v, key) && LearnerInv(v) && key != COORDINATOR_KEY && a in v.logs && source in v.logs
    requires (forall round: nat :: ClaimsAgree(v.runs, key, round)) && Clean(v, a, source)
    ensures Agreement(VRecover(v, a, source))
  {
    var w := VApply(v, Recover(a, source));
    assert Inv(w, key) by { InvStep(v, key, Recover(a, source)); }
    forall b | b in w.logs ensures LearnedAt(w, b) { CleanStep(v, Recover(a, source), b); }
    forall b, c | b in w.logs && c in w.logs && LastRound(w.hist[b]) == LastRound(w.hist[c])
      ensures w.vals[b] == w.vals[c]
    {
      ViewLearnersAgree(w, key, b, c);
    }
  }

  lemma UncleanRecoveryDisagrees(v: View, a: Addr, source: Addr)
    requires WfView(v) && a in v.logs && source in v.logs && !Clean(v, a, source)
    ensures !Agreement(VRecover(v, a, source))
  {
    var w := VRecover(v, a, source);
    assert w.hist[a] == w.hist[source] && w.vals[a] != w.vals[source];
  }

  lemma ViewRecoveryAgreesIff(v: View, key: Key, a: Addr, source: Addr)
    requires Inv(v, key) && LearnerInv(v) && key != COORDINATOR_KEY && a in v.logs && source in v.logs
    requires forall round: nat :: ClaimsAgree(v.runs, key, round)
    ensures Agreement(VRecover(v, a, source)) <==> Clean(v, a, source)
  {
    if Clean(v, a, source) { CleanRecoveryAgrees(v, key, a, source); } else { UncleanRecoveryDisagrees(v, a, source); }
  }

  lemma ClaimsInView(s: System, key: Key)
    requires forall round: nat :: ClaimsAgree(s.runs, key, round)
    ensures forall round: nat :: ClaimsAgree(ViewOf(s, key).runs, key, round)
  {
    forall round: nat ensures ClaimsAgree(ViewOf(s, key).runs, key, round) { assert ClaimsAgree(s.runs, key, round); }
  }

  lemma RecoveredView(s: System, key: Key, a: Addr, source: Addr)
    requires Wf(s) && a in s.stubs && source in s.stubs
    ensures ViewOf(Apply(s, Recover(a, source)), key) == VRecover(ViewOf(s, key), a, source)
  {
    ViewStep(s, Recover(a, source), key);
  }

  /** The condition is exact: after one more recovery all replicas still agree if and only if
      it was clean, that is, unless the source has deleted a key that the target stores. */
  lemma RecoveryKeepsAgreementIff(stubs: set<Addr>, es: seq<Event>, key: Key, a: Addr, source: Addr)
    requires Valid(Init(stubs), es) && CleanOn(Init(stubs), es, key) && key != COORDINATOR_KEY
    requires a in stubs && source in stubs
    requires forall round: nat :: ClaimsAgree(Exec(Init(stubs), es).runs, key, round)
    ensures var s := Exec(Init(stubs), es);
      Agreement(ViewOf(Apply(s, Recover(a, source)), key)) <==> Clean(ViewOf(s, key), a, source)
  {
    var s := Exec(Init(stubs), es);
    assert Inv(ViewOf(s, key), key) by { InvAlways(stubs, es, key); }
    LearnersReach(stubs, es, key);
    ClaimsInView(s, key);
    RecoveredView(s, key, a, source);
    ViewRecoveryAgreesIff(ViewOf(s, key), key, a, source);
  }

  lemma RoundsArePositive(v: View, key: Key, a: Addr)
    requires Inv(v, key) && a in v.logs
    ensures v.hist[a] != [] ==> LastRound(v.hist[a]) >= 1
  {
    if v.hist[a] != [] {
      assert EntryOk(v, v.hist[a][|v.hist[a]| - 1]);
      assert RunOk(v, key, v.runs[v.hist[a][|v.hist[a]| - 1].run]);
    }
  }

  /** The condition is needed: two overlapping runs that propose different operations
      at one (key, round) can always make two acceptors disagree, in two more calls. */
  lemma OverlapBreaksAgreement(stubs: set<Addr>, es: seq<Event>, i: RunId, j: RunId, a: Addr, b: Addr)
    requires Valid(Init(stubs), es)
    requires var s := Exec(Init(stubs), es);
      i in s.runs && j in s.runs && s.runs[i].phase == Proposing && s.runs[j].phase == Proposing &&
      s.runs[i].key == s.runs[j].key && s.runs[i].round == s.runs[j].round &&
      s.runs[i].proposal != s.runs[j].proposal &&
      a in s.runs[i].live && b in s.runs[j].live && a != b && a in stubs && b in stubs
    ensures var s := Exec(Init(stubs), es);
      var fs := [Late(i, a, ProposeRpc, false), Late(j, b, ProposeRpc, false)];
      Valid(s, fs) &&
      (var t := Exec(s, fs); var key, round := s.runs[i].key, s.runs[i].round;
       var x, y := EntryAt(LogOf(t.replicas[a], key), round), EntryAt(LogOf(t.replicas[b], key), round);
       x.acceptedId > 0 && y.acceptedId > 0 && x.accepted != y.accepted)
  {
    var s := Exec(Init(stubs), es);
    var q, key := s.runs[i], s.runs[i].key;
    var e1, e2 := Late(i, a, ProposeRpc, false), Late(j, b, ProposeRpc, false);
    PromisedIdGuardsNeverFire(stubs, es, a, key, q.round, q.proposal, false);
    PromisedIdGuardsNeverFire(stubs, es, b, key, q.round, s.runs[j].proposal, false);
    var s1 := Apply(s, e1);
    assert Enabled(s1, e2);
    var s2 := Apply(s1, e2);
    assert [e1, e2][1..] == [e2] && [e2][1..] == [];
    assert Valid(s2, []) && Valid(s1, [e2]);
    assert Exec(s1, [e2]) == Exec(s2, []) == s2;
  }
}
