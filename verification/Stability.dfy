/** A chosen operation stays chosen: majorities of one live set meet, and a run that
    hears from an acceptor that holds it adopts it. */
module Stability {
  import opened Types
  import opened Handlers
  import opened System
  import opened KeyView
  import opened Safety

  // ---- Majorities ----------------------------------------------------------

  /** The success test of RunPaxos: count <= size / 2 fails. */
  predicate Majority(part: set<Addr>, live: set<Addr>) { part <= live && |part| > |live| / 2 }

  lemma MajoritiesMeet(live: set<Addr>, p: set<Addr>, q: set<Addr>)
    requires Majority(p, live) && Majority(q, live)
    ensures p * q != {}
  {
    if p * q == {} {
      assert |p + q| == |p| + |q|;
      SubsetSize(p + q, live);
    }
  }

  lemma {:induction false} SubsetSize(s: set<Addr>, t: set<Addr>)
    requires s <= t
    ensures |s| <= |t|
  {
    if s != {} {
      var x :| x in s;
      SubsetSize(s - {x}, t - {x});
    }
  }

  /** Too few members of live are outside the quorum to make a majority of live. */
  predicate Blocks(quorum: set<Addr>, live: set<Addr>) { |live - quorum| <= |live| / 2 }

  /** ... which is exactly when every majority of live meets the quorum. */
  lemma BlocksIff(quorum: set<Addr>, live: set<Addr>)
    ensures Blocks(quorum, live) <==> forall p :: Majority(p, live) ==> p * quorum != {}
  {
    if Blocks(quorum, live) {
      forall p | Majority(p, live) ensures p * quorum != {} {
        if p * quorum == {} {
          assert forall a | a in p && a in quorum :: a in p * quorum;
          SubsetSize(p, live - quorum);
        }
      }
    } else {
      assert Majority(live - quorum, live) && (live - quorum) * quorum == {};
    }
  }

  lemma MajorityBlocks(quorum: set<Addr>, live: set<Addr>)
    requires Majority(quorum, live)
    ensures Blocks(quorum, live)
  {
    assert live == quorum + (live - quorum);
  }

  /** How many members shared with other every majority of live must contain. */
  function Unavoidable(live: set<Addr>, other: set<Addr>): nat {
    if |live| / 2 + 1 <= |live - other| then 0 else |live| / 2 + 1 - |live - other|
  }

  lemma {:induction false} SubsetOfSize(s: set<Addr>, n: nat) returns (t: set<Addr>)
    requires n <= |s|
    ensures t <= s && |t| == n
  {
    t := {};
    if n > 0 {
      var x :| x in s;
      t := SubsetOfSize(s - {x}, n - 1);
      t := t + {x};
    }
  }

  /** A majority of live with no more members shared with other than it must have. */
  lemma LeanMajority(live: set<Addr>, other: set<Addr>, shared: set<Addr>) returns (p: set<Addr>)
    requires shared <= live * other && |shared| == Unavoidable(live, other)
    ensures Majority(p, live) && p * other == shared
  {
    assert live == (live - other) + live * other && |live| == |live - other| + |live * other|;
    var rest := if |live| / 2 + 1 <= |live - other| then |live| / 2 + 1 else |live - other|;
    p := SubsetOfSize(live - other, rest);
    assert |p + shared| == |p| + |shared|;
    p := p + shared;
  }

  lemma SharedPart(p: set<Addr>, live: set<Addr>, other: set<Addr>)
    requires Majority(p, live)
    ensures |p * other| >= Unavoidable(live, other)
  {
    assert p == (p - other) + p * other && |p| == |p - other| + |p * other|;
    SubsetSize(p - other, live - other);
  }

  lemma DisjointParts(s: set<Addr>, t: set<Addr>, whole: set<Addr>)
    requires s !! t && s <= whole && t <= whole
    ensures |s| + |t| <= |whole|
  {
    assert |s + t| == |s| + |t|;
    SubsetSize(s + t, whole);
  }

  /** The majorities of two live sets always meet exactly when they cannot both do without
      enough of the shared members. On one live set they always do, on disjoint ones never. */
  lemma MajoritiesMeetIff(x: set<Addr>, y: set<Addr>)
    ensures (forall p, q :: Majority(p, x) && Majority(q, y) ==> p * q != {}) <==>
            Unavoidable(x, y) + Unavoidable(y, x) > |x * y|
  {
    assert y * x == x * y;
    if Unavoidable(x, y) + Unavoidable(y, x) > |x * y| {
      forall p, q | Majority(p, x) && Majority(q, y) ensures p * q != {} {
        SharedPart(p, x, y);
        SharedPart(q, y, x);
        if p * q == {} {
          assert forall a | a in p * y && a in q * x :: a in p * q;
          DisjointParts(p * y, q * x, x * y);
        }
      }
    } else {
      var s := SubsetOfSize(x * y, Unavoidable(x, y));
      assert |x * y - s| == |x * y| - |s|;
      var t := SubsetOfSize(x * y - s, Unavoidable(y, x));
      var p := LeanMajority(x, y, s);
      var q := LeanMajority(y, x, t);
      assert p * q == (p * y) * (q * x);
      assert p * q == {};
    }
  }

  function Senders(votes: seq<Vote>): set<Addr> { set i | 0 <= i < |votes| :: votes[i].from }

  lemma {:induction false} SendersSize(votes: seq<Vote>)
    requires forall i, j | 0 <= i < j < |votes| :: votes[i].from != votes[j].from
    ensures |Senders(votes)| == |votes|
  {
    if votes != [] {
      var rest := votes[..|votes| - 1];
      SendersSize(rest);
      assert Senders(votes) == Senders(rest) + {votes[|votes| - 1].from};
    }
  }

  /** A run that got past a phase heard from a strict majority of its own live set. */
  lemma PromisesAreMajority(members: set<Addr>, key: Key, q: Run)
    requires RunShape(members, key, q) && q.phase == Preparing && AfterPhase(q).phase == Proposing
    ensures Majority(Senders(q.promises), q.live)
  {
    SendersSize(q.promises);
  }

  /** The promise majority and the acceptance majority of two runs on one live set share
      an acceptor: both tests of RunPaxos succeeded, whoever proposed. */
  lemma PromiseMeetsAccept(members: set<Addr>, key: Key, q: Run, r: Run)
    requires RunShape(members, key, q) && q.phase == Preparing && AfterPhase(q).phase == Proposing
    requires RunShape(members, key, r) && r.phase == Proposing && AfterPhase(r).phase == Informing
    requires q.live == r.live
    ensures exists a :: a in Senders(q.promises) && a in r.accepts
  {
    PromisesAreMajority(members, key, q);
    MajoritiesMeet(q.live, Senders(q.promises), r.accepts);
    var a :| a in Senders(q.promises) * r.accepts;
  }

  // ---- A chosen operation --------------------------------------------------

  /** op is chosen at a round by quorum; `before` are the runs that had started by then. */
  datatype Choice = Choice(round: nat, op: Op, quorum: set<Addr>, before: set<RunId>)

  /** a accepted nothing else at the round, and did accept op if it is in the quorum. */
  predicate Holds(c: Choice, a: Addr, log: Log) {
    var e := EntryAt(log, c.round);
    (e.acceptedId > 0 ==> e.accepted == c.op) && (a in c.quorum ==> e.acceptedId > 0)
  }

  /** A later run has heard of op from every member of the quorum that answered it. */
  predicate Hears(c: Choice, q: Run) {
    (Proposed(q) ==> q.proposal == c.op) &&
    forall i | 0 <= i < |q.promises| ::
      (q.promises[i].from in c.quorum ==> q.promises[i].promise.acceptedId > 0) &&
      (q.promises[i].promise.acceptedId > 0 ==> q.promises[i].promise.op == c.op)
  }

  /** Runs of the round from before have ended, later ones hear of op. */
  predicate RunHears(c: Choice, id: RunId, q: Run) {
    q.round == c.round ==> if id in c.before then !InFlight(q) else Hears(c, q)
  }

  predicate Stable(v: View, c: Choice) {
    c.quorum <= v.logs.Keys &&
    (forall a :: a in v.logs ==> Holds(c, a, v.logs[a])) &&
    (forall id :: id in v.runs ==> RunHears(c, id, v.runs[id]))
  }

  /** A later run of the round cannot get around the quorum. */
  predicate Blocked(c: Choice, id: RunId, q: Run) {
    q.round == c.round && id !in c.before ==> Blocks(c.quorum, q.live)
  }

  predicate AllBlocked(runs: map<RunId, Run>, key: Key, c: Choice) {
    forall id :: id in runs && runs[id].key == key ==> Blocked(c, id, runs[id])
  }

  /** No member of quorum crashes or has its log overwritten by recovery. */
  predicate KeepsLogs(e: Event, quorum: set<Addr>) {
    (e.Restart? || e.Recover?) ==> e.a !in quorum
  }

  predicate AllKeepLogs(es: seq<Event>, quorum: set<Addr>) { forall i | 0 <= i < |es| :: KeepsLogs(es[i], quorum) }

  lemma StableSet(v: View, c: Choice, a: Addr, log: Log, id: RunId, q: Run)
    requires Stable(v, c) && a in v.logs && Holds(c, a, log) && RunHears(c, id, q)
    ensures Stable(v.(logs := v.logs[a := log], runs := v.runs[id := q]), c)
  {}

  lemma StableLog(v: View, c: Choice, a: Addr, log: Log)
    requires Stable(v, c) && a in v.logs && Holds(c, a, log)
    ensures Stable(v.(logs := v.logs[a := log]), c)
  {}

  lemma HoldsAccept(c: Choice, id: RunId, q: Run, a: Addr, log: Log)
    requires Holds(c, a, log) && RunHears(c, id, q) && InFlight(q) && Proposed(q)
    ensures Holds(c, a, SetAccepted(log, q.round, PROPOSE_ID, q.proposal))
  {}

  lemma StablePropose(v: View, c: Choice, id: RunId, a: Addr, fail: bool)
    requires Stable(v, c) && id in v.runs && a in v.logs && InFlight(v.runs[id]) && Proposed(v.runs[id])
    ensures var q := v.runs[id];
      Stable(v.(logs := v.logs[a := ProposeLog(v.logs[a], q.key, q.round, PROPOSE_ID, q.proposal, fail)]), c)
  {
    var q := v.runs[id];
    assert RunHears(c, id, q) && Holds(c, a, v.logs[a]);
    HoldsAccept(c, id, q, a, v.logs[a]);
    StableLog(v, c, a, ProposeLog(v.logs[a], q.key, q.round, PROPOSE_ID, q.proposal, fail));
  }

  lemma StableInform(v: View, c: Choice, id: RunId, a: Addr)
    requires WfView(v) && Stable(v, c) && id in v.runs && a in v.logs && InFlight(v.runs[id]) && Proposed(v.runs[id])
    ensures Stable(VInform(v, id, a), c)
  {
    var q := v.runs[id];
    assert RunHears(c, id, q) && Holds(c, a, v.logs[a]);
    HoldsAccept(c, id, q, a, v.logs[a]);
    StableSet(v, c, a, SetAccepted(v.logs[a], q.round, PROPOSE_ID, q.proposal), id, q.(informed := q.informed + {a}));
  }

  lemma StablePrepare(v: View, c: Choice, a: Addr, round: nat)
    requires Stable(v, c) && a in v.logs
    ensures Stable(v.(logs := v.logs[a := AddSlot(v.logs[a], round)]), c)
  {
    assert Holds(c, a, v.logs[a]);
    StableLog(v, c, a, AddSlot(v.logs[a], round));
  }

  lemma StableDeliver(v: View, key: Key, c: Choice, id: RunId, rpc: Rpc, a: Addr, fail: bool)
    requires Inv(v, key) && Stable(v, c)
    requires id in v.runs && a in v.logs && Sent(rpc, v.runs[id].phase)
    ensures Stable(VDeliver(v, id, rpc, a, fail), c)
  {
    assert RunOk(v, key, v.runs[id]);
    match rpc
    case PrepareRpc => StablePrepare(v, c, a, v.runs[id].round);
    case ProposeRpc => StablePropose(v, c, id, a, fail);
    case InformRpc => StableInform(v, c, id, a);
  }

  lemma HearsCall(c: Choice, id: RunId, q: Run, a: Addr, o: Outcome, log: Log)
    requires RunHears(c, id, q) && CallPhase(q.phase) && Holds(c, a, log)
    ensures RunHears(c, id, AfterCall(q, a, o, log))
  {}

  lemma StableCall(v: View, key: Key, c: Choice, id: RunId, a: Addr, o: Outcome)
    requires Inv(v, key) && Stable(v, c) && VEnabled(v, Call(id, a, o))
    ensures Stable(VCall(v, id, a, o), c)
  {
    var v1 := v;
    if o.Handled? {
      v1 := VDeliver(v, id, RpcOf(v.runs[id].phase), a, o.fail);
      StableDeliver(v, key, c, id, RpcOf(v.runs[id].phase), a, o.fail);
    }
    assert RunHears(c, id, v1.runs[id]) && Holds(c, a, v.logs[a]);
    HearsCall(c, id, v1.runs[id], a, o, v.logs[a]);
  }

  /** A promise from the quorum makes the run propose op. */
  lemma HearsEnough(c: Choice, q: Run)
    requires Hears(c, q) && Senders(q.promises) * c.quorum != {}
    ensures Chosen(q.promises, q.op) == c.op
  {
    var a :| a in Senders(q.promises) * c.quorum;
    var i :| 0 <= i < |q.promises| && q.promises[i].from == a;
    var j := AdoptIsEarliestMaximum(q.promises);
    assert q.promises[i].promise.acceptedId > 0;
  }

  lemma HearsPhase(members: set<Addr>, key: Key, c: Choice, id: RunId, q: Run)
    requires RunShape(members, key, q) && CallPhase(q.phase) && RunHears(c, id, q)
    requires Blocked(c, id, q)
    ensures RunHears(c, id, AfterPhase(q))
  {
    if q.round == c.round && q.phase == Preparing && AfterPhase(q).phase == Proposing {
      PromisesAreMajority(members, key, q);
      BlocksIff(c.quorum, q.live);
      HearsEnough(c, q);
    }
  }

  lemma StableAdvance(v: View, key: Key, c: Choice, id: RunId)
    requires Inv(v, key) && Stable(v, c) && VEnabled(v, Advance(id))
    requires Blocked(c, id, v.runs[id])
    ensures Stable(VAdvance(v, id), c)
  {
    assert RunOk(v, key, v.runs[id]) && RunHears(c, id, v.runs[id]);
    HearsPhase(v.logs.Keys, key, c, id, v.runs[id]);
  }

  lemma StableRestart(v: View, c: Choice, a: Addr)
    requires WfView(v) && Stable(v, c) && a in v.logs && a !in c.quorum
    ensures Stable(VRestart(v, a), c)
  {
    StableLog(v, c, a, map[]);
  }

  lemma HoldsUnion(c: Choice, a: Addr, source: Addr, log: Log, over: Log)
    requires Holds(c, a, log) && Holds(c, source, over) && a !in c.quorum
    ensures Holds(c, a, log + over)
  {}

  lemma StableRecover(v: View, c: Choice, a: Addr, source: Addr)
    requires WfView(v) && Stable(v, c) && a in v.logs && source in v.logs && a !in c.quorum
    ensures Stable(VRecover(v, a, source), c)
  {
    assert Holds(c, a, v.logs[a]) && Holds(c, source, v.logs[source]);
    HoldsUnion(c, a, source, v.logs[a], v.logs[source]);
    StableLog(v, c, a, v.logs[a] + v.logs[source]);
  }

  lemma StableStart(v: View, c: Choice, e: Event)
    requires WfView(v) && Stable(v, c) && VEnabled(v, e) && e.Start? && e.id !in c.before
    ensures Stable(VApply(v, e), c)
  {}

  lemma StablePing(v: View, key: Key, c: Choice, id: RunId, live: set<Addr>)
    requires Inv(v, key) && Stable(v, c) && VEnabled(v, Ping(id, live))
    ensures Stable(VApply(v, Ping(id, live)), c)
  {
    assert RunOk(v, key, v.runs[id]) && RunHears(c, id, v.runs[id]);
  }

  lemma StableStep(v: View, key: Key, c: Choice, e: Event)
    requires Inv(v, key) && Stable(v, c) && VEnabled(v, e)
    requires AllBlocked(v.runs, key, c) && KeepsLogs(e, c.quorum)
    requires e.Start? ==> e.id !in c.before
    ensures Stable(VApply(v, e), c)
  {
    match e
    case Call(id, a, o) => StableCall(v, key, c, id, a, o);
    case Late(id, a, rpc, fail) => StableDeliver(v, key, c, id, rpc, a, fail);
    case Advance(id) =>
      assert RunOk(v, key, v.runs[id]);
      StableAdvance(v, key, c, id);
    case Start(_, _, _) => StableStart(v, c, e);
    case Ping(id, live) => StablePing(v, key, c, id, live);
    case Restart(a) => StableRestart(v, c, a);
    case Recover(a, source) => StableRecover(v, c, a, source);
  }

  lemma BlockedBefore(v: View, w: View, key: Key, c: Choice)
    requires Grows(v, w) && AllBlocked(w.runs, key, c)
    ensures AllBlocked(v.runs, key, c)
  {
    forall id | id in v.runs && v.runs[id].key == key ensures Blocked(c, id, v.runs[id]) {
      assert Blocked(c, id, w.runs[id]) && RunGrows(v.runs[id], w.runs[id]);
    }
  }

  lemma StableHead(s: System, es: seq<Event>, key: Key, c: Choice) returns (s1: System)
    requires Wf(s) && es != [] && Valid(s, es) && Inv(ViewOf(s, key), key)
    requires Stable(ViewOf(s, key), c) && c.before <= s.runs.Keys && KeepsLogs(es[0], c.quorum)
    requires AllBlocked(ViewOf(Exec(s, es), key).runs, key, c)
    ensures Wf(s1) && Stable(ViewOf(s1, key), c) && Inv(ViewOf(s1, key), key) && s.runs.Keys <= s1.runs.Keys
    ensures Valid(s1, es[1..]) && Exec(s1, es[1..]) == Exec(s, es)
  {
    s1 := Apply(s, es[0]);
    RunsStay(s, es[0]);
    InvExec(s, es, key);
    BlockedBefore(ViewOf(s, key), ViewOf(Exec(s, es), key), key, c);
    ViewStep(s, es[0], key);
    if Concerns(s, es[0], key) {
      StableStep(ViewOf(s, key), key, c, es[0]);
      InvStep(ViewOf(s, key), key, es[0]);
    }
  }

  lemma KeepTail(es: seq<Event>, quorum: set<Addr>)
    requires es != [] && AllKeepLogs(es, quorum)
    ensures KeepsLogs(es[0], quorum) && AllKeepLogs(es[1..], quorum)
  {}

  lemma RunsStay(s: System, e: Event)
    requires Wf(s) && Enabled(s, e)
    ensures s.runs.Keys <= Apply(s, e).runs.Keys
  {}

  lemma {:induction false} StableExec(s: System, es: seq<Event>, key: Key, c: Choice)
    requires Wf(s) && Valid(s, es) && Inv(ViewOf(s, key), key)
    requires Stable(ViewOf(s, key), c) && c.before <= s.runs.Keys
    requires AllBlocked(ViewOf(Exec(s, es), key).runs, key, c)
    requires AllKeepLogs(es, c.quorum)
    ensures Stable(ViewOf(Exec(s, es), key), c)
    decreases |es|
  {
    if es != [] {
      KeepTail(es, c.quorum);
      var s1 := StableHead(s, es, key, c);
      StableExec(s1, es[1..], key, c);
    }
  }

  /** In state s every acceptance at (key, round) is op, the quorum holds it, and the runs
      there have ended. */
  predicate ChosenAt(s: System, key: Key, c: Choice) {
    Wf(s) && c.quorum <= s.stubs && c.before == s.runs.Keys &&
    (forall a :: a in s.stubs ==> Holds(c, a, LogOf(s.replicas[a], key))) &&
    (forall id :: id in s.runs && s.runs[id].key == key && s.runs[id].round == c.round ==> !InFlight(s.runs[id]))
  }

  lemma ChosenMeansStable(s: System, key: Key, c: Choice)
    requires ChosenAt(s, key, c)
    ensures Stable(ViewOf(s, key), c)
  {}

  lemma ViewBlocked(s: System, key: Key, c: Choice)
    requires AllBlocked(s.runs, key, c)
    ensures AllBlocked(ViewOf(s, key).runs, key, c)
  {}

  /** Every later run at the chosen (key, round) failed its promise majority or
      proposed the chosen operation. */
  predicate LaterRunsFollow(s: System, key: Key, c: Choice) {
    forall id :: id in s.runs && id !in c.before && s.runs[id].key == key && s.runs[id].round == c.round ==>
      !Proposed(s.runs[id]) || s.runs[id].proposal == c.op
  }

  /** No acceptor accepted anything else at the chosen (key, round). */
  predicate AcceptorsHold(s: System, key: Key, c: Choice) {
    Wf(s) && forall a :: a in s.stubs ==> Holds(c, a, LogOf(s.replicas[a], key))
  }

  lemma StableMeansChosen(s: System, key: Key, c: Choice)
    requires Wf(s) && Stable(ViewOf(s, key), c)
    ensures LaterRunsFollow(s, key, c) && AcceptorsHold(s, key, c)
  {
    var v := ViewOf(s, key);
    forall id | id in s.runs && id !in c.before && s.runs[id].key == key && s.runs[id].round == c.round
      ensures !Proposed(s.runs[id]) || s.runs[id].proposal == c.op
    {
      assert RunHears(c, id, v.runs[id]);
    }
    forall a | a in s.stubs ensures Holds(c, a, LogOf(s.replicas[a], key)) { assert Holds(c, a, v.logs[a]); }
  }

  /** Once an operation is chosen, every later run at its (key, round) whose live set the
      quorum blocks, by any proposer and overlapping in any way, either fails its promise
      majority or proposes that operation, and no acceptor ever accepts another one there,
      as long as the acceptors that hold it keep their logs. */
  lemma ChosenIsStable(stubs: set<Addr>, es: seq<Event>, fs: seq<Event>, key: Key, c: Choice)
    requires Valid(Init(stubs), es) && Valid(Exec(Init(stubs), es), fs)
    requires ChosenAt(Exec(Init(stubs), es), key, c)
    requires AllKeepLogs(fs, c.quorum)
    requires AllBlocked(Exec(Exec(Init(stubs), es), fs).runs, key, c)
    ensures var t := Exec(Exec(Init(stubs), es), fs); LaterRunsFollow(t, key, c) && AcceptorsHold(t, key, c)
  {
    InvAlways(stubs, es, key);
    StaysChosen(Exec(Init(stubs), es), fs, key, c);
  }

  lemma StaysChosen(s: System, fs: seq<Event>, key: Key, c: Choice)
    requires Wf(s) && Valid(s, fs) && Inv(ViewOf(s, key), key) && ChosenAt(s, key, c)
    requires AllKeepLogs(fs, c.quorum)
    requires AllBlocked(Exec(s, fs).runs, key, c)
    ensures LaterRunsFollow(Exec(s, fs), key, c) && AcceptorsHold(Exec(s, fs), key, c)
  {
    ChosenMeansStable(s, key, c);
    ViewBlocked(Exec(s, fs), key, c);
    StableExec(s, fs, key, c);
    StableMeansChosen(Exec(s, fs), key, c);
  }

  /** The later runs of the round are on this live set, or have not pinged. */
  predicate OnLiveSet(s: System, key: Key, c: Choice, live: set<Addr>) {
    forall id :: id in s.runs && s.runs[id].key == key && s.runs[id].round == c.round && id !in c.before ==>
      s.runs[id].live == live || s.runs[id].live == {}
  }

  /** ... in particular when the quorum is a majority of the live set that all of them use. */
  lemma ChosenOnOneLiveSet(stubs: set<Addr>, es: seq<Event>, fs: seq<Event>, key: Key, c: Choice, live: set<Addr>)
    requires Valid(Init(stubs), es) && Valid(Exec(Init(stubs), es), fs)
    requires ChosenAt(Exec(Init(stubs), es), key, c) && Majority(c.quorum, live)
    requires AllKeepLogs(fs, c.quorum)
    requires OnLiveSet(Exec(Exec(Init(stubs), es), fs), key, c, live)
    ensures var t := Exec(Exec(Init(stubs), es), fs); LaterRunsFollow(t, key, c) && AcceptorsHold(t, key, c)
  {
    MajorityBlocks(c.quorum, live);
    ChosenIsStable(stubs, es, fs, key, c);
  }
}
