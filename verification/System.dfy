/** The step machine: many runs of RunPaxos in flight, each handled RPC one atomic
    step, with arbitrary interleaving, loss, random failure and live sets. An
    event labels a step; Apply gives the one state that the event leads to. */
module System {
  import opened Types
  import opened Handlers

  datatype Phase = Pinging | Preparing | Proposing | Informing | Done(ok: bool)

  /** A promise that the proposer received, and who sent it. */
  datatype Vote = Vote(from: Addr, promise: PromiseResponse)

  /** The local state of one RunPaxos call. `proposal` is NO_OP until the promise
      majority is reached; `informed` is history: who handled this run's Inform. */
  datatype Run = Run(
    proposer: Addr, key: Key, op: Op, round: nat,
    live: set<Addr>, phase: Phase, todo: set<Addr>,
    promises: seq<Vote>, proposal: Op, accepts: set<Addr>, informed: set<Addr>)

  predicate InFlight(q: Run) { !q.phase.Done? }

  /** The run got past its promise majority. */
  predicate Proposed(q: Run) { q.proposal.kind != NotSet }

  /** The run got past its acceptance majority, and so returns OK. */
  predicate Decided(q: Run) { q.phase == Informing || q.phase == Done(true) }

  /** History: `decided` lists each key's operations in the order in which runs
      reached consensus on them, `hist` the operations each replica executed. */
  datatype System = System(
    stubs: set<Addr>,
    replicas: map<Addr, Replica>,
    runs: map<RunId, Run>,
    decided: map<Key, seq<Entry>>,
    hist: map<Addr, map<Key, seq<Entry>>>)

  function Init(stubs: set<Addr>): System {
    System(stubs, map a | a in stubs :: EMPTY_REPLICA, map[], map[], map a | a in stubs :: map[])
  }

  predicate Wf(s: System) {
    s.replicas.Keys == s.stubs && s.hist.Keys == s.stubs
  }

  /** History is overlaid as recovery overlays the data it describes. */
  function OverlayHist(h: map<Key, seq<Entry>>, snap: map<Key, seq<Entry>>): map<Key, seq<Entry>> {
    map k | k in h.Keys + snap.Keys :: if k in snap && (snap[k] != [] || k !in h) then snap[k] else h[k]
  }

  function EntriesAt(m: map<Key, seq<Entry>>, key: Key): seq<Entry> {
    if key in m then m[key] else []
  }

  // ---- Adoption ------------------------------------------------------------

  /** The scan over the promises in the order received: a strictly greater
      accepted id replaces the adopted one. */
  function Adopt(votes: seq<Vote>): (int, Op) {
    if |votes| == 0 then (0, NO_OP)
    else
      var best := Adopt(votes[..|votes| - 1]);
      var p := votes[|votes| - 1].promise;
      if p.acceptedId > best.0 then (p.acceptedId, p.op) else best
  }

  function Chosen(votes: seq<Vote>, own: Op): Op {
    if Adopt(votes).0 > 0 then Adopt(votes).1 else own
  }

  // ---- RPCs ----------------------------------------------------------------

  datatype Rpc = PrepareRpc | ProposeRpc | InformRpc

  /** What the network does with one RPC. */
  datatype Outcome = NotHandled | Handled(fail: bool, answered: bool)

  datatype Event =
    | Start(id: RunId, proposer: Addr, req: Request)
    | Ping(id: RunId, live: set<Addr>)
    | Call(id: RunId, a: Addr, outcome: Outcome)
    | Late(id: RunId, a: Addr, rpc: Rpc, fail: bool)
    | Advance(id: RunId)
    | Restart(a: Addr)
    | Recover(a: Addr, source: Addr)

  predicate RunEvent(e: Event) { !e.Restart? && !e.Recover? }

  predicate CallPhase(p: Phase) { p == Preparing || p == Proposing || p == Informing }

  function RpcOf(p: Phase): Rpc
    requires CallPhase(p)
  {
    match p case Preparing => PrepareRpc case Proposing => ProposeRpc case Informing => InformRpc
  }

  /** The RPC has been sent by a run in this phase, or by the end of it. */
  predicate Sent(rpc: Rpc, p: Phase) {
    match rpc
    case PrepareRpc => CallPhase(p)
    case ProposeRpc => p == Proposing || p == Informing
    case InformRpc => p == Informing
  }

  function AcceptanceOf(q: Run): AcceptResponse { AcceptResponse(q.round, PROPOSE_ID, q.proposal) }

  /** Replica a handles the Inform of run id. */
  function DeliverInform(s: System, id: RunId, a: Addr): System
    requires id in s.runs && a in s.replicas && a in s.hist
  {
    var q := s.runs[id];
    var (r', executed) := HandleInform(s.replicas[a], s.stubs, q.key, AcceptanceOf(q));
    s.(replicas := s.replicas[a := r'],
       runs := s.runs[id := q.(informed := q.informed + {a})],
       hist := if executed
               then s.hist[a := s.hist[a][q.key := EntriesAt(s.hist[a], q.key) + [Entry(id, q.round, q.proposal)]]]
               else s.hist)
  }

  /** Replica a handles an RPC of run id. */
  function Deliver(s: System, id: RunId, rpc: Rpc, a: Addr, fail: bool): System
    requires id in s.runs && a in s.replicas && a in s.hist
  {
    var q, r := s.runs[id], s.replicas[a];
    match rpc
    case PrepareRpc =>
      s.(replicas := s.replicas[a := HandlePrepare(r, q.key, q.round, PROPOSE_ID, fail).0])
    case ProposeRpc =>
      s.(replicas := s.replicas[a := HandlePropose(r, q.key, q.round, PROPOSE_ID, q.proposal, fail).0])
    case InformRpc => DeliverInform(s, id, a)
  }

  /** The proposer's bookkeeping after one call, given the key's log at a before it. */
  function AfterCall(q: Run, a: Addr, outcome: Outcome, log: Log): Run {
    var q' := q.(todo := q.todo - {a});
    if outcome.NotHandled? || !outcome.answered then q'
    else
      match q.phase
      case Preparing =>
        (match PrepareReply(log, q.key, q.round, PROPOSE_ID, outcome.fail)
         case Ok(p) => q'.(promises := q.promises + [Vote(a, p)])
         case Aborted => q')
      case Proposing =>
        (match ProposeReply(log, q.key, q.round, PROPOSE_ID, q.proposal, outcome.fail)
         case Ok(_) => q'.(accepts := q.accepts + {a})
         case Aborted => q')
      case _ => q'
  }

  /** The end of a phase: the integer majority tests of RunPaxos. */
  function AfterPhase(q: Run): Run {
    match q.phase
    case Preparing =>
      if |q.promises| <= |q.live| / 2 then q.(phase := Done(false))
      else q.(phase := Proposing, todo := q.live, proposal := Chosen(q.promises, q.op))
    case Proposing =>
      if |q.accepts| <= |q.live| / 2 then q.(phase := Done(false))
      else q.(phase := Informing, todo := q.live)
    case Informing => q.(phase := Done(true))
    case _ => q
  }

  function AfterPing(q: Run, live: set<Addr>): Run {
    if live == {} then q.(phase := Done(false))
    else q.(phase := Preparing, live := live, todo := live)
  }

  /** A new run reads its proposer's latest round, which inserts an empty log. */
  function NewRun(proposer: Addr, req: Request, log: Log): Run {
    Run(proposer, req.key, ProposeValue(req), LatestRound(log) + 1, {}, Pinging, {}, [], NO_OP, {}, {})
  }

  function Decide(s: System, q: Run, id: RunId): System {
    s.(decided := s.decided[q.key := EntriesAt(s.decided, q.key) + [Entry(id, q.round, q.proposal)]])
  }

  predicate Enabled(s: System, e: Event) {
    match e
    case Start(id, proposer, req) => id !in s.runs && proposer in s.stubs && ProperRequest(req)
    case Ping(id, live) => id in s.runs && s.runs[id].phase == Pinging && live <= s.stubs
    case Call(id, a, _) =>
      id in s.runs && CallPhase(s.runs[id].phase) && a in s.runs[id].todo && a in s.stubs
    case Late(id, a, rpc, _) =>
      id in s.runs && Sent(rpc, s.runs[id].phase) && a in s.runs[id].live && a in s.stubs
    case Advance(id) => id in s.runs && CallPhase(s.runs[id].phase) && s.runs[id].todo == {}
    case Restart(a) => a in s.stubs
    case Recover(a, source) => a in s.stubs && source in s.stubs
  }

  function TouchLog(r: Replica, key: Key): Replica { r.(logs := r.logs[key := LogOf(r, key)]) }

  /** The process at a restarts with an empty database. */
  function RestartReplica(s: System, a: Addr): System {
    s.(replicas := s.replicas[a := EMPTY_REPLICA], hist := s.hist[a := map[]])
  }

  /** a installs a snapshot of source. */
  function RecoverReplica(s: System, a: Addr, source: Addr): System
    requires Wf(s) && a in s.stubs && source in s.stubs
  {
    s.(replicas := s.replicas[a := Install(s.replicas[a], HandleRecover(s.replicas[source]))],
       hist := s.hist[a := OverlayHist(s.hist[a], s.hist[source])])
  }

  function Apply(s: System, e: Event): (s': System)
    requires Wf(s) && Enabled(s, e)
    ensures Wf(s') && s'.stubs == s.stubs
  {
    match e
    case Start(id, proposer, req) =>
      var r := s.replicas[proposer];
      s.(replicas := s.replicas[proposer := TouchLog(r, req.key)],
         runs := s.runs[id := NewRun(proposer, req, LogOf(r, req.key))])
    case Ping(id, live) => s.(runs := s.runs[id := AfterPing(s.runs[id], live)])
    case Call(id, a, outcome) =>
      var q := s.runs[id];
      var s1 := if outcome.Handled? then Deliver(s, id, RpcOf(q.phase), a, outcome.fail) else s;
      s1.(runs := s1.runs[id := AfterCall(s1.runs[id], a, outcome, LogOf(s.replicas[a], q.key))])
    case Late(id, a, rpc, fail) => Deliver(s, id, rpc, a, fail)
    case Advance(id) =>
      var q := s.runs[id];
      var s1 := if q.phase == Proposing && AfterPhase(q).phase == Informing then Decide(s, q, id) else s;
      s1.(runs := s1.runs[id := AfterPhase(q)])
    case Restart(a) => RestartReplica(s, a)
    case Recover(a, source) => RecoverReplica(s, a, source)
  }

  // ---- Behaviours ----------------------------------------------------------

  predicate Valid(s: System, es: seq<Event>)
    requires Wf(s)
    decreases |es|
  {
    es == [] || (Enabled(s, es[0]) && Valid(Apply(s, es[0]), es[1..]))
  }

  function Exec(s: System, es: seq<Event>): (s': System)
    requires Wf(s) && Valid(s, es)
    ensures Wf(s') && s'.stubs == s.stubs
    decreases |es|
  {
    if es == [] then s else Exec(Apply(s, es[0]), es[1..])
  }

  lemma {:induction false} ExecConcat(s: System, es: seq<Event>, fs: seq<Event>)
    requires Wf(s) && Valid(s, es) && Valid(Exec(s, es), fs)
    ensures Valid(s, es + fs) && Exec(s, es + fs) == Exec(Exec(s, es), fs)
    decreases |es|
  {
    if es == [] {
      assert es + fs == fs;
    } else {
      assert (es + fs)[1..] == es[1..] + fs;
      ExecConcat(Apply(s, es[0]), es[1..], fs);
    }
  }
}
