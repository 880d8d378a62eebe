/** What one step of a run does in every reachable state, in terms of what the network and the
    random failure do to it. */
module Steps {
  import opened Types
  import opened Handlers
  import opened System
  import opened KeyView
  import opened Safety
  import opened Stability
  import opened Commute
  import opened Loops
  import opened Recovery

  /** Two states that differ at most in run id and at replica a. */
  predicate OnlyHere(s: System, t: System, id: RunId, a: Addr) {
    t.stubs == s.stubs && s.replicas.Keys == t.replicas.Keys && id in s.runs && t.runs.Keys == s.runs.Keys &&
    (forall b :: b in s.replicas && b != a ==> t.replicas[b] == s.replicas[b]) &&
    (forall i :: i in s.runs && i != id ==> t.runs[i] == s.runs[i])
  }

  lemma UpdateHere(s: System, s1: System, id: RunId, a: Addr, q: Run)
    requires OnlyHere(s, s1, id, a)
    ensures OnlyHere(s, s1.(runs := s1.runs[id := q]), id, a)
  {}

  lemma DeliverLeaves(s: System, id: RunId, rpc: Rpc, a: Addr, fail: bool)
    requires Wf(s) && id in s.runs && a in s.stubs
    requires EntryAt(LogOf(s.replicas[a], s.runs[id].key), s.runs[id].round).promisedId == 0
    ensures var t, q := Deliver(s, id, rpc, a, fail), s.runs[id];
      OnlyHere(s, t, id, a) &&
      t.runs[id] == (if rpc == InformRpc then q.(informed := q.informed + {a}) else q) &&
      Leaves(s.replicas[a], t.replicas[a], s.stubs, q.key, q.round, q.proposal, true,
             rpc == ProposeRpc && (q.key == COORDINATOR_KEY || !fail), rpc == InformRpc)
  {
    var q, r := s.runs[id], s.replicas[a];
    TouchLeaves(r, s.stubs, q.key, q.round, q.proposal);
    match rpc
    case PrepareRpc => PrepareLeaves(r, r, s.stubs, q.key, q.round, q.proposal, fail);
    case ProposeRpc => ProposeLeaves(r, r, s.stubs, q.key, q.round, q.proposal, false, fail);
    case InformRpc => InformLeaves(r, r, s.stubs, q.key, q.round, q.proposal, false, false);
  }

  lemma ReachableUnpromised(stubs: set<Addr>, es: seq<Event>, a: Addr, key: Key, round: nat)
    requires Valid(Init(stubs), es) && a in stubs
    ensures EntryAt(LogOf(Exec(Init(stubs), es).replicas[a], key), round).promisedId == 0
  {
    assert Inv(ViewOf(Exec(Init(stubs), es), key), key) by { InvAlways(stubs, es, key); }
    UnpromisedIn(Exec(Init(stubs), es), a, key, round);
  }

  lemma Counted(q: Run, a: Addr, o: Outcome, log: Log)
    requires CallPhase(q.phase) && EntryAt(log, q.round).promisedId == 0
    ensures var q' := AfterCall(q, a, o, log);
      var heard := o.Handled? && o.answered && (q.key == "coordinator" || !o.fail);
      var entry := EntryAt(log, q.round);
      q' == q.(todo := q.todo - {a}, promises := q'.promises, accepts := q'.accepts) &&
      var (heldId, held) := if entry.acceptedId > 0 then (entry.acceptedId, entry.accepted) else (0, NO_OP);
      q'.promises == (if q.phase == Preparing && heard
                      then q.promises + [Vote(a, PromiseResponse(q.round, PROPOSE_ID, heldId, held))]
                      else q.promises) &&
      q'.accepts == (if q.phase == Proposing && heard then q.accepts + {a} else q.accepts)
  {}

  lemma CallMeansIn(s: System, id: RunId, a: Addr, o: Outcome)
    requires Wf(s) && Enabled(s, Call(id, a, o))
    requires EntryAt(LogOf(s.replicas[a], s.runs[id].key), s.runs[id].round).promisedId == 0
    ensures var t := Apply(s, Call(id, a, o));
      OnlyHere(s, t, id, a) &&
      var q, q' := s.runs[id], t.runs[id];
      var served := o.Handled? && (q.key == "coordinator" || !o.fail);
      var heard := served && o.answered;
      var entry := EntryAt(LogOf(s.replicas[a], q.key), q.round);
      q' == q.(todo := q.todo - {a}, promises := q'.promises, accepts := q'.accepts, informed := q'.informed) &&
      var (heldId, held) := if entry.acceptedId > 0 then (entry.acceptedId, entry.accepted) else (0, NO_OP);
      q'.promises == (if q.phase == Preparing && heard
                      then q.promises + [Vote(a, PromiseResponse(q.round, PROPOSE_ID, heldId, held))]
                      else q.promises) &&
      q'.accepts == (if q.phase == Proposing && heard then q.accepts + {a} else q.accepts) &&
      q'.informed == (if q.phase == Informing && o.Handled? then q.informed + {a} else q.informed) &&
      (o.NotHandled? ==> t.replicas == s.replicas) &&
      Leaves(s.replicas[a], t.replicas[a], s.stubs, q.key, q.round, q.proposal, o.Handled?,
             q.phase == Proposing && served, q.phase == Informing && o.Handled?)
  {
    var q := s.runs[id];
    var s1 := CallApplies(s, id, a, o);
    if o.Handled? {
      DeliverLeaves(s, id, RpcOf(q.phase), a, o.fail);
    } else {
      TouchLeaves(s.replicas[a], s.stubs, q.key, q.round, q.proposal);
    }
    assert OnlyHere(s, s1, id, a);
    Counted(s1.runs[id], a, o, LogOf(s.replicas[a], q.key));
    UpdateHere(s, s1, id, a, AfterCall(s1.runs[id], a, o, LogOf(s.replicas[a], q.key)));
  }

  /** A call touches its own run and the replica that it reaches. The acceptor is counted if
      and only if the call is handled, its answer arrives, and it does not fail at random; its
      promise reports the acceptance it holds at the round. What the replica is left with does
      not depend on the answer. A call that is not handled only takes the address off the
      list. */
  lemma CallMeans(stubs: set<Addr>, es: seq<Event>, id: RunId, a: Addr, o: Outcome)
    requires Valid(Init(stubs), es) && Enabled(Exec(Init(stubs), es), Call(id, a, o))
    ensures var s := Exec(Init(stubs), es); var t := Apply(s, Call(id, a, o));
      OnlyHere(s, t, id, a) &&
      var q, q' := s.runs[id], t.runs[id];
      var served := o.Handled? && (q.key == "coordinator" || !o.fail);
      var heard := served && o.answered;
      var entry := EntryAt(LogOf(s.replicas[a], q.key), q.round);
      q' == q.(todo := q.todo - {a}, promises := q'.promises, accepts := q'.accepts, informed := q'.informed) &&
      var (heldId, held) := if entry.acceptedId > 0 then (entry.acceptedId, entry.accepted) else (0, NO_OP);
      q'.promises == (if q.phase == Preparing && heard
                      then q.promises + [Vote(a, PromiseResponse(q.round, PROPOSE_ID, heldId, held))]
                      else q.promises) &&
      q'.accepts == (if q.phase == Proposing && heard then q.accepts + {a} else q.accepts) &&
      q'.informed == (if q.phase == Informing && o.Handled? then q.informed + {a} else q.informed) &&
      (o.NotHandled? ==> t.replicas == s.replicas) &&
      Leaves(s.replicas[a], t.replicas[a], stubs, q.key, q.round, q.proposal, o.Handled?,
             q.phase == Proposing && served, q.phase == Informing && o.Handled?)
  {
    var s := Exec(Init(stubs), es);
    ReachableUnpromised(stubs, es, a, s.runs[id].key, s.runs[id].round);
    CallMeansIn(s, id, a, o);
  }

  /** A request that is handled late does to the replica what a call in time does; the proposer
      hears nothing of it. */
  lemma LateMeans(stubs: set<Addr>, es: seq<Event>, id: RunId, a: Addr, rpc: Rpc, fail: bool)
    requires Valid(Init(stubs), es) && Enabled(Exec(Init(stubs), es), Late(id, a, rpc, fail))
    ensures var s := Exec(Init(stubs), es); var t := Apply(s, Late(id, a, rpc, fail));
      OnlyHere(s, t, id, a) &&
      var q := s.runs[id];
      t.runs[id] == (if rpc == InformRpc then q.(informed := q.informed + {a}) else q) &&
      Leaves(s.replicas[a], t.replicas[a], stubs, q.key, q.round, q.proposal, true,
             rpc == ProposeRpc && (q.key == "coordinator" || !fail), rpc == InformRpc)
  {
    var s := Exec(Init(stubs), es);
    ReachableUnpromised(stubs, es, a, s.runs[id].key, s.runs[id].round);
    DeliverLeaves(s, id, rpc, a, fail);
  }

  /** A run starts one round above the latest that its proposer knows, asking for what the
      request says. */
  lemma StartMeans(s: System, id: RunId, proposer: Addr, req: Request)
    requires Wf(s) && Enabled(s, Start(id, proposer, req))
    ensures var t := Apply(s, Start(id, proposer, req));
      t.runs.Keys == s.runs.Keys + {id} && (forall i :: i in s.runs ==> t.runs[i] == s.runs[i]) &&
      (forall b :: b in s.replicas && b != proposer ==> t.replicas[b] == s.replicas[b]) &&
      t.replicas[proposer].data == s.replicas[proposer].data &&
      t.replicas[proposer].coordinator == s.replicas[proposer].coordinator &&
      (forall k :: LogOf(t.replicas[proposer], k) == LogOf(s.replicas[proposer], k)) &&
      var q, log := t.runs[id], LogOf(s.replicas[proposer], req.key);
      q.phase == Pinging && q.key == req.key && q.round == LatestRound(log) + 1 &&
      (req.Put? ==> q.op == Op(Set, req.value)) && (req.Del? ==> q.op == Op(Delete, "")) &&
      (req.Elect? ==> q.op == Op(SetCoordinator, req.coordinator))
  {}

  /** A loop ends in a strict majority of the run's live set, or the run is aborted: of those
      that promised for the Prepare loop, of those that accepted for the Propose loop. Its
      proposal reaches consensus at that moment. After the Inform loop it returns OK. No
      replica changes. */
  lemma AdvanceMeans(stubs: set<Addr>, es: seq<Event>, id: RunId)
    requires Valid(Init(stubs), es) && Enabled(Exec(Init(stubs), es), Advance(id))
    ensures var s := Exec(Init(stubs), es); var t := Apply(s, Advance(id));
      t.replicas == s.replicas && t.runs.Keys == s.runs.Keys && id in s.runs &&
      (forall i :: i in s.runs && i != id ==> t.runs[i] == s.runs[i]) &&
      var q, q' := s.runs[id], t.runs[id];
      (q.phase == Preparing ==> q'.phase == if 2 * |Senders(q.promises)| > |q.live| then Proposing else Done(false)) &&
      (q.phase == Proposing ==> q'.phase == if 2 * |q.accepts| > |q.live| then Informing else Done(false)) &&
      (q.phase == Informing ==> q'.phase == Done(true)) &&
      t.decided == if q.phase == Proposing && 2 * |q.accepts| > |q.live|
                   then s.decided[q.key := EntriesAt(s.decided, q.key) + [Entry(id, q.round, q.proposal)]]
                   else s.decided
  {
    var s := Exec(Init(stubs), es);
    var votes := s.runs[id].promises;
    assert |Senders(votes)| == |votes| by { SendersDistinct(stubs, es, id); }
    PhaseEnds(s.runs[id]);
  }

  lemma SendersDistinct(stubs: set<Addr>, es: seq<Event>, id: RunId)
    requires Valid(Init(stubs), es) && id in Exec(Init(stubs), es).runs
    ensures var votes := Exec(Init(stubs), es).runs[id].promises; |Senders(votes)| == |votes|
  {
    var q := Exec(Init(stubs), es).runs[id];
    assert VotesOk(q) by {
      InvAlways(stubs, es, q.key);
      var v := ViewOf(Exec(Init(stubs), es), q.key);
      assert RunOk(v, q.key, v.runs[id]);
    }
    SendersSize(q.promises);
  }

  lemma PhaseEnds(q: Run)
    requires CallPhase(q.phase)
    ensures var p := AfterPhase(q).phase;
      (q.phase == Preparing ==> p == if 2 * |q.promises| > |q.live| then Proposing else Done(false)) &&
      (q.phase == Proposing ==> p == if 2 * |q.accepts| > |q.live| then Informing else Done(false)) &&
      (q.phase == Informing ==> p == Done(true))
  {}

  // ---- Requests that arrive late ---------------------------------------------------------

  lemma LateStays(s: System, e: Event, id: RunId, a: Addr, rpc: Rpc, fail: bool)
    requires Wf(s) && Enabled(s, e) && id in s.runs
    requires Enabled(s, Late(id, a, rpc, fail)) || !InFlight(s.runs[id])
    ensures id in Apply(s, e).runs && (Enabled(Apply(s, e), Late(id, a, rpc, fail)) || !InFlight(Apply(s, e).runs[id]))
  {
    PhaseMoves(s, e, id);
  }

  /** Only its ping and the ends of its loops move a run on. */
  lemma PhaseMoves(s: System, e: Event, id: RunId)
    requires Wf(s) && Enabled(s, e) && id in s.runs
    ensures id in Apply(s, e).runs
    ensures var q, q' := s.runs[id], Apply(s, e).runs[id];
      if q.phase == Pinging then true
      else q'.live == q.live && q'.phase == if e == Advance(id) then AfterPhase(q).phase else q.phase
  {
    if RunEvent(e) && e.id != id { RunsOfOthers(s, e, id); return; }
    match e
    case Call(i, a, o) => CallRuns(s, i, a, o);
    case Late(i, a, rpc, fail) => DeliverRuns(s, i, rpc, a, fail);
    case _ =>
  }

  lemma {:induction false} LateUntilTheEnd(s: System, es: seq<Event>, id: RunId, a: Addr, rpc: Rpc, fail: bool)
    requires Wf(s) && Valid(s, es) && id in s.runs
    requires Enabled(s, Late(id, a, rpc, fail)) || !InFlight(s.runs[id])
    ensures id in Exec(s, es).runs
    ensures Enabled(Exec(s, es), Late(id, a, rpc, fail)) || !InFlight(Exec(s, es).runs[id])
    decreases |es|
  {
    if es != [] {
      LateStays(s, es[0], id, a, rpc, fail);
      LateUntilTheEnd(Apply(s, es[0]), es[1..], id, a, rpc, fail);
    }
  }

  /** Whatever a call sends may be handled at any later time, in whatever has happened since, as
      long as its run has not ended. */
  lemma LateIsPossible(stubs: set<Addr>, es: seq<Event>, fs: seq<Event>, id: RunId, a: Addr, o: Outcome, fail: bool)
    requires Valid(Init(stubs), es) && Enabled(Exec(Init(stubs), es), Call(id, a, o))
    requires Valid(Exec(Init(stubs), es), fs)
    ensures var s := Exec(Init(stubs), es); var t := Exec(s, fs);
      id in t.runs &&
      (InFlight(t.runs[id]) ==> Enabled(t, Late(id, a, RpcOf(s.runs[id].phase), fail)))
  {
    var s := Exec(Init(stubs), es);
    var q := s.runs[id];
    assert q.todo <= q.live by {
      InvAlways(stubs, es, q.key);
      assert RunOk(ViewOf(s, q.key), q.key, ViewOf(s, q.key).runs[id]);
    }
    LateUntilTheEnd(s, fs, id, a, RpcOf(q.phase), fail);
  }

  // ---- Crashes and recoveries --------------------------------------------------------------

  /** A restart takes everything from its replica, the stored coordinator included, and changes
      nothing else. */
  lemma RestartMeans(s: System, a: Addr)
    requires Wf(s) && a in s.stubs
    ensures var t := Apply(s, Restart(a));
      t.replicas[a] == Replica(map[], map[], "") && t.runs == s.runs && t.decided == s.decided &&
      t.replicas.Keys == s.replicas.Keys && forall b :: b in s.replicas && b != a ==> t.replicas[b] == s.replicas[b]
  {}

  /** A recovery overrides the replica's entries by those of the source, key by key and round by
      round; its stored coordinator stays, and nothing else changes. */
  lemma RecoverMeans(s: System, a: Addr, source: Addr, key: Key, round: nat)
    requires Wf(s) && a in s.stubs && source in s.stubs
    ensures var t := Apply(s, Recover(a, source));
      var before, from, after := s.replicas[a], s.replicas[source], t.replicas[a];
      Lookup(after, key) == (if key in from.data then Some(from.data[key]) else Lookup(before, key)) &&
      (round in LogOf(after, key) <==> round in LogOf(before, key) || round in LogOf(from, key)) &&
      EntryAt(LogOf(after, key), round) ==
        (if round in LogOf(from, key) then LogOf(from, key)[round] else EntryAt(LogOf(before, key), round)) &&
      after.coordinator == before.coordinator && t.runs == s.runs && t.decided == s.decided &&
      t.replicas.Keys == s.replicas.Keys && forall b :: b in s.replicas && b != a ==> t.replicas[b] == s.replicas[b]
  {
    assert Apply(s, Recover(a, source)).replicas[a] == Install(s.replicas[a], HandleRecover(s.replicas[source]));
    Overlay(s.replicas[a], HandleRecover(s.replicas[source]), key, round);
  }
}
