/** The service of one replica: its RPC handlers, the four loops of RunPaxos, the
    coordinator lookup and recovery, over a network of such services. Every handler
    is proved to be its Handlers function, and RunPaxos to be a behaviour of one run of
    the step machine. */
module Service {
  import opened Types
  import opened Handlers
  import opened KvDatabase
  import opened StubsMap
  import opened System
  import opened Tracing
  import opened Loops
  import opened Exact
  import opened Recovery
  import opened Discovery

  /** The service that each address leads to. */
  type Network = map<Addr, MultiPaxosServiceImpl>

  /** Every service knows all addresses, and no two share their state. */
  ghost predicate Connected(net: Network) {
    (forall a :: a in net ==>
      Ascending(net[a].stubsMap.stubs) && Elements(net[a].stubsMap.stubs) == net.Keys && net[a].myPaxosAddress == a) &&
    (forall a, b :: a in net && b in net && a != b ==>
      net[a].kvDb != net[b].kvDb && net[a].stubsMap != net[b].stubsMap)
  }

  ghost function Databases(net: Network): set<object> { set a | a in net :: net[a].kvDb }
  ghost function StubMaps(net: Network): set<object> { set a | a in net :: net[a].stubsMap }

  ghost function Replicas(net: Network): map<Addr, Replica>
    reads Databases(net), StubMaps(net)
  {
    map a | a in net :: net[a].State()
  }

  /** The replicas after no state but that of address a has changed. */
  lemma OneChanged(net: Network, before: map<Addr, Replica>, a: Addr)
    requires a in net && before.Keys == net.Keys
    requires forall b :: b in net && b != a ==> net[b].State() == before[b]
    ensures Replicas(net) == before[a := net[a].State()]
  {}

  lemma CoordinatorsOnNetwork(net: Network)
    ensures forall a :: a in net ==> Replicas(net)[a].coordinator == net[a].stubsMap.coordinator
  {}

  /** What FindCoordinator answers is the lookup on the replicas' states. */
  lemma LookupsOnNetwork(net: Network, reach: Addr -> bool)
    ensures forall c :: LooksUp(Replicas(net), reach, c) <==>
                        c in net && reach(c) && c != "" && net[c].stubsMap.coordinator == c &&
                        forall a :: a in net && reach(a) ==> net[a].stubsMap.coordinator in {"", c}
  {
    CoordinatorsOnNetwork(net);
  }

  lemma TestsOnNetwork(net: Network, reach: Addr -> bool, live: set<Addr>, coordinators: set<Addr>)
    requires live == set a | a in net && reach(a) && net[a].stubsMap.coordinator != ""
    requires coordinators == set a | a in live :: net[a].stubsMap.coordinator
    ensures |coordinators| == 1 && coordinators <= live <==>
            exists c :: c in net && reach(c) && c != "" && net[c].stubsMap.coordinator == c &&
                        forall a :: a in net && reach(a) ==> net[a].stubsMap.coordinator in {"", c}
    ensures |coordinators| == 1 ==>
              forall c :: c in coordinators ==>
                coordinators == {c} &&
                (c in live ==>
                  reach(c) && c != "" && net[c].stubsMap.coordinator == c &&
                  forall a :: a in net && reach(a) ==> net[a].stubsMap.coordinator in {"", c})
  {
    CoordinatorsOnNetwork(net);
    LookupTests(Replicas(net), reach, live, coordinators);
    LookupsOnNetwork(net, reach);
  }

  class MultiPaxosServiceImpl {
    const stubsMap: PaxosStubsMap
    const kvDb: KeyValueDataBase
    const myPaxosAddress: Addr

    constructor (stubsMap: PaxosStubsMap, kvDb: KeyValueDataBase, address: Addr)
      ensures this.stubsMap == stubsMap && this.kvDb == kvDb && myPaxosAddress == address
    {
      this.stubsMap, this.kvDb, myPaxosAddress := stubsMap, kvDb, address;
    }

    ghost function State(): Replica
      reads kvDb, stubsMap
    {
      Replica(kvDb.dataMap, kvDb.paxosLogsMap, stubsMap.coordinator)
    }

    // ---- Handlers ------------------------------------------------------------

    method Prepare(key: Key, round: nat, proposeId: int, fail: bool) returns (reply: Reply<PromiseResponse>)
      modifies kvDb
      ensures (State(), reply) == HandlePrepare(old(State()), key, round, proposeId, fail)
    {
      kvDb.AddPaxosLog(key, round);
      var paxosLog := kvDb.GetPaxosLog(key, round);
      PrepareTwice(old(State()), key, round);
      if paxosLog.promisedId >= proposeId {
        return Aborted;
      } else if key != COORDINATOR_KEY && fail {
        return Aborted;
      } else if paxosLog.acceptedId > 0 {
        return Ok(PromiseResponse(round, proposeId, paxosLog.acceptedId, paxosLog.accepted));
      }
      return Ok(PromiseResponse(round, proposeId, 0, NO_OP));
    }

    method Propose(key: Key, round: nat, proposeId: int, op: Op, fail: bool) returns (reply: Reply<AcceptResponse>)
      modifies kvDb
      ensures (State(), reply) == HandlePropose(old(State()), key, round, proposeId, op, fail)
    {
      var paxosLog := kvDb.GetPaxosLog(key, round);
      if paxosLog.promisedId > proposeId {
        return Aborted;
      } else if key != COORDINATOR_KEY && fail {
        return Aborted;
      }
      kvDb.AddAcceptance(key, round, proposeId, op);
      AcceptAfterRead(old(State()), key, round, proposeId, op);
      return Ok(AcceptResponse(round, proposeId, op));
    }

    /** False when the operation is refused because the log has a later round. */
    method Inform(key: Key, acceptance: AcceptResponse) returns (executed: bool)
      modifies kvDb, stubsMap
      ensures (State(), executed) == HandleInform(old(State()), Elements(stubsMap.stubs), key, acceptance)
    {
      kvDb.AddAcceptance(key, acceptance.round, acceptance.proposeId, acceptance.op);
      var latest := kvDb.GetLatestRound(key);
      InformReads(old(State()), key, acceptance);
      if acceptance.round < latest { return false; }
      match acceptance.op.kind {
        case Set => var _ := kvDb.SetValue(key, acceptance.op.value);
        case Delete => var _ := kvDb.DeleteEntry(key);
        case SetCoordinator => var _ := stubsMap.SetCoordinator(acceptance.op.value);
        case NotSet =>
      }
      return true;
    }

    /** The response copies the data map and, key by key, the round logs. */
    method Recover() returns (snap: Snapshot)
      ensures snap == HandleRecover(State())
    {
      var kvMap := kvDb.GetDataMap();
      var logsMap := kvDb.GetPaxosLogsMap();
      var paxosLogs: map<Key, Log> := map[];
      var left := logsMap.Keys;
      while left != {}
        invariant left <= logsMap.Keys && paxosLogs.Keys == logsMap.Keys - left
        invariant forall k :: k in paxosLogs ==> paxosLogs[k] == logsMap[k]
        decreases |left|
      {
        var key :| key in left;
        paxosLogs, left := paxosLogs[key := logsMap[key]], left - {key};
      }
      assert paxosLogs == logsMap;
      return Snapshot(kvMap, paxosLogs);
    }

    method GetValue(key: Key) returns (result: GetResult)
      ensures result == if key == "coordinator" then Illegal
                        else if key in kvDb.dataMap then Found(kvDb.dataMap[key]) else NotFound
      ensures result == HandleGet(State(), key)
    {
      if key == COORDINATOR_KEY { return Illegal; }
      var found, value := kvDb.GetValue(key);
      return if found then Found(value) else NotFound;
    }

    /** The coordinator this replica knows of, if any. */
    method GetCoordinator() returns (address: Option<Addr>)
      ensures address == if State().coordinator == "" then None else Some(State().coordinator)
    {
      var coordinator := stubsMap.GetCoordinator();
      return if coordinator == "" then None else Some(coordinator);
    }

    // ---- RPCs over the network -------------------------------------------------

    method CallPrepare(net: Network, a: Addr, key: Key, round: nat, o: Outcome)
      returns (answer: Option<PromiseResponse>)
      requires Connected(net) && a in net
      modifies Databases(net)
      ensures var handled := HandlePrepare(old(net[a].State()), key, round, PROPOSE_ID, o.Handled? && o.fail);
        (answer.Some? <==> o.Handled? && o.answered && handled.1.Ok?) &&
        (answer.Some? ==> answer.value == handled.1.resp) &&
        Replicas(net) == if o.Handled? then old(Replicas(net))[a := handled.0] else old(Replicas(net))
      ensures answer == PrepareAnswer(old(net[a].State()), key, round, o)
      ensures Replicas(net) == AfterPrepare(old(Replicas(net)), a, key, round, o)
    {
      if o.NotHandled? { return None; }
      var reply := net[a].Prepare(key, round, PROPOSE_ID, o.fail);
      OneChanged(net, old(Replicas(net)), a);
      if !o.answered || reply.Aborted? { return None; }
      return Some(reply.resp);
    }

    method CallPropose(net: Network, a: Addr, key: Key, round: nat, op: Op, o: Outcome)
      returns (answer: Option<AcceptResponse>)
      requires Connected(net) && a in net
      modifies Databases(net)
      ensures var handled := HandlePropose(old(net[a].State()), key, round, PROPOSE_ID, op, o.Handled? && o.fail);
        (answer.Some? <==> o.Handled? && o.answered && handled.1.Ok?) &&
        (answer.Some? ==> answer.value == handled.1.resp) &&
        Replicas(net) == if o.Handled? then old(Replicas(net))[a := handled.0] else old(Replicas(net))
      ensures answer == ProposeAnswer(old(net[a].State()), key, round, op, o)
      ensures Replicas(net) == AfterPropose(old(Replicas(net)), a, key, round, op, o)
    {
      if o.NotHandled? { return None; }
      var reply := net[a].Propose(key, round, PROPOSE_ID, op, o.fail);
      OneChanged(net, old(Replicas(net)), a);
      if !o.answered || reply.Aborted? { return None; }
      return Some(reply.resp);
    }

    method CallInform(net: Network, a: Addr, key: Key, acceptance: AcceptResponse, o: Outcome)
      requires Connected(net) && a in net
      modifies Databases(net), StubMaps(net)
      ensures var r := HandleInform(old(net[a].State()), net.Keys, key, acceptance).0;
        Replicas(net) == if o.Handled? then old(Replicas(net))[a := r] else old(Replicas(net))
    {
      if o.NotHandled? { return; }
      ghost var before := Replicas(net);
      var _ := net[a].Inform(key, acceptance);
      assert forall b :: b in net && b != a ==> net[b].State() == before[b];
      OneChanged(net, before, a);
    }

    // ---- RunPaxos ----------------------------------------------------------------

    /** The addresses that answer a ping. */
    method PingAll(ping: Addr -> bool) returns (live: seq<Addr>)
      ensures live == LiveOf(stubsMap.stubs, ping)
    {
      var stubs := stubsMap.GetPaxosStubs();
      live := [];
      for i := 0 to |stubs|
        invariant live == LiveOf(stubs[..i], ping)
      {
        NextPrefix(stubs, i);
        if ping(stubs[i]) { live := live + [stubs[i]]; }
      }
      assert stubs[..|stubs|] == stubs;
    }

    /** Prepare at every live address in turn; the ghost q0 and q are the run before and
        after. */
    method PrepareAll(net: Network, live: seq<Addr>, key: Key, round: nat, prepare: Addr -> Outcome, ghost q0: Run)
      returns (promised: nat, acceptedId: int, accepted: Op, ghost q: Run)
      requires Connected(net) && Elements(live) <= net.Keys && Ascending(live)
      requires q0.phase == Preparing && q0.key == key && q0.round == round && q0.promises == []
      modifies Databases(net)
      ensures (Replicas(net), q) == Poll(old(Replicas(net)), net.Keys, q0, live, prepare)
      ensures promised == |q.promises| && (acceptedId, accepted) == Adopt(q.promises)
      ensures NoPromise(old(Replicas(net)), key, round) ==>
                promised == |set a | a in live && prepare(a).Handled? && prepare(a).answered &&
                                     (key == "coordinator" || !prepare(a).fail)|
    {
      promised, acceptedId, accepted, q := 0, 0, NO_OP, q0;
      for i := 0 to |live|
        invariant Elements(live[..i]) <= net.Keys
        invariant (Replicas(net), q) == Poll(old(Replicas(net)), net.Keys, q0, live[..i], prepare)
        invariant promised == |q.promises| && (acceptedId, accepted) == Adopt(q.promises)
      {
        ghost var heard, next := NextPrepare(old(Replicas(net)), net.Keys, q0, live, i, prepare, Replicas(net), q);
        var answer := CallPrepare(net, live[i], key, round, prepare(live[i]));
        q := next;
        if answer.Some? {
          promised := promised + 1;
          if answer.value.acceptedId > acceptedId {
            acceptedId, accepted := answer.value.acceptedId, answer.value.op;
          }
        }
      }
      assert live[..|live|] == live;
      if NoPromise(old(Replicas(net)), key, round) {
        PromiseCount(old(Replicas(net)), net.Keys, q0, live, prepare);
      }
    }

    /** Propose at every live address in turn. */
    method ProposeAll(net: Network, live: seq<Addr>, key: Key, round: nat, op: Op, propose: Addr -> Outcome,
                      ghost q0: Run)
      returns (accepted: nat, acceptance: AcceptResponse, ghost q: Run)
      requires Connected(net) && Elements(live) <= net.Keys && Ascending(live)
      requires q0.phase == Proposing && q0.key == key && q0.round == round && q0.proposal == op && q0.accepts == {}
      modifies Databases(net)
      ensures (Replicas(net), q) == Poll(old(Replicas(net)), net.Keys, q0, live, propose)
      ensures accepted == |q.accepts| && (accepted > 0 ==> acceptance == AcceptanceOf(q))
      ensures NoPromise(old(Replicas(net)), key, round) ==>
                accepted == |set a | a in live && propose(a).Handled? && propose(a).answered &&
                                     (key == "coordinator" || !propose(a).fail)|
    {
      accepted, acceptance, q := 0, AcceptResponse(0, 0, NO_OP), q0;
      for i := 0 to |live|
        invariant Elements(live[..i]) <= net.Keys && q.accepts <= Elements(live[..i])
        invariant (Replicas(net), q) == Poll(old(Replicas(net)), net.Keys, q0, live[..i], propose)
        invariant accepted == |q.accepts| && (accepted > 0 ==> acceptance == AcceptanceOf(q))
      {
        ghost var heard, next := NextPropose(old(Replicas(net)), net.Keys, q0, live, i, propose, Replicas(net), q);
        var answer := CallPropose(net, live[i], key, round, op, propose(live[i]));
        q := next;
        if answer.Some? {
          accepted, acceptance := accepted + 1, answer.value;
        }
      }
      assert live[..|live|] == live;
      if NoPromise(old(Replicas(net)), key, round) {
        LoopAccepts(old(Replicas(net)), net.Keys, q0, live, propose);
      }
    }

    /** Inform every live address in turn; what they answer is ignored. */
    method InformAll(net: Network, live: seq<Addr>, key: Key, acceptance: AcceptResponse, inform: Addr -> Outcome,
                     ghost q0: Run)
      returns (ghost q: Run)
      requires Connected(net) && Elements(live) <= net.Keys
      requires q0.phase == Informing && q0.key == key && AcceptanceOf(q0) == acceptance
      modifies Databases(net), StubMaps(net)
      ensures (Replicas(net), q) == Poll(old(Replicas(net)), net.Keys, q0, live, inform)
      ensures q.phase == Informing
    {
      q := q0;
      for i := 0 to |live|
        invariant Elements(live[..i]) <= net.Keys
        invariant (Replicas(net), q) == Poll(old(Replicas(net)), net.Keys, q0, live[..i], inform)
        invariant q.phase == Informing
      {
        NextPoll(old(Replicas(net)), net.Keys, q0, live, i, inform);
        ghost var next := CallOn(Replicas(net), net.Keys, q, live[i], inform(live[i]));
        CallInform(net, live[i], key, acceptance, inform(live[i]));
        q := next.1;
      }
      assert live[..|live|] == live;
    }

    /** The round of a new run, and the addresses it will poll. */
    method Begin(net: Network, key: Key, ping: Addr -> bool) returns (round: nat, live: seq<Addr>)
      requires Connected(net) && myPaxosAddress in net && net[myPaxosAddress] == this
      modifies kvDb
      ensures Replicas(net) == AfterRead(old(Replicas(net)), myPaxosAddress, key)
      ensures round == LatestRound(LogOf(old(Replicas(net))[myPaxosAddress], key)) + 1
      ensures live == LiveOf(stubsMap.stubs, ping)
    {
      var latest := kvDb.GetLatestRound(key);
      round := latest + 1;
      live := PingAll(ping);
      assert State() == TouchLog(old(State()), key);
      OneChanged(net, old(Replicas(net)), myPaxosAddress);
    }

    /** Propose op, and inform if a majority accepts. */
    method Decide(net: Network, live: seq<Addr>, key: Key, round: nat, op: Op, o: Oracle, ghost q0: Run)
      returns (ok: bool, ghost q: Run, ghost loops: nat)
      requires Connected(net) && Elements(live) <= net.Keys && Ascending(live) && q0.live == Elements(live)
      requires q0.phase == Proposing && q0.key == key && q0.round == round && q0.proposal == op && q0.accepts == {}
      modifies Databases(net), StubMaps(net)
      ensures RunResult(q, Replicas(net), loops) == DecideOverLive(old(Replicas(net)), net.Keys, q0, live, o)
      ensures q.phase == Done(ok)
    {
      AscendingIsDistinct(live);
      var accepted, acceptance, q1 := ProposeAll(net, live, key, round, op, o.propose, q0);
      DecideAfter(old(Replicas(net)), net.Keys, q0, live, o, Replicas(net), q1);
      q := AfterPhase(q1);
      if accepted <= |live| / 2 { return false, q, 2; }
      q := InformAll(net, live, key, acceptance, o.inform, q);
      InformPhase(q);
      return true, AfterPhase(q), 3;
    }

    /** Gather promises, and go on with what they report if a majority promises. */
    method Negotiate(net: Network, live: seq<Addr>, req: Request, round: nat, o: Oracle, ghost q0: Run)
      returns (ok: bool, ghost q: Run, ghost loops: nat)
      requires Connected(net) && Elements(live) <= net.Keys && Ascending(live) && q0.live == Elements(live)
      requires q0.phase == Preparing && q0.key == req.key && q0.round == round && q0.op == ProposeValue(req)
      requires q0.promises == [] && q0.accepts == {}
      modifies Databases(net), StubMaps(net)
      ensures RunResult(q, Replicas(net), loops) == RunOverLive(old(Replicas(net)), net.Keys, q0, live, o)
      ensures q.phase == Done(ok)
    {
      AscendingIsDistinct(live);
      var promised, acceptedId, op, q1 := PrepareAll(net, live, req.key, round, o.prepare, q0);
      PromisePhase(q1);
      if promised <= |live| / 2 { return false, AfterPhase(q1), 1; }
      if acceptedId <= 0 { op := ProposeValue(req); }
      ok, q, loops := Decide(net, live, req.key, round, op, o, AfterPhase(q1));
    }

    /** Try to get the requested operation decided; true for OK, false for ABORTED. */
    method RunPaxos(net: Network, req: Request, o: Oracle) returns (ok: bool, ghost q: Run, ghost loops: nat)
      requires Connected(net) && myPaxosAddress in net && net[myPaxosAddress] == this
      modifies Databases(net), StubMaps(net)
      ensures RunResult(q, Replicas(net), loops) ==
              RunPaxosOn(old(Replicas(net)), myPaxosAddress, req, stubsMap.stubs, o)
      ensures q.phase == Done(ok)
      ensures var live := set a | a in stubsMap.stubs && o.ping(a);
        var promised := set a | a in live && o.prepare(a).Handled? && o.prepare(a).answered &&
                                (req.key == "coordinator" || !o.prepare(a).fail);
        var accepted := set a | a in live && o.propose(a).Handled? && o.propose(a).answered &&
                                (req.key == "coordinator" || !o.propose(a).fail);
        Fresh(old(Replicas(net)), myPaxosAddress, req.key) ==>
          (ok <==> 2 * |promised| > |live| && 2 * |accepted| > |live|)
    {
      var round, live := Begin(net, req.key, o.ping);
      assert Ascending(live) && Elements(live) <= net.Keys by { LiveAscends(stubsMap.stubs, o.ping); }
      assert net.Keys == Elements(stubsMap.stubs);
      q := RunsOverLive(old(Replicas(net)), Replicas(net), myPaxosAddress, req, stubsMap.stubs, net.Keys, o, live);
      if live == [] {
        ReturnsIff(old(Replicas(net)), myPaxosAddress, req, stubsMap.stubs, o, false);
        return false, q, 0;
      }
      ok, q, loops := Negotiate(net, live, req, round, o, q);
      ReturnsIff(old(Replicas(net)), myPaxosAddress, req, stubsMap.stubs, o, ok);
    }

    // ---- Requests ----------------------------------------------------------------

    /** Writes to the reserved key are rejected. */
    method PutPair(net: Network, key: Key, value: Value, o: Oracle) returns (ok: bool, ghost q: Run)
      requires Connected(net) && myPaxosAddress in net && net[myPaxosAddress] == this
      modifies Databases(net), StubMaps(net)
      ensures key == "coordinator" ==> !ok && Replicas(net) == old(Replicas(net))
      ensures key != "coordinator" ==>
                q.phase == Done(ok) &&
                var r := RunPaxosOn(old(Replicas(net)), myPaxosAddress, Put(key, value), stubsMap.stubs, o);
                Replicas(net) == r.replicas && q == r.run
    {
      if key == COORDINATOR_KEY {
        q := NewRun(myPaxosAddress, Put(key, value), map[]);
        return false, q;
      }
      ghost var loops;
      ok, q, loops := RunPaxos(net, Put(key, value), o);
    }

    method DeletePair(net: Network, key: Key, o: Oracle) returns (ok: bool, ghost q: Run)
      requires Connected(net) && myPaxosAddress in net && net[myPaxosAddress] == this
      modifies Databases(net), StubMaps(net)
      ensures key == "coordinator" ==> !ok && Replicas(net) == old(Replicas(net))
      ensures key != "coordinator" ==>
                q.phase == Done(ok) &&
                var r := RunPaxosOn(old(Replicas(net)), myPaxosAddress, Del(key), stubsMap.stubs, o);
                Replicas(net) == r.replicas && q == r.run
    {
      if key == COORDINATOR_KEY {
        q := NewRun(myPaxosAddress, Del(key), map[]);
        return false, q;
      }
      ghost var loops;
      ok, q, loops := RunPaxos(net, Del(key), o);
    }

    /** The key is the request's; both callers of elections use the reserved one. */
    method ElectCoordinator(net: Network, key: Key, coordinator: Addr, o: Oracle) returns (ok: bool, ghost q: Run)
      requires Connected(net) && myPaxosAddress in net && net[myPaxosAddress] == this
      modifies Databases(net), StubMaps(net)
      ensures q.phase == Done(ok)
      ensures var r := RunPaxosOn(old(Replicas(net)), myPaxosAddress, Elect(key, coordinator), stubsMap.stubs, o);
        Replicas(net) == r.replicas && q == r.run
    {
      ghost var loops;
      ok, q, loops := RunPaxos(net, Elect(key, coordinator), o);
    }

    // ---- Joining -----------------------------------------------------------------

    /** Ask every stub for its coordinator: who names one, and the addresses named. */
    method AskAll(net: Network, reach: Addr -> bool) returns (live: set<Addr>, coordinators: set<Addr>)
      requires Connected(net) && Elements(stubsMap.stubs) == net.Keys
      ensures live == set a | a in net && reach(a) && net[a].stubsMap.coordinator != ""
      ensures coordinators == set a | a in live :: net[a].stubsMap.coordinator
    {
      ghost var stored := map a | a in net :: net[a].stubsMap.coordinator;
      var stubs := stubsMap.GetPaxosStubs();
      live, coordinators := {}, {};
      for i := 0 to |stubs|
        invariant live == Answering(stored, reach) * Elements(stubs[..i])
        invariant coordinators == set a | a in live :: stored[a]
      {
        NextElements(stubs, i);
        OneMoreAnswer(stored, reach, Elements(stubs[..i]), live, coordinators, stubs[i]);
        assert stubs[i] in net;
        if reach(stubs[i]) {
          var answer := net[stubs[i]].GetCoordinator();
          if answer.Some? {
            live := live + {stubs[i]};
            if answer.value != "" { coordinators := coordinators + {answer.value}; }
          }
        }
      }
      assert stubs[..|stubs|] == stubs;
    }

    /** Find the coordinator by asking. Succeeds exactly when a reached replica stores itself
        and all that are reached and store a coordinator store that one. */
    method FindCoordinator(net: Network, reach: Addr -> bool) returns (ok: bool)
      requires Connected(net) && Elements(stubsMap.stubs) == net.Keys
      modifies stubsMap
      ensures ok <==> exists c :: c in net && reach(c) && c != "" && old(net[c].stubsMap.coordinator) == c &&
                                  forall a :: a in net && reach(a) ==> old(net[a].stubsMap.coordinator) in {"", c}
      ensures ok ==> var c := stubsMap.coordinator;
                c in net && reach(c) && c != "" && old(net[c].stubsMap.coordinator) == c &&
                forall a :: a in net && reach(a) ==> old(net[a].stubsMap.coordinator) in {"", c}
      ensures !ok ==> stubsMap.coordinator == old(stubsMap.coordinator)
    {
      var live, coordinators := AskAll(net, reach);
      TestsOnNetwork(net, reach, live, coordinators);
      if |coordinators| != 1 { return false; }
      var coordinator :| coordinator in coordinators;
      if coordinator !in live { return false; }
      assert coordinator in stubsMap.stubs;
      var _ := stubsMap.SetCoordinator(coordinator);
      return true;
    }

    /** Write a recovered log, round by round in any order. */
    method InstallLog(key: Key, log: Log)
      modifies kvDb
      ensures kvDb.dataMap == old(kvDb.dataMap)
      ensures kvDb.paxosLogsMap == InstallRounds(old(kvDb.paxosLogsMap), key, log)
    {
      var left := log.Keys;
      while left != {}
        invariant left <= log.Keys && kvDb.dataMap == old(kvDb.dataMap)
        invariant kvDb.paxosLogsMap == InstallRounds(old(kvDb.paxosLogsMap), key, log - left)
        decreases |left|
      {
        var round :| round in left;
        kvDb.AddRecovered(key, round, log[round]);
        OneMoreRound(old(kvDb.paxosLogsMap), key, log, left, round);
        left := left - {round};
      }
      assert log - {} == log;
    }

    /** Write the recovered data, in any order of the keys. */
    method InstallData(kvMap: map<Key, Value>)
      modifies kvDb
      ensures kvDb.dataMap == old(kvDb.dataMap) + kvMap
      ensures kvDb.paxosLogsMap == old(kvDb.paxosLogsMap)
    {
      var keys := kvMap.Keys;
      while keys != {}
        invariant keys <= kvMap.Keys && kvDb.paxosLogsMap == old(kvDb.paxosLogsMap)
        invariant kvDb.dataMap == old(kvDb.dataMap) + (kvMap - keys)
        decreases |keys|
      {
        var key :| key in keys;
        var _ := kvDb.SetValue(key, kvMap[key]);
        OneMoreKey(old(kvDb.dataMap), kvMap, keys, key);
        keys := keys - {key};
      }
      assert kvMap - {} == kvMap;
    }

    /** Write the recovered logs, in any order of the keys. */
    method InstallAllLogs(paxosLogs: map<Key, Log>)
      modifies kvDb
      ensures kvDb.dataMap == old(kvDb.dataMap)
      ensures kvDb.paxosLogsMap == InstallLogs(old(kvDb.paxosLogsMap), paxosLogs)
    {
      var keys := paxosLogs.Keys;
      NoLogsYet(kvDb.paxosLogsMap, paxosLogs);
      while keys != {}
        invariant keys <= paxosLogs.Keys && kvDb.dataMap == old(kvDb.dataMap)
        invariant kvDb.paxosLogsMap == InstallLogs(old(kvDb.paxosLogsMap), paxosLogs - keys)
        decreases |keys|
      {
        var key :| key in keys;
        InstallLog(key, paxosLogs[key]);
        OneMoreLog(old(kvDb.paxosLogsMap), paxosLogs, keys, key);
        keys := keys - {key};
      }
      assert paxosLogs - {} == paxosLogs;
    }

    /** Install a snapshot of the coordinator; `reached` tells whether its Recover answers. */
    method GetRecovery(net: Network, reached: bool) returns (ok: bool)
      requires Connected(net) && Elements(stubsMap.stubs) == net.Keys && stubsMap.coordinator in stubsMap.stubs
      modifies kvDb
      ensures ok == reached
      ensures State() == if ok then Install(old(State()), HandleRecover(old(net[stubsMap.coordinator].State())))
                         else old(State())
    {
      var stub := stubsMap.GetCoordinatorStub();
      if !reached { return false; }
      var snap := net[stub.value].Recover();
      InstallData(snap.kvMap);
      InstallAllLogs(snap.paxosLogs);
      return true;
    }
  }

  // ---- Deployment ----------------------------------------------------------------

  /** Each service is at its address, knows all of them, and shares nothing. */
  predicate Separate(net: Network, addresses: seq<Addr>) {
    (forall a :: a in net ==> net[a].myPaxosAddress == a && net[a].stubsMap.stubs == addresses) &&
    forall a, b :: a in net && b in net && a != b ==>
      net[a].kvDb != net[b].kvDb && net[a].stubsMap != net[b].stubsMap
  }

  ghost predicate AllEmpty(net: Network)
    reads Databases(net), StubMaps(net)
  {
    forall a :: a in net ==> net[a].State() == EMPTY_REPLICA
  }

  /** Start a service with an empty database. */
  method Launch(address: Addr, addresses: seq<Addr>) returns (service: MultiPaxosServiceImpl)
    requires Ascending(addresses)
    ensures fresh(service) && fresh(service.kvDb) && fresh(service.stubsMap)
    ensures service.myPaxosAddress == address && service.stubsMap.stubs == addresses
    ensures service.State() == EMPTY_REPLICA
  {
    var stubsMap := new PaxosStubsMap(addresses);
    var kvDb := new KeyValueDataBase();
    service := new MultiPaxosServiceImpl(stubsMap, kvDb, address);
  }

  lemma SeparateConnected(net: Network, addresses: seq<Addr>)
    requires Ascending(addresses) && Separate(net, addresses) && net.Keys == Elements(addresses)
    ensures Connected(net)
  {}

  lemma EmptyReplicas(net: Network)
    requires AllEmpty(net)
    ensures Replicas(net) == Init(net.Keys).replicas
  {}

  /** Start a service at every address. */
  method Deploy(addresses: seq<Addr>) returns (net: Network)
    requires Ascending(addresses)
    ensures Connected(net) && Replicas(net) == Init(Elements(addresses)).replicas
  {
    net := map[];
    for i := 0 to |addresses|
      invariant net.Keys == Elements(addresses[..i]) && Separate(net, addresses)
      invariant AllEmpty(net)
    {
      NextElements(addresses, i);
      var service := Launch(addresses[i], addresses);
      net := net[addresses[i] := service];
    }
    assert addresses[..|addresses|] == addresses;
    SeparateConnected(net, addresses);
    EmptyReplicas(net);
  }

  // ---- What the handlers' reads leave behind ----------------------------------

  lemma PrepareTwice(r: Replica, key: Key, round: nat)
    ensures var log := AddSlot(LogOf(r, key), round);
      EntryAt(log, round) == EntryAt(LogOf(r, key), round) &&
      r.logs[key := log][key := AddSlot(LogIn(r.logs[key := log], key), round)] == r.logs[key := log]
  {
    var log := AddSlot(LogOf(r, key), round);
    assert AddSlot(log, round) == log;
  }

  lemma AcceptAfterRead(r: Replica, key: Key, round: nat, acceptedId: int, op: Op)
    ensures var log := AddSlot(LogOf(r, key), round);
      r.logs[key := log][key := SetAccepted(LogIn(r.logs[key := log], key), round, acceptedId, op)] ==
      r.logs[key := SetAccepted(LogOf(r, key), round, acceptedId, op)]
  {
    var log := AddSlot(LogOf(r, key), round);
    assert SetAccepted(log, round, acceptedId, op) == SetAccepted(LogOf(r, key), round, acceptedId, op);
  }

  lemma InformReads(r: Replica, key: Key, acceptance: AcceptResponse)
    ensures var log := SetAccepted(LogOf(r, key), acceptance.round, acceptance.proposeId, acceptance.op);
      r.logs[key := log][key := LogIn(r.logs[key := log], key)] == r.logs[key := log] &&
      LatestRound(log) == Max(LatestRound(LogOf(r, key)), acceptance.round)
  {}

  lemma NextElements(live: seq<Addr>, i: nat)
    requires i < |live|
    ensures Elements(live[..i + 1]) == Elements(live[..i]) + {live[i]}
  {
    assert live[..i + 1] == live[..i] + [live[i]];
  }

  lemma NextPrefix(live: seq<Addr>, i: nat)
    requires i < |live|
    ensures live[i] in Elements(live) && |live[..i + 1]| == i + 1
    ensures live[..i + 1][i] == live[i] && live[..i + 1][..i] == live[..i]
  {}
}
