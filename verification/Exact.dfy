/** What one call of RunPaxos comes to, exactly, from every reachable state and for everything
    that the network and the random failures may do to its calls: whether it returns OK, what
    it proposes, and what it leaves at every replica. */
module Exact {
  import opened Types
  import opened Handlers
  import opened StubsMap
  import opened System
  import opened KeyView
  import opened Safety
  import opened Stability
  import opened Commute
  import opened Tracing
  import opened Loops

  // ---- RunPaxos -----------------------------------------------------------------------

  lemma ReachableInv(stubs: set<Addr>, es: seq<Event>)
    requires Valid(Init(stubs), es)
    ensures AllInv(Exec(Init(stubs), es))
  {
    forall key ensures Inv(ViewOf(Exec(Init(stubs), es), key), key) { InvAlways(stubs, es, key); }
  }

  lemma NothingPromised(s: System, key: Key, round: nat)
    requires AllInv(s)
    ensures NoPromise(s.replicas, key, round)
  {
    var v := ViewOf(s, key);
    assert Inv(v, key);
    forall a | a in s.replicas ensures EntryAt(LogOf(s.replicas[a], key), round).promisedId == 0 {
      assert LogOk(v, v.logs[a]);
    }
  }

  lemma ReadKeepsLogs(m: map<Addr, Replica>, me: Addr, key: Key)
    requires me in m
    ensures forall a :: a in m ==> LogOf(AfterRead(m, me, key)[a], key) == LogOf(m[a], key)
  {}

  /** Nobody has recorded a promise at the round that a run of this proposer will choose. */
  predicate Fresh(m: map<Addr, Replica>, me: Addr, key: Key) {
    me in m && NoPromise(m, key, LatestRound(LogOf(m[me], key)) + 1)
  }

  lemma ReachableFresh(s: System, me: Addr, key: Key)
    requires AllInv(s) && me in s.stubs
    ensures Fresh(s.replicas, me, key)
  {
    NothingPromised(s, key, LatestRound(LogOf(s.replicas[me], key)) + 1);
  }

  /** The run at the start of its Prepare loop, if anyone answers its ping. */
  lemma Begins(m: map<Addr, Replica>, me: Addr, req: Request, stubs: seq<Addr>, o: Oracle)
    returns (live: seq<Addr>, m0: map<Addr, Replica>, q: Run)
    requires Fresh(m, me, req.key) && Ascending(stubs) && Elements(stubs) == m.Keys
    ensures live == LiveOf(stubs, o.ping) && Ascending(live) && Elements(live) <= m.Keys
    ensures m0 == AfterRead(m, me, req.key) && NoPromise(m0, q.key, q.round)
    ensures q.key == req.key && q.round == LatestRound(LogOf(m[me], req.key)) + 1 && q.op == ProposeValue(req)
    ensures q.promises == [] && q.accepts == {} && q.informed == {} && q.live == Elements(live) == q.todo
    ensures q == AfterPing(NewRun(me, req, LogOf(m[me], req.key)), Elements(live))
    ensures q.phase == if live == [] then Done(false) else Preparing
    ensures RunPaxosOn(m, me, req, stubs, o) ==
            if live == [] then RunResult(q, m0, 0) else RunOverLive(m0, m.Keys, q, live, o)
  {
    live, m0 := LiveOf(stubs, o.ping), AfterRead(m, me, req.key);
    LiveAscends(stubs, o.ping);
    q := RunsOverLive(m, m0, me, req, stubs, m.Keys, o, live);
    ReadKeepsLogs(m, me, req.key);
  }

  lemma RunHears(m: map<Addr, Replica>, me: Addr, req: Request, stubs: seq<Addr>, o: Oracle)
    requires Fresh(m, me, req.key) && Ascending(stubs) && Elements(stubs) == m.Keys
    ensures var r := RunPaxosOn(m, me, req, stubs, o).run;
      var live := LiveOf(stubs, o.ping);
      var promised, accepted := Heard(live, o.prepare, req.key), Heard(live, o.propose, req.key);
      r.live == Elements(live) && Senders(r.promises) == promised && VotesAscend(r.promises) &&
      Reports(r.promises, m, live, r.key, r.round) &&
      (2 * |promised| > |Elements(live)| ==> r.proposal == Chosen(r.promises, r.op) && r.accepts == accepted) &&
      r.phase == Done(2 * |promised| > |Elements(live)| && 2 * |accepted| > |Elements(live)|) &&
      r.key == req.key && r.op == ProposeValue(req) && r.round == LatestRound(LogOf(m[me], req.key)) + 1
  {
    var live, m0, q := Begins(m, me, req, stubs, o);
    if live != [] {
      RunExact(m0, m.Keys, q, live, o);
      ReadKeepsLogs(m, me, req.key);
    }
  }

  lemma HeardIs(stubs: seq<Addr>, ping: Addr -> bool, outcome: Addr -> Outcome, key: Key)
    ensures Elements(LiveOf(stubs, ping)) == set a | a in stubs && ping(a)
    ensures Heard(LiveOf(stubs, ping), outcome, key) ==
            set a | a in (set b | b in stubs && ping(b)) && outcome(a).Handled? && outcome(a).answered &&
                    (key == "coordinator" || !outcome(a).fail)
  {}

  lemma SucceedsIff(m: map<Addr, Replica>, me: Addr, req: Request, stubs: seq<Addr>, o: Oracle)
    requires Fresh(m, me, req.key) && Ascending(stubs) && Elements(stubs) == m.Keys
    ensures var r := RunPaxosOn(m, me, req, stubs, o).run;
      var live := set a | a in stubs && o.ping(a);
      var promised := set a | a in live && o.prepare(a).Handled? && o.prepare(a).answered &&
                              (req.key == "coordinator" || !o.prepare(a).fail);
      var accepted := set a | a in live && o.propose(a).Handled? && o.propose(a).answered &&
                              (req.key == "coordinator" || !o.propose(a).fail);
      r.live == live && Senders(r.promises) == promised &&
      (2 * |promised| > |live| ==> r.accepts == accepted) &&
      r.phase == Done(2 * |promised| > |live| && 2 * |accepted| > |live|)
  {
    RunHears(m, me, req, stubs, o);
    HeardIs(stubs, o.ping, o.prepare, req.key);
    HeardIs(stubs, o.ping, o.propose, req.key);
  }

  lemma ReturnsIff(m: map<Addr, Replica>, me: Addr, req: Request, stubs: seq<Addr>, o: Oracle, ok: bool)
    requires me in m && Ascending(stubs) && Elements(stubs) == m.Keys
    requires RunPaxosOn(m, me, req, stubs, o).run.phase == Done(ok)
    ensures var live := set a | a in stubs && o.ping(a);
      var promised := set a | a in live && o.prepare(a).Handled? && o.prepare(a).answered &&
                              (req.key == "coordinator" || !o.prepare(a).fail);
      var accepted := set a | a in live && o.propose(a).Handled? && o.propose(a).answered &&
                              (req.key == "coordinator" || !o.propose(a).fail);
      Fresh(m, me, req.key) ==> (ok <==> 2 * |promised| > |live| && 2 * |accepted| > |live|)
  {
    if Fresh(m, me, req.key) { SucceedsIff(m, me, req, stubs, o); }
  }

  /** From every reachable state, whatever the network and the random failures do, RunPaxos
      returns OK if and only if more than half of the addresses that answered its ping are
      heard to promise, and more than half of them are heard to accept. A call that is not
      handled, or fails at random on a key other than the reserved one, or whose answer is
      lost, does not count. */
  lemma RunPaxosSucceedsIff(stubs: seq<Addr>, es: seq<Event>, me: Addr, req: Request, o: Oracle)
    requires Ascending(stubs) && Valid(Init(Elements(stubs)), es) && me in stubs
    ensures var r := RunPaxosOn(Exec(Init(Elements(stubs)), es).replicas, me, req, stubs, o).run;
      var live := set a | a in stubs && o.ping(a);
      var promised := set a | a in live && o.prepare(a).Handled? && o.prepare(a).answered &&
                              (req.key == "coordinator" || !o.prepare(a).fail);
      var accepted := set a | a in live && o.propose(a).Handled? && o.propose(a).answered &&
                              (req.key == "coordinator" || !o.propose(a).fail);
      r.live == live && Senders(r.promises) == promised &&
      (2 * |promised| > |live| ==> r.accepts == accepted) &&
      r.phase == Done(2 * |promised| > |live| && 2 * |accepted| > |live|)
  {
    var s0 := Exec(Init(Elements(stubs)), es);
    assert AllInv(s0) by { ReachableInv(Elements(stubs), es); }
    assert Fresh(s0.replicas, me, req.key) by { ReachableFresh(s0, me, req.key); }
    SucceedsIff(s0.replicas, me, req, stubs, o);
  }

  /** What RunPaxos leaves at each replica, from every reachable state: the Prepare of a live
      address that is handled makes the round's slot; past the promise test a Propose that is
      handled and does not fail at random records the proposal, heard or not; on OK an Inform
      that is handled records it, and executes it where no later round exists. */
  lemma RunPaxosLeaves(stubs: seq<Addr>, es: seq<Event>, me: Addr, req: Request, o: Oracle, a: Addr)
    requires Ascending(stubs) && Valid(Init(Elements(stubs)), es) && me in stubs && a in stubs
    ensures var m := Exec(Init(Elements(stubs)), es).replicas;
      var r := RunPaxosOn(m, me, req, stubs, o); var q := r.run;
      var prepared := a in q.live && o.prepare(a).Handled?;
      var asked := 2 * |Senders(q.promises)| > |q.live| && a in q.live && o.propose(a).Handled?;
      var informed := q.phase == Done(true) && a in q.live && o.inform(a).Handled?;
      a in r.replicas &&
      Leaves(m[a], r.replicas[a], Elements(stubs), req.key, LatestRound(LogOf(m[me], req.key)) + 1, q.proposal,
             prepared || asked || informed, asked && (req.key == "coordinator" || !o.propose(a).fail), informed)
  {
    var s0 := Exec(Init(Elements(stubs)), es);
    assert AllInv(s0) by { ReachableInv(Elements(stubs), es); }
    assert Fresh(s0.replicas, me, req.key) by { ReachableFresh(s0, me, req.key); }
    RunHears(s0.replicas, me, req, stubs, o);
    RunLeavesAt(s0.replicas, me, req, stubs, o, a);
  }

  lemma RunLeavesAt(m: map<Addr, Replica>, me: Addr, req: Request, stubs: seq<Addr>, o: Oracle, a: Addr)
    requires Fresh(m, me, req.key) && Ascending(stubs) && Elements(stubs) == m.Keys && a in m
    ensures var r := RunPaxosOn(m, me, req, stubs, o); var q := r.run;
      var live := LiveOf(stubs, o.ping);
      var proposes := 2 * |Heard(live, o.prepare, q.key)| > |Elements(live)|;
      var prepared := a in live && o.prepare(a).Handled?;
      var asked := proposes && a in live && o.propose(a).Handled?;
      var informed := proposes && 2 * |Heard(live, o.propose, q.key)| > |Elements(live)| && a in live &&
                      o.inform(a).Handled?;
      a in r.replicas &&
      Leaves(m[a], r.replicas[a], m.Keys, q.key, q.round, q.proposal,
             prepared || asked || informed, asked && (q.key == COORDINATOR_KEY || !o.propose(a).fail), informed)
  {
    var live, m0, q := Begins(m, me, req, stubs, o);
    if live == [] {
      TouchLeaves(m[a], m.Keys, q.key, q.round, q.proposal);
    } else {
      RunExact(m0, m.Keys, q, live, o);
      RunLeaves(m0, m.Keys, q, live, o, a, m[a]);
    }
  }

  // ---- What it proposes -----------------------------------------------------------------

  predicate HeldAt(m: map<Addr, Replica>, q: Run, a: Addr) {
    a in m && EntryAt(LogOf(m[a], q.key), q.round).acceptedId > 0
  }

  /** Acceptances that were held before the run have one id, so the first that is heard in the
      order of the poll is adopted. */
  lemma AdoptsFirst(m0: map<Addr, Replica>, q: Run, live: seq<Addr>) returns (first: Addr)
    requires Reports(q.promises, m0, live, q.key, q.round) && VotesAscend(q.promises)
    requires q.proposal == Chosen(q.promises, q.op)
    requires forall a :: a in m0 ==> EntryAt(LogOf(m0[a], q.key), q.round).acceptedId <= PROPOSE_ID
    ensures (forall a :: a in Senders(q.promises) ==> !HeldAt(m0, q, a)) ==> q.proposal == q.op
    ensures (exists a :: a in Senders(q.promises) && HeldAt(m0, q, a)) ==>
              first in Senders(q.promises) && HeldAt(m0, q, first) &&
              q.proposal == EntryAt(LogOf(m0[first], q.key), q.round).accepted &&
              forall a :: a in Senders(q.promises) && HeldAt(m0, q, a) && a != first ==> Less(first, a)
  {
    var i := AdoptIsEarliestMaximum(q.promises);
    if a :| a in Senders(q.promises) && HeldAt(m0, q, a) {
      var k :| 0 <= k < |q.promises| && q.promises[k].from == a;
      assert q.promises[k].promise.acceptedId > 0;
      first := q.promises[i].from;
      forall b | b in Senders(q.promises) && HeldAt(m0, q, b) && b != first ensures Less(first, b) {
        var j :| 0 <= j < |q.promises| && q.promises[j].from == b;
        assert q.promises[j].promise.acceptedId == q.promises[i].promise.acceptedId;
      }
    } else {
      first := "";
      forall j | 0 <= j < |q.promises| ensures q.promises[j].promise.acceptedId <= 0 {
        assert !HeldAt(m0, q, q.promises[j].from);
      }
    }
  }

  lemma HeldIds(s: System, key: Key, round: nat)
    requires AllInv(s)
    ensures forall a :: a in s.replicas ==> EntryAt(LogOf(s.replicas[a], key), round).acceptedId <= PROPOSE_ID
  {
    var v := ViewOf(s, key);
    assert Inv(v, key);
    forall a | a in s.replicas ensures EntryAt(LogOf(s.replicas[a], key), round).acceptedId <= PROPOSE_ID {
      assert LogOk(v, v.logs[a]);
    }
  }

  /** Past its promise test a run proposes the operation it was asked for, a SET of the value,
      a DELETE, or a SET_COORDINATOR to the address, unless an acceptor that is heard to
      promise holds an acceptance at its round; then it proposes what the lowest such address
      holds. */
  lemma RunPaxosProposes(stubs: seq<Addr>, es: seq<Event>, me: Addr, req: Request, o: Oracle) returns (first: Addr)
    requires Ascending(stubs) && Valid(Init(Elements(stubs)), es) && me in stubs
    ensures var m := Exec(Init(Elements(stubs)), es).replicas;
      var q := RunPaxosOn(m, me, req, stubs, o).run;
      var heard := Senders(q.promises);
      2 * |heard| > |q.live| ==>
        ((forall a :: a in heard ==> !HeldAt(m, q, a)) ==>
          (req.Put? ==> q.proposal == Op(Set, req.value)) && (req.Del? ==> q.proposal == Op(Delete, "")) &&
          (req.Elect? ==> q.proposal == Op(SetCoordinator, req.coordinator))) &&
        ((exists a :: a in heard && HeldAt(m, q, a)) ==>
          first in heard && HeldAt(m, q, first) && q.proposal == EntryAt(LogOf(m[first], q.key), q.round).accepted &&
          forall a :: a in heard && HeldAt(m, q, a) && a != first ==> Less(first, a))
  {
    ReachableInv(Elements(stubs), es);
    first := ProposesIn(Exec(Init(Elements(stubs)), es), me, req, stubs, o);
  }

  lemma ProposesIn(s0: System, me: Addr, req: Request, stubs: seq<Addr>, o: Oracle) returns (first: Addr)
    requires AllInv(s0) && me in s0.stubs && Ascending(stubs) && Elements(stubs) == s0.stubs
    ensures var q := RunPaxosOn(s0.replicas, me, req, stubs, o).run;
      var heard := Senders(q.promises);
      q.op == ProposeValue(req) &&
      (2 * |heard| > |q.live| ==>
        ((forall a :: a in heard ==> !HeldAt(s0.replicas, q, a)) ==> q.proposal == q.op) &&
        ((exists a :: a in heard && HeldAt(s0.replicas, q, a)) ==>
          first in heard && HeldAt(s0.replicas, q, first) &&
          q.proposal == EntryAt(LogOf(s0.replicas[first], q.key), q.round).accepted &&
          forall a :: a in heard && HeldAt(s0.replicas, q, a) && a != first ==> Less(first, a)))
  {
    var q := RunPaxosOn(s0.replicas, me, req, stubs, o).run;
    assert Fresh(s0.replicas, me, req.key) by { ReachableFresh(s0, me, req.key); }
    RunHears(s0.replicas, me, req, stubs, o);
    HeldIds(s0, q.key, q.round);
    if 2 * |Senders(q.promises)| > |q.live| {
      first := AdoptsFirst(s0.replicas, q, LiveOf(stubs, o.ping));
    } else {
      first := "";
    }
  }

  // ---- Requests that succeed --------------------------------------------------------------

  /** The run returned OK, nobody that it heard held an acceptance at its round, and a, which
      handles its Inform, had no later round. */
  predicate Unopposed(m: map<Addr, Replica>, q: Run, o: Oracle, a: Addr) {
    q.phase == Done(true) && (forall b :: b in Senders(q.promises) ==> !HeldAt(m, q, b)) &&
    a in q.live && a in m && o.inform(a).Handled? && LatestRound(LogOf(m[a], q.key)) <= q.round
  }

  /** A request that returns OK does what it says wherever its Inform arrives, from every
      reachable state: a Put is read, a Del leaves nothing to read, an election of a member
      stores that member. */
  lemma RequestTakesEffect(stubs: seq<Addr>, es: seq<Event>, me: Addr, req: Request, o: Oracle, a: Addr)
    requires Ascending(stubs) && Valid(Init(Elements(stubs)), es) && me in stubs && a in stubs
    ensures var m := Exec(Init(Elements(stubs)), es).replicas;
      var r := RunPaxosOn(m, me, req, stubs, o);
      Unopposed(m, r.run, o, a) ==>
        a in r.replicas &&
        (req.Put? ==> Lookup(r.replicas[a], req.key) == Some(req.value)) &&
        (req.Del? ==> Lookup(r.replicas[a], req.key) == None) &&
        (req.Elect? && req.coordinator in stubs ==> r.replicas[a].coordinator == req.coordinator)
  {
    var s0 := Exec(Init(Elements(stubs)), es);
    assert AllInv(s0) by { ReachableInv(Elements(stubs), es); }
    if Unopposed(s0.replicas, RunPaxosOn(s0.replicas, me, req, stubs, o).run, o, a) {
      EffectIn(s0, me, req, stubs, o, a);
      LeavesEffect(s0.replicas[a], RunPaxosOn(s0.replicas, me, req, stubs, o).replicas[a], s0.stubs, req,
                   RunPaxosOn(s0.replicas, me, req, stubs, o).run.round);
    }
  }

  /** A replica that the run of req has informed, at which no later round existed. */
  ghost predicate Effected(before: Replica, after: Replica, stubs: set<Addr>, req: Request, round: nat) {
    LatestRound(LogOf(before, req.key)) <= round &&
    exists handled, accepts :: Leaves(before, after, stubs, req.key, round, ProposeValue(req), handled, accepts, true)
  }

  lemma LeavesEffect(before: Replica, after: Replica, stubs: set<Addr>, req: Request, round: nat)
    requires Effected(before, after, stubs, req, round)
    ensures req.Put? ==> Lookup(after, req.key) == Some(req.value)
    ensures req.Del? ==> Lookup(after, req.key) == None
    ensures req.Elect? && req.coordinator in stubs ==> after.coordinator == req.coordinator
  {}

  lemma EffectIn(s0: System, me: Addr, req: Request, stubs: seq<Addr>, o: Oracle, a: Addr)
    requires AllInv(s0) && me in s0.stubs && Ascending(stubs) && Elements(stubs) == s0.stubs && a in s0.stubs
    requires Unopposed(s0.replicas, RunPaxosOn(s0.replicas, me, req, stubs, o).run, o, a)
    ensures var r := RunPaxosOn(s0.replicas, me, req, stubs, o);
      a in r.replicas && Effected(s0.replicas[a], r.replicas[a], s0.stubs, req, r.run.round)
  {
    var q := RunPaxosOn(s0.replicas, me, req, stubs, o).run;
    assert Fresh(s0.replicas, me, req.key) by { ReachableFresh(s0, me, req.key); }
    RunHears(s0.replicas, me, req, stubs, o);
    var first := ProposesIn(s0, me, req, stubs, o);
    assert q.proposal == ProposeValue(req);
    RunLeavesAt(s0.replicas, me, req, stubs, o, a);
  }
}
