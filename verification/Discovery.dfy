/** How a joining replica finds the coordinator, and what elections guarantee about it. */
module Discovery {
  import opened Types
  import opened Handlers
  import opened StubsMap
  import opened System
  import opened Tracing
  import opened Exact

  /** A lookup that reaches these replicas finds c: c is reached and stores itself, and no
      reached replica stores another address. */
  predicate LooksUp(m: map<Addr, Replica>, reach: Addr -> bool, c: Addr) {
    c != "" && c in m && reach(c) && m[c].coordinator == c &&
    forall a :: a in m && reach(a) ==> m[a].coordinator == "" || m[a].coordinator == c
  }

  /** Those that a lookup hears a coordinator from, given what each replica stores. */
  function Answering(stored: map<Addr, Addr>, reach: Addr -> bool): set<Addr> {
    set a | a in stored && reach(a) && stored[a] != ""
  }

  lemma OneMoreAnswer(stored: map<Addr, Addr>, reach: Addr -> bool, asked: set<Addr>, live: set<Addr>,
                      coordinators: set<Addr>, a: Addr)
    requires live == Answering(stored, reach) * asked && coordinators == set b | b in live :: stored[b]
    ensures a in Answering(stored, reach) ==>
              live + {a} == Answering(stored, reach) * (asked + {a}) &&
              coordinators + {stored[a]} == set b | b in live + {a} :: stored[b]
    ensures a !in Answering(stored, reach) ==> live == Answering(stored, reach) * (asked + {a})
  {}

  /** Everyone that names a coordinator names c, and c is one of them. */
  predicate Agreed(known: map<Addr, Addr>, c: Addr) { c in known && forall a :: a in known ==> known[a] == c }

  /** The lookup's two tests, on the addresses named and on who named them. */
  lemma AgreedIff(known: map<Addr, Addr>, live: set<Addr>, coordinators: set<Addr>)
    requires live == known.Keys && coordinators == set a | a in live :: known[a]
    ensures (exists c :: Agreed(known, c)) <==> |coordinators| == 1 && coordinators <= live
    ensures |coordinators| == 1 ==>
              forall c :: c in coordinators && c in live ==> Agreed(known, c) && coordinators == {c}
  {
    if c :| Agreed(known, c) {
      assert known[c] in coordinators;
      assert coordinators == {c};
    }
    if |coordinators| == 1 {
      var c :| c in coordinators;
      assert |coordinators - {c}| == 0;
      assert coordinators == {c};
      forall a | a in known ensures known[a] == c { assert known[a] in coordinators; }
      assert c in live ==> Agreed(known, c);
    }
  }

  /** The tests of the lookup, given what every replica stores. */
  lemma LookupTests(m: map<Addr, Replica>, reach: Addr -> bool, live: set<Addr>, coordinators: set<Addr>)
    requires live == set a | a in m && reach(a) && m[a].coordinator != ""
    requires coordinators == set a | a in live :: m[a].coordinator
    ensures (exists c :: LooksUp(m, reach, c)) <==> |coordinators| == 1 && coordinators <= live
    ensures |coordinators| == 1 ==>
              forall c :: c in coordinators ==> coordinators == {c} && (c in live ==> LooksUp(m, reach, c))
  {
    var known := map a | a in live :: m[a].coordinator;
    AgreedIff(known, live, coordinators);
    forall c ensures Agreed(known, c) <==> LooksUp(m, reach, c) {
      forall a | a in live ensures a in known && known[a] == m[a].coordinator {}
    }
    forall c | |coordinators| == 1 && c in coordinators ensures coordinators == {c} {
      assert |coordinators - {c}| == 0;
    }
  }

  /** An election that returns OK takes effect at a, or a stores no coordinator at all. */
  predicate ElectedAt(m0: map<Addr, Replica>, m: map<Addr, Replica>, q: Run, o: Oracle, a: Addr) {
    a in m && (Unopposed(m0, q, o, a) || m[a].coordinator == "")
  }

  /** From every reachable state: an election of member x that returns OK and adopts nothing
      leaves x stored wherever its Inform is executed. A replica whose lookup then reaches x,
      and otherwise only such replicas and ones that store no coordinator, as it does itself,
      finds exactly x. */
  lemma JoinerFindsElected(stubs: seq<Addr>, es: seq<Event>, me: Addr, x: Addr, o: Oracle, reach: Addr -> bool)
    requires Ascending(stubs) && Valid(Init(Elements(stubs)), es) && me in stubs && x in stubs && x != ""
    ensures var m := Exec(Init(Elements(stubs)), es).replicas;
      var r := RunPaxosOn(m, me, Elect(COORDINATOR_KEY, x), stubs, o);
      r.replicas.Keys == Elements(stubs) &&
      (forall a :: a in stubs && Unopposed(m, r.run, o, a) ==> r.replicas[a].coordinator == x) &&
      (reach(x) && Unopposed(m, r.run, o, x) &&
       (forall a :: a in stubs && reach(a) ==> ElectedAt(m, r.replicas, r.run, o, a)) ==>
        forall c :: LooksUp(r.replicas, reach, c) <==> c == x)
  {
    var m := Exec(Init(Elements(stubs)), es).replicas;
    var r := RunPaxosOn(m, me, Elect(COORDINATOR_KEY, x), stubs, o);
    forall a | a in stubs && Unopposed(m, r.run, o, a) ensures a in r.replicas && r.replicas[a].coordinator == x {
      RequestTakesEffect(stubs, es, me, Elect(COORDINATOR_KEY, x), o, a);
    }
    assert r.replicas.Keys == m.Keys by { RunKeepsKeys(m, me, Elect(COORDINATOR_KEY, x), stubs, o); }
  }

  lemma RunKeepsKeys(m: map<Addr, Replica>, me: Addr, req: Request, stubs: seq<Addr>, o: Oracle)
    requires me in m && Elements(stubs) <= m.Keys
    ensures RunPaxosOn(m, me, req, stubs, o).replicas.Keys == m.Keys
  {}
}
