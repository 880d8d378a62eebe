/** The cluster members that a replica knows, and the coordinator it stores. Stubs are
    kept in the order of std::map: ascending addresses. */
module StubsMap {
  import opened Types

  /** The lexicographic order of std::string. */
  predicate Less(a: Addr, b: Addr) {
    |b| > 0 && (|a| == 0 || a[0] < b[0] || (a[0] == b[0] && Less(a[1..], b[1..])))
  }

  lemma {:induction false} LessIsStrict(a: Addr)
    ensures !Less(a, a)
  {
    if |a| > 0 { LessIsStrict(a[1..]); }
  }

  /** Where a and b agree before i and there a ends, or has the smaller character, a is less.
      So a proper prefix comes first. */
  lemma {:induction false} LessAt(a: Addr, b: Addr, i: nat)
    requires i <= |a| && i < |b| && a[..i] == b[..i] && (i == |a| || a[i] < b[i])
    ensures Less(a, b)
  {
    if i > 0 {
      assert a[0] == a[..i][0] && b[0] == b[..i][0];
      assert a[1..][..i - 1] == a[..i][1..] && b[1..][..i - 1] == b[..i][1..];
      LessAt(a[1..], b[1..], i - 1);
    }
  }

  /** ... and wherever a is less there is such an i. */
  lemma {:induction false} LessShows(a: Addr, b: Addr) returns (i: nat)
    requires Less(a, b)
    ensures i <= |a| && i < |b| && a[..i] == b[..i] && (i == |a| || a[i] < b[i])
  {
    i := 0;
    if |a| > 0 && a[0] == b[0] {
      i := LessShows(a[1..], b[1..]);
      i := i + 1;
      assert a[..i] == [a[0]] + a[1..][..i - 1] && b[..i] == [b[0]] + b[1..][..i - 1];
    }
  }

  lemma {:induction false} LessIsTransitive(a: Addr, b: Addr, c: Addr)
    requires Less(a, b) && Less(b, c)
    ensures Less(a, c)
  {
    if |a| > 0 && a[0] == b[0] && b[0] == c[0] { LessIsTransitive(a[1..], b[1..], c[1..]); }
  }

  lemma {:induction false} LessIsTotal(a: Addr, b: Addr)
    ensures Less(a, b) || a == b || Less(b, a)
  {
    if |a| > 0 && |b| > 0 && a[0] == b[0] {
      LessIsTotal(a[1..], b[1..]);
      assert a == [a[0]] + a[1..] && b == [b[0]] + b[1..];
    }
  }

  predicate Ascending(addrs: seq<Addr>) { forall i, j | 0 <= i < j < |addrs| :: Less(addrs[i], addrs[j]) }

  function Elements(addrs: seq<Addr>): set<Addr> { set a | a in addrs }

  /** An ascending sequence lists its elements once each. */
  lemma {:induction false} AscendingIsDistinct(addrs: seq<Addr>)
    requires Ascending(addrs)
    ensures |Elements(addrs)| == |addrs|
    ensures addrs != [] ==>
              var n := |addrs| - 1;
              Ascending(addrs[..n]) && addrs[n] !in addrs[..n] && Elements(addrs) == Elements(addrs[..n]) + {addrs[n]}
  {
    if addrs != [] {
      var n := |addrs| - 1;
      AscendingIsDistinct(addrs[..n]);
      LessIsStrict(addrs[n]);
      LastElement(addrs);
    }
  }

  lemma LastElement(addrs: seq<Addr>)
    requires addrs != []
    ensures var n := |addrs| - 1; Elements(addrs) == Elements(addrs[..n]) + {addrs[n]}
  {
    assert addrs == addrs[..|addrs| - 1] + [addrs[|addrs| - 1]];
  }

  /** There is one ascending listing of a set of addresses: the order of the stubs map. */
  lemma {:induction false} AscendingIsUnique(x: seq<Addr>, y: seq<Addr>)
    requires Ascending(x) && Ascending(y) && Elements(x) == Elements(y)
    ensures x == y
    decreases |x|
  {
    EmptyIff(x);
    EmptyIff(y);
    if x != [] {
      SameLast(x, y);
      WithoutLast(x);
      WithoutLast(y);
      AscendingIsUnique(x[..|x| - 1], y[..|y| - 1]);
      assert x == x[..|x| - 1] + [x[|x| - 1]] && y == y[..|y| - 1] + [y[|y| - 1]];
    }
  }

  lemma EmptyIff(x: seq<Addr>)
    ensures x == [] <==> Elements(x) == {}
  {
    if x != [] { assert x[0] in Elements(x); }
  }

  lemma WithoutLast(x: seq<Addr>)
    requires Ascending(x) && x != []
    ensures var n := |x| - 1; Ascending(x[..n]) && Elements(x[..n]) == Elements(x) - {x[n]}
  {
    AscendingIsDistinct(x);
    assert x[|x| - 1] !in Elements(x[..|x| - 1]);
  }

  lemma SameLast(x: seq<Addr>, y: seq<Addr>)
    requires Ascending(x) && Ascending(y) && Elements(x) == Elements(y) && x != [] && y != []
    ensures x[|x| - 1] == y[|y| - 1]
  {
    var a, b := x[|x| - 1], y[|y| - 1];
    assert a in Elements(x) && b in Elements(y);
    GreatestLast(x, b);
    GreatestLast(y, a);
    if a != b {
      LessIsTransitive(a, b, a);
      LessIsStrict(a);
    }
  }

  /** No element of an ascending listing comes after its last one. */
  lemma GreatestLast(x: seq<Addr>, a: Addr)
    requires Ascending(x) && a in Elements(x)
    ensures x != [] && (a == x[|x| - 1] || Less(a, x[|x| - 1]))
  {
    var i :| 0 <= i < |x| && x[i] == a;
  }

  class PaxosStubsMap {
    const stubs: seq<Addr>
    var coordinator: Addr

    constructor (stubs: seq<Addr>)
      requires Ascending(stubs)
      ensures this.stubs == stubs && coordinator == ""
    {
      this.stubs := stubs;
      coordinator := "";
    }

    method GetCoordinator() returns (address: Addr)
      ensures address == coordinator
    {
      return coordinator;
    }

    /** Only a member becomes coordinator. */
    method SetCoordinator(address: Addr) returns (ok: bool)
      modifies this
      ensures ok <==> address in stubs
      ensures coordinator == if ok then address else old(coordinator)
    {
      if address !in stubs { return false; }
      coordinator := address;
      return true;
    }

    method GetCoordinatorStub() returns (stub: Option<Addr>)
      ensures stub == if coordinator in stubs then Some(coordinator) else None
    {
      return if coordinator in stubs then Some(coordinator) else None;
    }

    method GetStub(address: Addr) returns (stub: Option<Addr>)
      ensures stub.Some? <==> address != "" && address in stubs
      ensures stub.Some? ==> stub.value == address
    {
      if address == "" || address !in stubs { return None; }
      return Some(address);
    }

    /** A copy of the stubs, in ascending order. */
    method GetPaxosStubs() returns (copy: seq<Addr>)
      ensures copy == stubs
    {
      copy := [];
      for i := 0 to |stubs|
        invariant copy == stubs[..i]
      {
        copy := copy + [stubs[i]];
      }
    }
  }
}
