/** What recovery guarantees about the database it installs a snapshot into. */
module Recovery {
  import opened Types
  import opened Handlers

  predicate NoEmptyLogs(r: Replica) { forall k :: k in r.logs ==> r.logs[k] != map[] }

  lemma LatestOfUnion(log: Log, over: Log)
    ensures LatestRound(log + over) == Max(LatestRound(log), LatestRound(over))
  {
    if log + over != map[] {
      if over == map[] { assert log + over == log; }
      if log == map[] { assert log + over == over; }
      LatestIs(log + over, Max(LatestRound(log), LatestRound(over)));
    }
  }

  /** Installing a snapshot into an empty database gives back the data map and the
      observable log; the database itself comes back unchanged exactly when no key has
      an empty log, because such keys are dropped. */
  lemma RoundTrip(r: Replica, key: Key, round: nat)
    ensures var r' := Install(EMPTY_REPLICA, HandleRecover(r));
      r'.data == r.data &&
      LogOf(r', key) == LogOf(r, key) &&
      LatestRound(LogOf(r', key)) == LatestRound(LogOf(r, key)) &&
      EntryAt(LogOf(r', key), round) == EntryAt(LogOf(r, key), round) &&
      (key in r'.logs <==> key in r.logs && r.logs[key] != map[]) &&
      (r'.logs == r.logs <==> NoEmptyLogs(r))
  {
    var r' := Install(EMPTY_REPLICA, HandleRecover(r));
    assert map[] + r.data == r.data;
    assert forall k | k in r.logs :: map[] + r.logs[k] == r.logs[k];
    if NoEmptyLogs(r) { assert r'.logs == r.logs; }
  }

  /** On any starting database recovery is a pointwise override, of data by key and of
      the logs by (key, round), and never lowers a latest round. */
  lemma Overlay(r: Replica, snap: Snapshot, key: Key, round: nat)
    ensures var r' := Install(r, snap);
      Lookup(r', key) == (if key in snap.kvMap then Some(snap.kvMap[key]) else Lookup(r, key)) &&
      (round in LogOf(r', key) <==> round in LogOf(r, key) || round in LogIn(snap.paxosLogs, key)) &&
      EntryAt(LogOf(r', key), round) ==
        (if round in LogIn(snap.paxosLogs, key) then LogIn(snap.paxosLogs, key)[round]
         else EntryAt(LogOf(r, key), round)) &&
      r'.coordinator == r.coordinator &&
      LatestRound(LogOf(r', key)) == Max(LatestRound(LogOf(r, key)), LatestRound(LogIn(snap.paxosLogs, key)))
  {
    LatestOfUnion(LogOf(r, key), LogIn(snap.paxosLogs, key));
  }

  lemma AddAgain<K, V>(m: map<K, V>, n: map<K, V>)
    ensures (m + n) + n == m + n
  {}

  lemma LogAgain(r: Replica, snap: Snapshot, key: Key)
    ensures LogOf(Install(Install(r, snap), snap), key) == LogOf(Install(r, snap), key)
  {
    InstallAt(r, snap, key);
    InstallAt(Install(r, snap), snap, key);
    AddAgain(LogOf(r, key), LogIn(snap.paxosLogs, key));
  }

  lemma KeysOfInstall(r: Replica, snap: Snapshot)
    ensures Install(r, snap).logs.Keys == r.logs.Keys + (set k | k in snap.paxosLogs && snap.paxosLogs[k] != map[])
  {}

  /** Installing the same snapshot again changes nothing. */
  lemma Idempotent(r: Replica, snap: Snapshot)
    ensures Install(Install(r, snap), snap) == Install(r, snap)
  {
    var r1 := Install(r, snap);
    AddAgain(r.data, snap.kvMap);
    KeysOfInstall(r, snap);
    KeysOfInstall(r1, snap);
    assert Install(r1, snap).logs == r1.logs by {
      forall k | k in r1.logs ensures Install(r1, snap).logs[k] == r1.logs[k] { LogAgain(r, snap, k); }
    }
  }

  /** Recovery never deletes: the database takes over the source's data map exactly when
      it holds no key that the source has deleted, as an empty one does. */
  lemma TakesOverDataIff(r: Replica, source: Replica)
    ensures Install(r, HandleRecover(source)).data == source.data <==> r.data.Keys <= source.data.Keys
  {
    var data := Install(r, HandleRecover(source)).data;
    assert data.Keys == r.data.Keys + source.data.Keys;
    if r.data.Keys <= source.data.Keys { assert data == source.data; }
  }

  // ---- The install loops -------------------------------------------------------

  /** The logs after the snapshot's rounds of one key are written. */
  function InstallRounds(logs: map<Key, Log>, key: Key, rounds: Log): map<Key, Log> {
    if rounds == map[] then logs else logs[key := LogIn(logs, key) + rounds]
  }

  lemma OneMoreRound(logs: map<Key, Log>, key: Key, log: Log, left: set<nat>, round: nat)
    requires left <= log.Keys && round in left
    ensures var done := InstallRounds(logs, key, log - left);
      done[key := LogIn(done, key)[round := log[round]]] == InstallRounds(logs, key, log - (left - {round}))
  {
    var was: Log, now: Log := log - left, log - (left - {round});
    var base: Log := LogIn(logs, key);
    var both: Log := base + was;
    assert was[round := log[round]] == now && round in now;
    assert both[round := log[round]] == base + now;
    if was == map[] { assert both == base; }
    assert logs[key := both][key := base + now] == logs[key := base + now];
  }

  lemma OneMoreKey(data: map<Key, Value>, kvMap: map<Key, Value>, keys: set<Key>, key: Key)
    requires keys <= kvMap.Keys && key in keys
    ensures (data + (kvMap - keys))[key := kvMap[key]] == data + (kvMap - (keys - {key}))
  {}

  lemma LogAfter(logs: map<Key, Log>, snap: map<Key, Log>, key: Key)
    ensures key in InstallLogs(logs, snap) <==> key in logs || LogIn(snap, key) != map[]
    ensures LogIn(InstallLogs(logs, snap), key) == LogIn(logs, key) + LogIn(snap, key)
  {}

  lemma NoLogsYet(logs: map<Key, Log>, snap: map<Key, Log>)
    ensures InstallLogs(logs, snap - snap.Keys) == logs
  {
    forall k
      ensures k in InstallLogs(logs, snap - snap.Keys) <==> k in logs
      ensures LogIn(InstallLogs(logs, snap - snap.Keys), k) == LogIn(logs, k)
    {
      LogAfter(logs, snap - snap.Keys, k);
      assert LogIn(logs, k) + map[] == LogIn(logs, k);
    }
    var now := InstallLogs(logs, snap - snap.Keys);
    assert forall k :: k in logs ==> now[k] == LogIn(now, k);
  }

  lemma OneMoreOf(snap: map<Key, Log>, keys: set<Key>, key: Key)
    requires keys <= snap.Keys && key in keys
    ensures forall k :: LogIn(snap - (keys - {key}), k) == if k == key then snap[key] else LogIn(snap - keys, k)
    ensures LogIn(snap - keys, key) == map[]
  {}

  lemma OneMoreLogAt(logs: map<Key, Log>, snap: map<Key, Log>, keys: set<Key>, key: Key, k: Key)
    requires keys <= snap.Keys && key in keys
    ensures var done := InstallRounds(InstallLogs(logs, snap - keys), key, snap[key]);
      var now := InstallLogs(logs, snap - (keys - {key}));
      (k in done <==> k in now) && (k in now ==> done[k] == now[k])
  {
    OneMoreOf(snap, keys, key);
    LogAfter(logs, snap - keys, k);
    LogAfter(logs, snap - (keys - {key}), k);
    if k == key { assert LogIn(logs, key) + map[] == LogIn(logs, key); }
  }

  lemma OneMoreLog(logs: map<Key, Log>, snap: map<Key, Log>, keys: set<Key>, key: Key)
    requires keys <= snap.Keys && key in keys
    ensures InstallRounds(InstallLogs(logs, snap - keys), key, snap[key]) == InstallLogs(logs, snap - (keys - {key}))
  {
    forall k { OneMoreLogAt(logs, snap, keys, key, k); }
  }
}
