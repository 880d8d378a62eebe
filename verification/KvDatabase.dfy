/** The database of one replica: its data map and the round log of each key. */
module KvDatabase {
  import opened Types

  class KeyValueDataBase {
    var dataMap: map<Key, Value>
    var paxosLogsMap: map<Key, Log>

    constructor ()
      ensures dataMap == map[] && paxosLogsMap == map[]
    {
      dataMap, paxosLogsMap := map[], map[];
    }

    method GetValue(key: Key) returns (found: bool, value: Value)
      ensures found <==> key in dataMap
      ensures found ==> value == dataMap[key]
    {
      if key !in dataMap { return false, ""; }
      return true, dataMap[key];
    }

    /** True if a value was overwritten. */
    method SetValue(key: Key, value: Value) returns (found: bool)
      modifies this
      ensures found <==> key in old(dataMap)
      ensures dataMap == old(dataMap)[key := value]
      ensures paxosLogsMap == old(paxosLogsMap)
    {
      found := key in dataMap;
      dataMap := dataMap[key := value];
    }

    /** True if there was something to delete. */
    method DeleteEntry(key: Key) returns (found: bool)
      modifies this
      ensures found <==> key in old(dataMap)
      ensures dataMap == old(dataMap) - {key}
      ensures paxosLogsMap == old(paxosLogsMap)
    {
      found := key in dataMap;
      dataMap := dataMap - {key};
    }

    method GetDataMap() returns (data: map<Key, Value>)
      ensures data == dataMap
    {
      return dataMap;
    }

    method GetPaxosLogKeys() returns (keys: set<Key>)
      ensures keys == paxosLogsMap.Keys
    {
      keys := {};
      var left := paxosLogsMap.Keys;
      while left != {}
        invariant left <= paxosLogsMap.Keys && keys == paxosLogsMap.Keys - left
        decreases |left|
      {
        var key :| key in left;
        keys, left := keys + {key}, left - {key};
      }
    }

    method GetPaxosLogsMap() returns (logs: map<Key, Log>)
      ensures logs == paxosLogsMap
    {
      return paxosLogsMap;
    }

    /** Reading the rounds of a key inserts an empty log for a new key. */
    method GetPaxosLogs(key: Key) returns (log: Log)
      modifies this
      ensures log == LogIn(old(paxosLogsMap), key)
      ensures paxosLogsMap == old(paxosLogsMap)[key := log]
      ensures dataMap == old(dataMap)
    {
      if key !in paxosLogsMap { paxosLogsMap := paxosLogsMap[key := map[]]; }
      log := paxosLogsMap[key];
    }

    /** Reading an entry inserts a default one for a new key or round, which can raise
        the key's latest round. */
    method GetPaxosLog(key: Key, round: nat) returns (entry: PaxosLog)
      modifies this
      ensures entry == EntryAt(LogIn(old(paxosLogsMap), key), round)
      ensures paxosLogsMap == old(paxosLogsMap)[key := AddSlot(LogIn(old(paxosLogsMap), key), round)]
      ensures dataMap == old(dataMap)
    {
      AddPaxosLog(key, round);
      entry := paxosLogsMap[key][round];
    }

    /** The latest round of a key, 0 when it has none; inserts an empty log for a new key. */
    method GetLatestRound(key: Key) returns (round: nat)
      modifies this
      ensures var log := LogIn(old(paxosLogsMap), key);
        (if log == map[] then round == 0 else round in log) && forall r :: r in log ==> r <= round
      ensures round == LatestRound(LogIn(old(paxosLogsMap), key))
      ensures paxosLogsMap == old(paxosLogsMap)[key := LogIn(old(paxosLogsMap), key)]
      ensures dataMap == old(dataMap)
    {
      if key !in paxosLogsMap { paxosLogsMap := paxosLogsMap[key := map[]]; }
      if paxosLogsMap[key] == map[] { return 0; }
      round := LatestRound(paxosLogsMap[key]);
    }

    /** Create the slot of a round that an acceptor is asked about. */
    method AddPaxosLog(key: Key, round: nat)
      modifies this
      ensures paxosLogsMap == old(paxosLogsMap)[key := AddSlot(LogIn(old(paxosLogsMap), key), round)]
      ensures dataMap == old(dataMap)
    {
      if key !in paxosLogsMap { paxosLogsMap := paxosLogsMap[key := map[]]; }
      var log: Log := paxosLogsMap[key];
      if round !in log { paxosLogsMap := paxosLogsMap[key := log[round := EMPTY_ENTRY]]; }
      AddedSlot(old(paxosLogsMap), paxosLogsMap, key, round);
    }

    /** Record a promise. No caller does. */
    method AddPromise(key: Key, round: nat, promisedId: int)
      modifies this
      ensures var log := LogIn(old(paxosLogsMap), key);
        paxosLogsMap == old(paxosLogsMap)[key := log[round := EntryAt(log, round).(promisedId := promisedId)]]
      ensures dataMap == old(dataMap)
    {
      AddPaxosLog(key, round);
      var log: Log := paxosLogsMap[key];
      var entry := log[round].(promisedId := promisedId);
      paxosLogsMap := paxosLogsMap[key := log[round := entry]];
      RewrittenSlot(old(paxosLogsMap), key, round, entry);
    }

    /** Record an acceptance, keeping what the round promised. */
    method AddAcceptance(key: Key, round: nat, acceptedId: int, accepted: Op)
      modifies this
      ensures paxosLogsMap ==
              old(paxosLogsMap)[key := SetAccepted(LogIn(old(paxosLogsMap), key), round, acceptedId, accepted)]
      ensures dataMap == old(dataMap)
    {
      AddPaxosLog(key, round);
      var log: Log := paxosLogsMap[key];
      var entry := log[round].(acceptedId := acceptedId);
      entry := entry.(accepted := accepted);
      paxosLogsMap := paxosLogsMap[key := log[round := entry]];
      RewrittenSlot(old(paxosLogsMap), key, round, entry);
    }

    /** Overwrite a whole entry from a recovery snapshot. */
    method AddRecovered(key: Key, round: nat, entry: PaxosLog)
      modifies this
      ensures paxosLogsMap == old(paxosLogsMap)[key := LogIn(old(paxosLogsMap), key)[round := entry]]
      ensures dataMap == old(dataMap)
    {
      AddPaxosLog(key, round);
      var log: Log := paxosLogsMap[key];
      paxosLogsMap := paxosLogsMap[key := log[round := entry]];
      RewrittenSlot(old(paxosLogsMap), key, round, entry);
    }
  }

  lemma AddedSlot(logs: map<Key, Log>, logs': map<Key, Log>, key: Key, round: nat)
    requires key in logs' && logs' == logs[key := logs'[key]]
    requires logs'[key] ==
             if round in LogIn(logs, key) then LogIn(logs, key) else LogIn(logs, key)[round := EMPTY_ENTRY]
    ensures logs' == logs[key := AddSlot(LogIn(logs, key), round)]
  {
    assert logs'[key] == AddSlot(LogIn(logs, key), round);
  }

  /** Rewriting a slot that was just created is rewriting the round. */
  lemma RewrittenSlot(logs: map<Key, Log>, key: Key, round: nat, entry: PaxosLog)
    ensures var log := LogIn(logs, key);
      logs[key := AddSlot(log, round)][key := AddSlot(log, round)[round := entry]] == logs[key := log[round := entry]]
  {
    var log := LogIn(logs, key);
    assert AddSlot(log, round)[round := entry] == log[round := entry];
  }
}
