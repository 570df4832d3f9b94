/**
 The connection table of one fast path. A record is named by its key, where the original hands out a
 pointer into the table; the table is reassigned where the original writes through that pointer.
 */
module ConnTracker {
  import opened Types
  import opened Connections

  type Table = map<FiveTuple, Connection>

  // ---------------------------------------------------------------- what the operations mean

  /** Keys are canonical, and a record's own tuple is one direction of its key. */
  predicate KeysMatch(t: Table) {
    forall k :: k in t ==> k.Canonical() == k == t[k].tuple.Canonical()
  }

  predicate Oldest(t: Table, k: FiveTuple) {
    k in t && forall j :: j in t ==> t[k].lastSeen <= t[j].lastSeen
  }

  /** Nanoseconds, as the clock counts them. */
  const SECOND := 1_000_000_000

  /** Idle for more than `timeout` whole seconds, or closed, however recently. */
  predicate Expired(c: Connection, now: nat, timeout: nat) {
    (now > c.lastSeen && (now - c.lastSeen) / SECOND > timeout) || c.state == CLOSED
  }

  function Cleaned(t: Table, now: nat, timeout: nat): Table {
    map k | k in t && !Expired(t[k], now, timeout) :: t[k]
  }

  /** `t'` is `t` with the flow `tuple` looked up or entered, and with the oldest record gone if that is one too many. */
  ghost predicate Entering(max: nat, t: Table, tuple: FiveTuple, now: nat, t': Table) {
    var key := tuple.Canonical();
    var inserted := t[key := NewConnection(tuple, now)];
    if key in t then t' == t
    else if |inserted| <= max then t' == inserted
    else exists k :: Oldest(inserted, k) && t' == inserted - {k}
  }

  /** Some record of the flow in the table, entered by a packet of either direction. */
  predicate IsRecordOf(t: Table, tuple: FiveTuple, c: Connection) {
    exists k :: k in t && t[k] == c && (c.tuple == tuple || c.tuple == tuple.Reverse())
  }

  /** Keyed canonically, each flow has one record at most, and it is where its canonical tuple says. */
  lemma RecordIsAtCanonicalKey(t: Table, tuple: FiveTuple)
    requires KeysMatch(t)
    ensures forall c :: IsRecordOf(t, tuple, c) <==> tuple.Canonical() in t && c == t[tuple.Canonical()]
  {
    forall k | k in t
      ensures k == tuple.Canonical() <==> t[k].tuple == tuple || t[k].tuple == tuple.Reverse()
    {
      CanonicalIdentifiesFlow(t[k].tuple, tuple);
    }
  }

  lemma Grown<K, V>(m: map<K, V>, k: K, v: V)
    requires k !in m
    ensures |m[k := v]| == |m| + 1
  {
  }

  lemma Shrunk<K, V>(m: map<K, V>, k: K)
    requires k in m
    ensures |m - {k}| == |m| - 1
  {
  }

  /** A cleanup keeps exactly the records that are not closed and whose last packet is less than `timeout` + 1 seconds of nanoseconds ago. */
  lemma CleanedKeeps(t: Table, now: nat, timeout: nat, k: FiveTuple)
    ensures k in Cleaned(t, now, timeout) <==> k in t && t[k].state != CLOSED && now < t[k].lastSeen + (timeout + 1) * 1_000_000_000
    ensures k in Cleaned(t, now, timeout) ==> Cleaned(t, now, timeout)[k] == t[k]
  {
    if k in t && now > t[k].lastSeen {
      WholeSeconds(now - t[k].lastSeen, timeout);
    }
  }

  lemma WholeSeconds(age: nat, timeout: nat)
    ensures age / SECOND > timeout <==> age >= (timeout + 1) * 1_000_000_000
  {
  }

  /** `t` is `whole` with the expired records gone except those not yet visited, which are in `rest`. */
  predicate PartlyCleaned(whole: Table, t: Table, rest: set<FiveTuple>, now: nat, timeout: nat) {
    && rest <= t.Keys <= whole.Keys
    && (forall k :: k in t ==> t[k] == whole[k])
    && (forall k :: k in whole && k !in rest ==> (k in t <==> !Expired(whole[k], now, timeout)))
  }

  lemma CleanOne(whole: Table, t: Table, rest: set<FiveTuple>, k: FiveTuple, now: nat, timeout: nat)
    requires PartlyCleaned(whole, t, rest, now, timeout) && k in rest
    ensures if Expired(t[k], now, timeout) then PartlyCleaned(whole, t - {k}, rest - {k}, now, timeout) && |t - {k}| == |t| - 1
      else PartlyCleaned(whole, t, rest - {k}, now, timeout)
  {
    Shrunk(t, k);
  }

  lemma AllCleaned(whole: Table, t: Table, now: nat, timeout: nat)
    requires PartlyCleaned(whole, t, {}, now, timeout)
    ensures t == Cleaned(whole, now, timeout)
    ensures KeysMatch(whole) ==> KeysMatch(t)
  {
  }

  /**
   When can the record just entered be the one evicted, whatever order the scan takes? Exactly when
   the table is over its limit and nothing in it is older than the new record's clock reading.
   */
  lemma NewRecordMayBeEvicted(max: nat, t: Table, tuple: FiveTuple, now: nat)
    requires tuple.Canonical() !in t
    ensures (exists t' :: Entering(max, t, tuple, now, t') && tuple.Canonical() !in t') <==>
      |t| >= max && forall j :: j in t ==> now <= t[j].lastSeen
  {
    var key := tuple.Canonical();
    var inserted := t[key := NewConnection(tuple, now)];
    Grown(t, key, NewConnection(tuple, now));
    if t' :| Entering(max, t, tuple, now, t') && key !in t' {
      assert |inserted| > max;
      var k :| Oldest(inserted, k) && t' == inserted - {k};
      assert k == key;
      forall j | j in t ensures now <= t[j].lastSeen {
        assert j in inserted && inserted[j] == t[j];
      }
    }
    if |t| >= max && forall j :: j in t ==> now <= t[j].lastSeen {
      assert Oldest(inserted, key);
      assert Entering(max, t, tuple, now, inserted - {key});
    }
  }

  // ---------------------------------------------------------------- the tracker

  class ConnectionTracker {
    const maxConnections: nat
    var connections: Table
    var totalSeen: nat
    var classifiedCount: nat
    var blockedCount: nat
    /** How many records have left the table, and why. */
    ghost var evicted: nat
    ghost var cleaned: nat
    ghost var cleared: nat

    /** Every connection ever seen is still in the table or is accounted for. */
    ghost predicate Valid()
      reads this
    {
      && KeysMatch(connections) && |connections| <= maxConnections
      && totalSeen == |connections| + evicted + cleaned + cleared
    }

    constructor (max: nat)
      ensures Valid() && maxConnections == max && connections == map[] && totalSeen == 0
    {
      maxConnections, connections := max, map[];
      totalSeen, classifiedCount, blockedCount, evicted, cleaned, cleared := 0, 0, 0, 0, 0, 0;
    }

    method GetOrCreate(tuple: FiveTuple, now: nat) returns (key: FiveTuple)
      requires Valid()
      modifies this
      ensures Valid() && key == tuple.Canonical()
      ensures Entering(maxConnections, old(connections), tuple, now, connections)
      ensures totalSeen == old(totalSeen) + if key in old(connections) then 0 else 1
      ensures classifiedCount == old(classifiedCount) && blockedCount == old(blockedCount)
      ensures cleaned == old(cleaned) && cleared == old(cleared)
    {
      key := tuple.Canonical();
      if key in connections {
        return;
      }
      Grown(connections, key, NewConnection(tuple, now));
      CanonicalIdentifiesFlow(tuple, key);
      connections := connections[key := NewConnection(tuple, now)];
      totalSeen := totalSeen + 1;
      if |connections| > maxConnections {
        EvictOldest();
      }
    }

    /** The scan meets the records in any order and keeps the first of the oldest. */
    method EvictOldest()
      requires KeysMatch(connections) && connections != map[]
      modifies this`connections, this`evicted
      ensures exists k :: Oldest(old(connections), k) && connections == old(connections) - {k}
      ensures KeysMatch(connections) && |connections| == |old(connections)| - 1 && evicted == old(evicted) + 1
    {
      var oldest :| oldest in connections;
      var rest := connections.Keys;
      while rest != {}
        invariant oldest in connections && rest <= connections.Keys
        invariant forall j :: j in connections && j !in rest ==> connections[oldest].lastSeen <= connections[j].lastSeen
        decreases |rest|
      {
        var k :| k in rest;
        rest := rest - {k};
        if connections[k].lastSeen < connections[oldest].lastSeen {
          oldest := k;
        }
      }
      assert Oldest(connections, oldest);
      Shrunk(connections, oldest);
      connections := connections - {oldest};
      evicted := evicted + 1;
    }

    /** All writes through a record's pointer come to this. */
    method Write(key: FiveTuple, c: Connection)
      requires Valid() && key in connections && c.tuple == connections[key].tuple
      modifies this`connections
      ensures Valid() && connections == old(connections)[key := c]
    {
      assert connections[key := c].Keys == connections.Keys;
      assert |connections[key := c].Keys| == |connections[key := c]| && |connections.Keys| == |connections|;
      connections := connections[key := c];
    }

    /** Packets of both directions find the same record, and no other flow's. */
    method GetConnection(tuple: FiveTuple) returns (found: Option<Connection>)
      ensures Valid() ==> forall c :: found == Some(c) <==> IsRecordOf(connections, tuple, c)
      ensures Valid() ==> forall c :: found == Some(c) <==> IsRecordOf(connections, tuple.Reverse(), c)
    {
      if Valid() {
        RecordIsAtCanonicalKey(connections, tuple);
        RecordIsAtCanonicalKey(connections, tuple.Reverse());
        CanonicalIdentifiesFlow(tuple, tuple.Reverse());
      }
      var key := tuple.Canonical();
      found := if key in connections then Some(connections[key]) else None;
    }

    method UpdateConnection(key: FiveTuple, size: nat, outbound: bool, now: nat)
      requires Valid() && key in connections
      modifies this`connections
      ensures Valid() && connections == old(connections)[key := Updated(old(connections)[key], size, outbound, now)]
    {
      Write(key, Updated(connections[key], size, outbound, now));
    }

    method ClassifyConnection(key: FiveTuple, app: AppType, sni: string)
      requires Valid() && key in connections
      modifies this`connections, this`classifiedCount
      ensures Valid() && connections == old(connections)[key := ClassifiedAs(old(connections)[key], app, sni)]
      ensures classifiedCount == old(classifiedCount) + if old(connections)[key].state == CLASSIFIED then 0 else 1
    {
      if connections[key].state != CLASSIFIED {
        Write(key, connections[key].(app := app, sni := sni, state := CLASSIFIED));
        classifiedCount := classifiedCount + 1;
      }
    }

    method BlockConnection(key: FiveTuple)
      requires Valid() && key in connections
      modifies this`connections, this`blockedCount
      ensures Valid() && connections == old(connections)[key := Blocked(old(connections)[key])]
      ensures blockedCount == old(blockedCount) + 1
    {
      Write(key, connections[key].(state := BLOCKED, action := DROP));
      blockedCount := blockedCount + 1;
    }

    method CloseConnection(tuple: FiveTuple)
      requires Valid()
      modifies this`connections
      ensures Valid() && connections.Keys == old(connections).Keys
      ensures forall k :: k in connections ==>
        connections[k] == if k == tuple.Canonical() then old(connections)[k].(state := CLOSED) else old(connections)[k]
    {
      var key := tuple.Canonical();
      if key in connections {
        Write(key, connections[key].(state := CLOSED));
      }
    }

    /** Erases records one by one while it walks over the table in any order. */
    method CleanupStale(now: nat, timeout: nat) returns (removed: nat)
      requires Valid()
      modifies this`connections, this`cleaned
      ensures Valid() && connections == Cleaned(old(connections), now, timeout)
      ensures removed == |old(connections)| - |connections| && cleaned == old(cleaned) + removed
    {
      var rest := connections.Keys;
      removed := 0;
      while rest != {}
        invariant PartlyCleaned(old(connections), connections, rest, now, timeout)
        invariant |connections| + removed == |old(connections)| && cleaned == old(cleaned) + removed
        decreases |rest|
      {
        var k :| k in rest;
        CleanOne(old(connections), connections, rest, k, now, timeout);
        rest := rest - {k};
        if Expired(connections[k], now, timeout) {
          connections := connections - {k};
          removed := removed + 1;
          cleaned := cleaned + 1;
        }
      }
      AllCleaned(old(connections), connections, now, timeout);
    }

    method Clear()
      requires Valid()
      modifies this`connections, this`cleared
      ensures Valid() && connections == map[] && cleared == old(cleared) + |old(connections)|
    {
      cleared := cleared + |connections|;
      connections := map[];
    }
  }
}
