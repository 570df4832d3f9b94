/** Eviction keeps the most recently used flows: the table against a plain recency list. */
module Lru {
  import opened Types
  import opened Connections
  import opened ConnTracker
  import opened FastPath

  // ---------------------------------------------------------------- the recency list

  function Without(keys: seq<FiveTuple>, k: FiveTuple): seq<FiveTuple> {
    if keys == [] then [] else if keys[0] == k then Without(keys[1..], k) else [keys[0]] + Without(keys[1..], k)
  }

  /** Those of the keys that are still in the table. */
  function Kept(keys: seq<FiveTuple>, seen: Clocks): seq<FiveTuple> {
    if keys == [] then [] else (if keys[0] in seen then [keys[0]] else []) + Kept(keys[1..], seen)
  }

  /** The flows of a run, last used first; a cleanup strikes out those that it leaves no record of. */
  function Recency(polls: seq<Poll>, ts: seq<Table>, n: nat): seq<FiveTuple>
    requires n <= |polls| && n < |ts|
  {
    if n == 0 then []
    else
      var before := Recency(polls, ts, n - 1);
      match polls[n - 1]
      case Packet(e) => Used(before, Key(e))
      case TimedOut(_) => Kept(before, ClocksOf(ts[n]))
  }

  function Min(a: nat, b: nat): nat {
    if a < b then a else b
  }

  predicate Distinct(keys: seq<FiveTuple>) {
    forall i, j :: 0 <= i < j < |keys| ==> keys[i] != keys[j]
  }

  lemma {:induction false} WithoutAbsent(keys: seq<FiveTuple>, k: FiveTuple)
    requires k !in keys
    ensures Without(keys, k) == keys
  {
    if keys != [] {
      WithoutAbsent(keys[1..], k);
    }
  }

  lemma {:induction false} WithoutAt(keys: seq<FiveTuple>, p: nat)
    requires Distinct(keys) && p < |keys|
    ensures Without(keys, keys[p]) == keys[..p] + keys[p + 1..]
  {
    if p == 0 {
      WithoutAbsent(keys[1..], keys[0]);
    } else {
      assert keys[1..][p - 1] == keys[p] && keys[0] != keys[p];
      WithoutAt(keys[1..], p - 1);
      assert Without(keys, keys[p]) == [keys[0]] + Without(keys[1..], keys[p]);
      assert keys[1..][..p - 1] == keys[1..p] && keys[1..][p..] == keys[p + 1..];
      assert keys[..p] == [keys[0]] + keys[1..p];
    }
  }

  /** What the list becomes when `k` is used: it moves to the front from wherever it was. */
  function Used(keys: seq<FiveTuple>, k: FiveTuple): seq<FiveTuple> {
    [k] + Without(keys, k)
  }

  /** Position `i` of the new list is one of the old one, no earlier than `i - 1`. */
  lemma UsedAt(keys: seq<FiveTuple>, k: FiveTuple, p: nat)
    requires Distinct(keys) && p <= |keys| && (if p < |keys| then keys[p] == k else k !in keys)
    ensures |Used(keys, k)| == (if p < |keys| then |keys| else |keys| + 1) && Used(keys, k)[0] == k
    ensures forall i :: 1 <= i < |Used(keys, k)| ==> Used(keys, k)[i] == keys[if i <= p then i - 1 else i]
    ensures Distinct(Used(keys, k))
  {
    if p < |keys| {
      WithoutAt(keys, p);
    } else {
      WithoutAbsent(keys, k);
    }
    var used := Used(keys, k);
    forall i | 1 <= i < |used| ensures used[i] == keys[if i <= p then i - 1 else i] {
      assert used[i] == Without(keys, k)[i - 1];
    }
  }

  // ---------------------------------------------------------------- the invariant

  /** When each record was last seen; the rest of the record plays no part in eviction. */
  type Clocks = map<FiveTuple, nat>

  function ClocksOf(t: Table): Clocks {
    map k | k in t :: t[k].lastSeen
  }

  predicate Before(seen: Clocks, now: nat) {
    forall k :: k in seen ==> seen[k] < now
  }

  /** The keys are the first of the list, as many as fit, and were last seen in the list's order. */
  predicate Covers(seen: Clocks, keys: seq<FiveTuple>, n: nat)
    requires n <= |keys|
  {
    && (forall i :: 0 <= i < n ==> keys[i] in seen)
    && (forall k :: k in seen ==> k in keys[..n])
  }

  predicate Ordered(seen: Clocks, keys: seq<FiveTuple>, n: nat)
    requires n <= |keys| && Covers(seen, keys, n)
  {
    forall i, j :: 0 <= i < j < n ==> seen[keys[i]] > seen[keys[j]]
  }

  predicate IsTop(seen: Clocks, keys: seq<FiveTuple>, n: nat) {
    Distinct(keys) && |seen| == n <= |keys| && Covers(seen, keys, n) && Ordered(seen, keys, n)
  }

  predicate IsLru(max: nat, seen: Clocks, keys: seq<FiveTuple>) {
    IsTop(seen, keys, Min(max, |keys|))
  }

  lemma SeenAgain(seen: Clocks, key: FiveTuple, now: nat)
    requires key in seen
    ensures |seen[key := now]| == |seen|
  {
  }

  lemma FoundAt(seen: Clocks, keys: seq<FiveTuple>, n: nat, k: FiveTuple) returns (i: nat)
    requires n <= |keys| && Covers(seen, keys, n) && k in seen
    ensures i < n && keys[i] == k
  {
    i :| 0 <= i < n && keys[..n][i] == k;
  }

  lemma MovedCovers(seen: Clocks, key: FiveTuple, now: nat, keys: seq<FiveTuple>, p: nat, n: nat)
    requires Distinct(keys) && p < n <= |keys| && keys[p] == key && Covers(seen, keys, n)
    ensures n <= |Used(keys, key)| && Covers(seen[key := now], Used(keys, key), n)
  {
    var used, seen' := Used(keys, key), seen[key := now];
    UsedAt(keys, key, p);
    forall k | k in seen' ensures k in used[..n] {
      var i := FoundAt(seen, keys, n, k);
      assert used[if i < p then i + 1 else if i == p then 0 else i] == k;
    }
  }

  lemma MovedOrder(seen: Clocks, key: FiveTuple, now: nat, keys: seq<FiveTuple>, p: nat, n: nat)
    requires p < n <= |keys| && keys[p] == key && IsTop(seen, keys, n) && Before(seen, now)
    requires n <= |Used(keys, key)| && Covers(seen[key := now], Used(keys, key), n)
    ensures Ordered(seen[key := now], Used(keys, key), n)
  {
    var used, seen' := Used(keys, key), seen[key := now];
    UsedAt(keys, key, p);
    forall i, j | 0 <= i < j < n ensures seen'[used[i]] > seen'[used[j]] {
      var j' := if j <= p then j - 1 else j;
      assert used[j] == keys[j'] && keys[j'] != key && seen'[used[j]] == seen[keys[j']];
      if i > 0 {
        var i' := if i <= p then i - 1 else i;
        assert used[i] == keys[i'] && keys[i'] != key && i' < j';
      }
    }
  }

  /** A flow in the table is used: it moves to the front and is seen later than all others. */
  lemma FrontMoves(max: nat, seen: Clocks, key: FiveTuple, now: nat, keys: seq<FiveTuple>, p: nat)
    requires IsLru(max, seen, keys) && Before(seen, now) && p < Min(max, |keys|) && keys[p] == key
    ensures IsLru(max, seen[key := now], Used(keys, key))
  {
    var n := Min(max, |keys|);
    UsedAt(keys, key, p);
    MovedCovers(seen, key, now, keys, p, n);
    SeenAgain(seen, key, now);
    MovedOrder(seen, key, now, keys, p, n);
  }

  lemma EnteredCovers(seen: Clocks, key: FiveTuple, now: nat, keys: seq<FiveTuple>, p: nat, n: nat)
    requires Distinct(keys) && n <= p <= |keys| && (if p < |keys| then keys[p] == key else key !in keys)
    requires Covers(seen, keys, n)
    ensures n < |Used(keys, key)| && Covers(seen[key := now], Used(keys, key), n + 1)
  {
    var used, seen' := Used(keys, key), seen[key := now];
    UsedAt(keys, key, p);
    forall k | k in seen' ensures k in used[..n + 1] {
      if k == key {
        assert used[0] == k;
      } else {
        var i := FoundAt(seen, keys, n, k);
        assert used[i + 1] == k;
      }
    }
  }

  lemma EnteredOrder(seen: Clocks, key: FiveTuple, now: nat, keys: seq<FiveTuple>, p: nat, n: nat)
    requires n <= p <= |keys| && (if p < |keys| then keys[p] == key else key !in keys)
    requires key !in seen && IsTop(seen, keys, n) && Before(seen, now)
    requires n < |Used(keys, key)| && Covers(seen[key := now], Used(keys, key), n + 1)
    ensures Ordered(seen[key := now], Used(keys, key), n + 1)
  {
    var used, seen' := Used(keys, key), seen[key := now];
    UsedAt(keys, key, p);
    forall i, j | 0 <= i < j < n + 1 ensures seen'[used[i]] > seen'[used[j]] {
      assert used[j] == keys[j - 1] && keys[j - 1] in seen && seen'[used[j]] == seen[keys[j - 1]];
      if i > 0 {
        assert used[i] == keys[i - 1] && keys[i - 1] in seen && seen'[used[i]] == seen[keys[i - 1]];
      }
    }
  }

  /** A new flow enters at the front of the `n` flows of a table. */
  lemma FrontEnters(seen: Clocks, key: FiveTuple, now: nat, keys: seq<FiveTuple>, p: nat, n: nat)
    requires n <= p <= |keys| && (if p < |keys| then keys[p] == key else key !in keys)
    requires key !in seen && IsTop(seen, keys, n) && Before(seen, now)
    ensures IsTop(seen[key := now], Used(keys, key), n + 1)
  {
    var used := Used(keys, key);
    UsedAt(keys, key, p);
    EnteredCovers(seen, key, now, keys, p, n);
    Grown(seen, key, now);
    EnteredOrder(seen, key, now, keys, p, n);
  }

  /** Without its last flow, the table covers one flow less. */
  lemma LastLeaves(seen: Clocks, keys: seq<FiveTuple>, n: nat)
    requires n >= 1 && IsTop(seen, keys, n)
    ensures keys[n - 1] in seen && IsTop(seen - {keys[n - 1]}, keys, n - 1)
  {
    var last := keys[n - 1];
    Shrunk(seen, last);
    LastUncovered(seen, keys, n, seen - {last});
    FewerAreOrdered(seen, keys, n, seen - {last}, n - 1);
  }

  lemma LastUncovered(seen: Clocks, keys: seq<FiveTuple>, n: nat, rest: Clocks)
    requires n >= 1 && Distinct(keys) && n <= |keys| && Covers(seen, keys, n) && rest == seen - {keys[n - 1]}
    ensures Covers(rest, keys, n - 1)
  {
    var before := n - 1;
    forall k | k in rest ensures k in keys[..before] {
      var i := FoundAt(seen, keys, n, k);
      assert keys[..before][i] == k;
    }
  }

  lemma FewerAreOrdered(seen: Clocks, keys: seq<FiveTuple>, n: nat, rest: Clocks, m: nat)
    requires m <= n <= |keys| && Covers(seen, keys, n) && Ordered(seen, keys, n) && Covers(rest, keys, m)
    requires forall k :: k in rest ==> k in seen && rest[k] == seen[k]
    ensures Ordered(rest, keys, m)
  {
  }

  /** The record with the smallest reading is the last of the list. */
  lemma OldestIsLast(seen: Clocks, keys: seq<FiveTuple>, n: nat, k: FiveTuple)
    requires 1 <= n <= |keys| && Covers(seen, keys, n) && Ordered(seen, keys, n)
    requires k in seen && forall j :: j in seen ==> seen[k] <= seen[j]
    ensures k == keys[n - 1]
  {
  }

  // ---------------------------------------------------------------- one packet

  lemma CountedClocks(m: Table, e: Event)
    requires Key(e) in m
    ensures ClocksOf(Counted(m, e)) == ClocksOf(m)[Key(e) := e.now]
  {
    ProcessingSetsClock(m[Key(e)], e);
  }

  /** Where a key stands in a list, or the end when it does not. */
  lemma Position(keys: seq<FiveTuple>, k: FiveTuple) returns (p: nat)
    ensures p <= |keys| && (if p < |keys| then keys[p] == k else k !in keys)
  {
    if k in keys {
      p :| 0 <= p < |keys| && keys[p] == k;
    } else {
      p := |keys|;
    }
  }

  /** The new record is not the oldest, as `other` was seen before it. */
  lemma OldestIsOld(t: Table, e: Event, k: FiveTuple, other: FiveTuple)
    requires Key(e) !in t && other in t && Before(ClocksOf(t), e.created)
    requires Oldest(t[Key(e) := NewConnection(e.job.tuple, e.created)], k)
    ensures k in t && forall j :: j in ClocksOf(t) ==> ClocksOf(t)[k] <= ClocksOf(t)[j]
  {
    var inserted := t[Key(e) := NewConnection(e.job.tuple, e.created)];
    assert other in inserted && inserted[other] == t[other] && ClocksOf(t)[other] < e.created;
    forall j | j in ClocksOf(t) ensures ClocksOf(t)[k] <= ClocksOf(t)[j] {
      assert j in inserted;
    }
  }

  lemma ClocksHaveSize(t: Table)
    ensures |ClocksOf(t)| == |t|
  {
    assert ClocksOf(t).Keys == t.Keys;
    assert |ClocksOf(t)| == |ClocksOf(t).Keys| && |t| == |t.Keys|;
  }

  lemma ClocksWithout(t: Table, k: FiveTuple, key: FiveTuple, c: Connection)
    requires k != key
    ensures ClocksOf(t[key := c] - {k}) == (ClocksOf(t) - {k})[key := c.lastSeen]
  {
  }

  /** What entering a new flow does to the readings: the oldest one goes if the table was full. */
  lemma EnteringClocks(max: nat, t: Table, e: Event, m: Table, keys: seq<FiveTuple>)
    requires max >= 1 && IsLru(max, ClocksOf(t), keys) && Before(ClocksOf(t), e.created)
    requires Key(e) !in t && Entering(max, t, e.job.tuple, e.created, m)
    ensures Key(e) in m && |t| <= max
    ensures |t| < max ==> ClocksOf(m) == ClocksOf(t)[Key(e) := e.created]
    ensures |t| == max ==> |keys| >= max && ClocksOf(m) == (ClocksOf(t) - {keys[max - 1]})[Key(e) := e.created]
  {
    var key, c := Key(e), NewConnection(e.job.tuple, e.created);
    Grown(t, key, c);
    ClocksHaveSize(t);
    if |t| < max {
      assert m == t[key := c];
    } else {
      var k :| Oldest(t[key := c], k) && m == t[key := c] - {k};
      OldestIsOld(t, e, k, keys[0]);
      OldestIsLast(ClocksOf(t), keys, max, k);
      ClocksWithout(t, k, key, c);
    }
  }

  /** A key that the table does not hold stands behind those it does, or nowhere. */
  lemma AbsentIsBehind(seen: Clocks, keys: seq<FiveTuple>, n: nat, key: FiveTuple) returns (p: nat)
    requires IsTop(seen, keys, n) && key !in seen
    ensures n <= p <= |keys| && (if p < |keys| then keys[p] == key else key !in keys)
  {
    p := Position(keys, key);
  }

  lemma SeenTwice(seen: Clocks, key: FiveTuple, created: nat, now: nat)
    ensures var entered: Clocks := seen[key := created]; entered[key := now] == seen[key := now]
  {
  }

  lemma NewFlowFits(max: nat, seen: Clocks, key: FiveTuple, now: nat, keys: seq<FiveTuple>)
    requires IsLru(max, seen, keys) && Before(seen, now) && key !in seen && |seen| < max
    ensures IsLru(max, seen[key := now], Used(keys, key))
  {
    var p := AbsentIsBehind(seen, keys, |keys|, key);
    UsedAt(keys, key, p);
    FrontEnters(seen, key, now, keys, p, |keys|);
  }

  lemma NewFlowEvicts(max: nat, seen: Clocks, key: FiveTuple, now: nat, keys: seq<FiveTuple>)
    requires max >= 1 && IsLru(max, seen, keys) && Before(seen, now) && key !in seen && |seen| == max <= |keys|
    ensures IsLru(max, (seen - {keys[max - 1]})[key := now], Used(keys, key))
  {
    var p := AbsentIsBehind(seen, keys, max, key);
    LastLeaves(seen, keys, max);
    FrontEnters(seen - {keys[max - 1]}, key, now, keys, p, max - 1);
    UsedAt(keys, key, p);
    assert Min(max, |Used(keys, key)|) == max;
  }

  lemma NewFlowStep(max: nat, t: Table, e: Event, m: Table, keys: seq<FiveTuple>)
    requires max >= 1 && IsLru(max, ClocksOf(t), keys) && Before(ClocksOf(t), e.created) && e.created <= e.now
    requires Key(e) !in t && Entering(max, t, e.job.tuple, e.created, m)
    ensures Key(e) in m && IsLru(max, ClocksOf(Counted(m, e)), Used(keys, Key(e)))
  {
    var seen, key := ClocksOf(t), Key(e);
    EnteringClocks(max, t, e, m, keys);
    CountedClocks(m, e);
    ClocksHaveSize(t);
    if |t| < max {
      SeenTwice(seen, key, e.created, e.now);
      NewFlowFits(max, seen, key, e.now, keys);
    } else {
      SeenTwice(seen - {keys[max - 1]}, key, e.created, e.now);
      NewFlowEvicts(max, seen, key, e.now, keys);
    }
  }

  lemma LruStep(max: nat, t: Table, e: Event, t': Table, keys: seq<FiveTuple>)
    requires max >= 1 && IsLru(max, ClocksOf(t), keys) && Before(ClocksOf(t), e.created) && e.created <= e.now && PollStep(max, t, Packet(e), t')
    ensures IsLru(max, ClocksOf(t'), Used(keys, Key(e))) && Key(e) in t'
  {
    var m :| Entering(max, t, e.job.tuple, e.created, m) && t' == Counted(m, e);
    if Key(e) in t {
      var i := FoundAt(ClocksOf(t), keys, Min(max, |keys|), Key(e));
      CountedClocks(t, e);
      FrontMoves(max, ClocksOf(t), Key(e), e.now, keys, i);
    } else {
      NewFlowStep(max, t, e, m, keys);
    }
  }

  // ---------------------------------------------------------------- one cleanup

  /** Of the keys in the table, each was seen later than those behind it. */
  predicate Falling(keys: seq<FiveTuple>, seen: Clocks) {
    forall i, j :: 0 <= i < j < |keys| && keys[i] in seen && keys[j] in seen ==> seen[keys[i]] > seen[keys[j]]
  }

  lemma TopIsFalling(seen: Clocks, keys: seq<FiveTuple>, n: nat)
    requires IsTop(seen, keys, n)
    ensures Falling(keys, seen) && forall k :: k in seen ==> k in keys
  {
    forall j | 0 <= j < |keys| && keys[j] in seen ensures j < n {
      var i := FoundAt(seen, keys, n, keys[j]);
    }
  }

  /** Striking out keys leaves the others in their order. */
  lemma {:induction false} KeptFalls(keys: seq<FiveTuple>, seen: Clocks)
    requires Falling(keys, seen)
    ensures var kept := Kept(keys, seen); forall k :: k in kept <==> k in keys && k in seen
    ensures var kept := Kept(keys, seen); forall i :: 0 <= i < |kept| ==> kept[i] in seen
    ensures var kept := Kept(keys, seen); forall i, j :: 0 <= i < j < |kept| ==> seen[kept[i]] > seen[kept[j]]
  {
    if keys != [] {
      var rest := Kept(keys[1..], seen);
      assert forall i :: 0 <= i < |keys| - 1 ==> keys[1..][i] == keys[i + 1];
      KeptFalls(keys[1..], seen);
      assert Kept(keys, seen) == (if keys[0] in seen then [keys[0]] else []) + rest;
      assert forall i :: 0 <= i < |rest| ==> rest[i] in keys[1..];
    }
  }

  lemma {:induction false} DistinctKeysCount(keys: seq<FiveTuple>, seen: Clocks)
    requires Distinct(keys) && forall k :: k in keys <==> k in seen
    ensures |keys| == |seen|
    decreases |keys|
  {
    if keys == [] {
      assert seen == map[];
    } else {
      var n := |keys| - 1;
      var last := keys[n];
      forall k ensures k in keys[..n] <==> k in seen && k != last {
        assert k in keys <==> k in keys[..n] || k == last by {
          assert keys == keys[..n] + [last];
        }
        assert last !in keys[..n];
      }
      Shrunk(seen, last);
      DistinctKeysCount(keys[..n], seen - {last});
    }
  }

  lemma FallingIsTop(keys: seq<FiveTuple>, seen: Clocks)
    requires forall k :: k in keys <==> k in seen
    requires forall i, j :: 0 <= i < j < |keys| ==> seen[keys[i]] > seen[keys[j]]
    ensures IsTop(seen, keys, |keys|)
  {
    DistinctKeysCount(keys, seen);
    assert keys[..|keys|] == keys;
  }

  lemma KeptIsTop(seen: Clocks, keys: seq<FiveTuple>, n: nat, rest: Clocks)
    requires IsTop(seen, keys, n) && forall k :: k in rest ==> k in seen && rest[k] == seen[k]
    ensures IsTop(rest, Kept(keys, rest), |Kept(keys, rest)|)
  {
    TopIsFalling(seen, keys, n);
    assert Falling(keys, rest);
    KeptFalls(keys, rest);
    FallingIsTop(Kept(keys, rest), rest);
  }

  lemma FewerKeys(seen: Clocks, rest: Clocks)
    requires forall k :: k in rest ==> k in seen
    ensures |rest| <= |seen|
  {
    assert seen.Keys == rest.Keys + (seen.Keys - rest.Keys);
    assert |rest.Keys| == |rest| && |seen.Keys| == |seen|;
  }

  lemma CleanupStep(max: nat, t: Table, now: nat, t': Table, keys: seq<FiveTuple>)
    requires IsLru(max, ClocksOf(t), keys) && PollStep(max, t, TimedOut(now), t')
    ensures IsLru(max, ClocksOf(t'), Kept(keys, ClocksOf(t')))
  {
    KeptIsTop(ClocksOf(t), keys, Min(max, |keys|), ClocksOf(t'));
    FewerKeys(ClocksOf(t), ClocksOf(t'));
  }

  // ---------------------------------------------------------------- the theorem

  /** The clock never runs backwards while a packet is processed, and moves on between packets. */
  predicate Steady(polls: seq<Poll>) {
    Ticking(polls) && forall i :: 0 <= i < |polls| && polls[i].Packet? ==> polls[i].event.created <= polls[i].event.now
  }

  lemma StepKeepsRecency(max: nat, polls: seq<Poll>, ts: seq<Table>, n: nat)
    requires max >= 1 && IsTrace(max, polls, ts) && Steady(polls) && n < |polls|
    requires IsLru(max, ClocksOf(ts[n]), Recency(polls, ts, n))
    ensures IsLru(max, ClocksOf(ts[n + 1]), Recency(polls, ts, n + 1))
    ensures polls[n].Packet? ==> Key(polls[n].event) in ts[n + 1]
  {
    assert PollStep(max, ts[n], polls[n], ts[n + 1]);
    match polls[n]
    case TimedOut(now) =>
      CleanupStep(max, ts[n], now, ts[n + 1], Recency(polls, ts, n));
    case Packet(e) =>
      TraceIsSeenBefore(max, polls, ts, n, e.created);
      LruStep(max, ts[n], e, ts[n + 1], Recency(polls, ts, n));
  }

  /**
   With room for at least one record and a clock that ticks between packets, the table holds at all
   times exactly the most recently used flows that no cleanup has struck out, as many as there are or
   as fit, and the record that a packet is processed on is still there afterwards.
   */
  lemma {:induction false} TableIsRecencyList(max: nat, polls: seq<Poll>, ts: seq<Table>, n: nat)
    requires max >= 1 && IsTrace(max, polls, ts) && Steady(polls) && n <= |polls|
    ensures IsLru(max, ClocksOf(ts[n]), Recency(polls, ts, n))
    ensures n > 0 && polls[n - 1].Packet? ==> Key(polls[n - 1].event) in ts[n]
  {
    if n == 0 {
      assert ClocksOf(ts[0]) == map[];
    } else {
      TableIsRecencyList(max, polls, ts, n - 1);
      StepKeepsRecency(max, polls, ts, n - 1);
    }
  }
}
