/** The table of a fast path holds, for each flow, the record of that flow's own packets since it was last entered. */
module Histories {
  import opened Types
  import opened Connections
  import opened ConnTracker
  import opened FastPath
  import opened FlowHistory

  function Find(t: Table, key: FiveTuple): Option<Connection> {
    if key in t then Some(t[key]) else None
  }

  /** The record that these packets of a flow make; none if there are none. */
  function RecordOf(own: seq<Event>): Option<Connection> {
    if own == [] then None else Some(After(own[0].job.tuple, own[0].created, own))
  }

  /** Poll `n` brings a packet of the flow, in either direction. */
  predicate IsOwn(polls: seq<Poll>, key: FiveTuple, n: nat)
    requires n < |polls|
  {
    polls[n].Packet? && Key(polls[n].event) == key
  }

  /** The flow's packets among the first `n` polls since its record was last entered, none while it has no record. */
  function Since(polls: seq<Poll>, ts: seq<Table>, key: FiveTuple, n: nat): seq<Event>
    requires n <= |polls| && n < |ts|
  {
    if n == 0 || key !in ts[n] then []
    else Since(polls, ts, key, n - 1) + if IsOwn(polls, key, n - 1) then [polls[n - 1].event] else []
  }

  lemma AfterOneMore(first: FiveTuple, created: nat, own: seq<Event>, e: Event)
    ensures After(first, created, own + [e]) == Processed(e.env, After(first, created, own), e.job, e.now)
  {
    assert (own + [e])[..|own|] == own;
  }

  /** The next packet of a flow extends its history by one. */
  lemma RecordOne(t: Table, own: seq<Event>, e: Event)
    requires Find(t, Key(e)) == RecordOf(own)
    ensures RecordOf(own + [e]) == Some(Processed(e.env, RecordFor(t, e), e.job, e.now))
  {
    var first := (own + [e])[0];
    AfterOneMore(first.job.tuple, first.created, own, e);
  }

  /** A poll does nothing to a record that is in the table before and after, unless it brings a packet of the flow. */
  lemma OthersKeepRecord(max: nat, t: Table, p: Poll, t': Table, key: FiveTuple)
    requires PollStep(max, t, p, t') && key in t' && !(p.Packet? && Key(p.event) == key)
    ensures Find(t', key) == Find(t, key)
  {
  }

  /** A packet of the flow is processed on its record, or else on a new one. */
  lemma OwnPacketChangesRecord(max: nat, t: Table, e: Event, t': Table)
    requires PollStep(max, t, Packet(e), t') && Key(e) in t'
    ensures t'[Key(e)] == Processed(e.env, RecordFor(t, e), e.job, e.now)
  {
  }

  /**
   Whatever flows are mixed in a run, and whatever evictions and cleanups it goes through, each record
   is that of its own flow's packets since it was entered.
   */
  lemma {:induction false} TableHoldsHistories(max: nat, polls: seq<Poll>, ts: seq<Table>, key: FiveTuple, n: nat)
    requires IsTrace(max, polls, ts) && n <= |polls|
    ensures Find(ts[n], key) == RecordOf(Since(polls, ts, key, n))
  {
    if n > 0 && key in ts[n] {
      TableHoldsHistories(max, polls, ts, key, n - 1);
      var before, p := Since(polls, ts, key, n - 1), polls[n - 1];
      if IsOwn(polls, key, n - 1) {
        RecordOne(ts[n - 1], before, p.event);
        OwnPacketChangesRecord(max, ts[n - 1], p.event, ts[n]);
      } else {
        assert before + [] == before;
        OthersKeepRecord(max, ts[n - 1], p, ts[n], key);
      }
    }
  }

  /** All these packets carry the flow's tuple in one direction or the other. */
  lemma {:induction false} SinceIsOfFlow(polls: seq<Poll>, ts: seq<Table>, key: FiveTuple, n: nat)
    requires n <= |polls| && n < |ts|
    ensures forall i :: 0 <= i < |Since(polls, ts, key, n)| ==> Key(Since(polls, ts, key, n)[i]) == key
  {
    if n > 0 && key in ts[n] {
      SinceIsOfFlow(polls, ts, key, n - 1);
    }
  }

  lemma SameKeyIsOneFlow(own: seq<Event>, key: FiveTuple)
    requires own != [] && forall i :: 0 <= i < |own| ==> Key(own[i]) == key
    ensures OneFlow(own[0].job.tuple, own)
  {
    forall i | 0 <= i < |own| ensures own[i].job.tuple == own[0].job.tuple || own[i].job.tuple == own[0].job.tuple.Reverse() {
      CanonicalIdentifiesFlow(own[i].job.tuple, own[0].job.tuple);
    }
  }

  /**
   So packets and bytes out are, since the record was entered, those of the packets with the tuple of the
   first one, and packets and bytes in those of the others, which have its reverse.
   */
  lemma CountersSplitByDirectionSince(max: nat, polls: seq<Poll>, ts: seq<Table>, key: FiveTuple, n: nat)
    requires IsTrace(max, polls, ts) && n <= |polls| && key in ts[n]
    ensures var c, own := ts[n][key], Since(polls, ts, key, n);
      && own != [] && c.tuple == own[0].job.tuple && c.firstSeen == own[0].created && OneFlow(c.tuple, own)
      && c.packetsOut == CountWay(c.tuple, own, true) && c.packetsIn == CountWay(c.tuple, own, false)
      && c.bytesOut == BytesWay(c.tuple, own, true) && c.bytesIn == BytesWay(c.tuple, own, false)
      && c.packetsOut + c.packetsIn == |own|
  {
    TableHoldsHistories(max, polls, ts, key, n);
    SinceIsOfFlow(polls, ts, key, n);
    var own := Since(polls, ts, key, n);
    SameKeyIsOneFlow(own, key);
    CountersSplitByDirection(own[0].job.tuple, own[0].created, own);
  }

  /** Some packet of the flow, the last one included, met a rule, and no later one closed the flow. */
  ghost predicate LastIsHeld(own: seq<Event>)
    requires own != []
  {
    Held(Matches(own[0].job.tuple, own[0].created, own), Closings(own), |own| - 1)
  }

  lemma JudgedByHistory(t: Table, own: seq<Event>, e: Event)
    requires Find(t, Key(e)) == RecordOf(own)
    ensures Verdict(t, e) == DROP <==> LastIsHeld(own + [e])
  {
    var all := own + [e];
    assert all[..|own|] == own;
    DroppedIffHeld(all[0].job.tuple, all[0].created, all, |own|);
  }

  /** And each packet of a mixed run is judged by its own flow's packets since the record was entered. */
  lemma NextIsDroppedIffHeld(max: nat, polls: seq<Poll>, ts: seq<Table>, n: nat, e: Event)
    requires IsTrace(max, polls, ts) && n <= |polls|
    ensures Verdict(ts[n], e) == DROP <==> LastIsHeld(Since(polls, ts, Key(e), n) + [e])
  {
    TableHoldsHistories(max, polls, ts, Key(e), n);
    JudgedByHistory(ts[n], Since(polls, ts, Key(e), n), e);
  }

  /** The packets of one flow among the first `n` polls, both directions, in order. */
  function Own(polls: seq<Poll>, key: FiveTuple, n: nat): seq<Event>
    requires n <= |polls|
  {
    if n == 0 then [] else Own(polls, key, n - 1) + if IsOwn(polls, key, n - 1) then [polls[n - 1].event] else []
  }

  /** The flow's record is entered with its first packet and never leaves. */
  predicate NeverLeaves(polls: seq<Poll>, ts: seq<Table>, key: FiveTuple, n: nat)
    requires n <= |polls| && n < |ts|
  {
    forall i :: 0 <= i < n && (key in ts[i] || IsOwn(polls, key, i)) ==> key in ts[i + 1]
  }

  /** Of a flow that was neither evicted nor cleaned up, these are all its packets. */
  lemma {:induction false} SinceIsAll(polls: seq<Poll>, ts: seq<Table>, key: FiveTuple, n: nat)
    requires n <= |polls| && n < |ts| && NeverLeaves(polls, ts, key, n)
    ensures Since(polls, ts, key, n) == Own(polls, key, n)
  {
    if n > 0 {
      SinceIsAll(polls, ts, key, n - 1);
      if key !in ts[n] {
        assert key !in ts[n - 1] && !IsOwn(polls, key, n - 1);
        assert Since(polls, ts, key, n - 1) == [];
      }
    }
  }
}
