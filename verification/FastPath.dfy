/** The fast path of the modular engine: a packet is looked up, counted, inspected and judged, step by step on its record. */
module FastPath {
  import opened Types
  import opened Frames
  import opened Rules
  import opened Connections
  import opened ConnTracker
  import TlsSni
  import HttpHost
  import Dns

  // ---------------------------------------------------------------- a run on values

  /** What the polling loop gets: a packet, or nothing before the timeout. */
  datatype Poll = Packet(event: Event) | TimedOut(now: nat)

  const IDLE_LIMIT := 300

  function Key(e: Event): FiveTuple {
    e.job.tuple.Canonical()
  }

  /** The record that a packet is processed on: the one in the table, or a new one. */
  function RecordFor(t: Table, e: Event): Connection {
    if Key(e) in t then t[Key(e)] else NewConnection(e.job.tuple, e.created)
  }

  function Verdict(t: Table, e: Event): Action {
    ActionOn(e.env, RecordFor(t, e), e.job, e.now)
  }

  /** The packet is processed on its record, unless that was evicted on the spot. */
  function Counted(m: Table, e: Event): Table {
    if Key(e) in m then m[Key(e) := Processed(e.env, m[Key(e)], e.job, e.now)] else m
  }

  /** One poll of a table of at most `max` records. */
  ghost predicate PollStep(max: nat, t: Table, p: Poll, t': Table) {
    match p
    case TimedOut(now) => t' == Cleaned(t, now, IDLE_LIMIT)
    case Packet(e) => exists m :: Entering(max, t, e.job.tuple, e.created, m) && t' == Counted(m, e)
  }

  /** The tables before, between and after the polls of a run from an empty table. */
  ghost predicate IsTrace(max: nat, polls: seq<Poll>, ts: seq<Table>) {
    && |ts| == |polls| + 1 && ts[0] == map[]
    && forall i :: 0 <= i < |polls| ==> PollStep(max, ts[i], polls[i], ts[i + 1])
  }

  function DropsAlong(polls: seq<Poll>, ts: seq<Table>, n: nat): nat
    requires n <= |polls| && n <= |ts|
  {
    if n == 0 then 0
    else
      var p := polls[n - 1];
      DropsAlong(polls, ts, n - 1) + if p.Packet? && Verdict(ts[n - 1], p.event) == DROP then 1 else 0
  }

  /** The table after one poll when there is no limit. */
  function TableStep(t: Table, p: Poll): Table {
    match p
    case TimedOut(now) => Cleaned(t, now, IDLE_LIMIT)
    case Packet(e) => t[Key(e) := Processed(e.env, RecordFor(t, e), e.job, e.now)]
  }

  lemma WriteTwice(t: Table, key: FiveTuple, first: Connection, second: Connection)
    ensures t[key := first][key := second] == t[key := second]
  {
    var twice, once := t[key := first][key := second], t[key := second];
    assert twice.Keys == once.Keys;
    assert forall k :: k in once ==> twice[k] == once[k];
  }

  /** A poll that times out keeps exactly the records that are not closed and were seen less than 301 seconds ago. */
  lemma TimeoutKeepsFresh(max: nat, t: Table, now: nat, t': Table, k: FiveTuple)
    requires PollStep(max, t, TimedOut(now), t')
    ensures k in t' <==> k in t && t[k].state != CLOSED && now < t[k].lastSeen + 301_000_000_000
  {
    CleanedKeeps(t, now, 300, k);
  }

  /** Below the limit, the limit makes no difference. */
  lemma StepWithoutEviction(max: nat, t: Table, p: Poll, t': Table)
    requires PollStep(max, t, p, t') && |TableStep(t, p)| <= max
    ensures t' == TableStep(t, p)
  {
    if p.Packet? {
      var e := p.event;
      var inserted := t[Key(e) := NewConnection(e.job.tuple, e.created)];
      assert Key(e) !in t ==> inserted.Keys == TableStep(t, p).Keys;
      assert |inserted| == |inserted.Keys| && |TableStep(t, p)| == |TableStep(t, p).Keys|;
      WriteTwice(t, Key(e), NewConnection(e.job.tuple, e.created), Processed(e.env, RecordFor(t, e), e.job, e.now));
    }
  }

  // ---------------------------------------------------------------- the record in use

  /** Eviction cannot take the record that packet `e` is about to use, whatever order the scan takes. */
  predicate RecordIsSafe(max: nat, t: Table, e: Event) {
    Key(e) in t || |t| < max || exists j :: j in t && t[j].lastSeen < e.created
  }

  lemma NewRecordStays(max: nat, t: Table, e: Event, t': Table)
    requires RecordIsSafe(max, t, e) && Entering(max, t, e.job.tuple, e.created, t')
    ensures Key(e) in t' && t'[Key(e)] == RecordFor(t, e)
  {
    if Key(e) !in t {
      NewRecordMayBeEvicted(max, t, e.job.tuple, e.created);
    }
  }

  /** In no run of these polls can a packet's record be evicted before it is used. */
  ghost predicate RecordsAreSafe(max: nat, polls: seq<Poll>) {
    forall n, ts :: 0 <= n < |polls| && polls[n].Packet? && IsTrace(max, polls[..n], ts) ==> RecordIsSafe(max, ts[n], polls[n].event)
  }

  /** The clock moves on between packets. */
  predicate Ticking(polls: seq<Poll>) {
    forall i, j :: 0 <= i < j < |polls| && polls[i].Packet? && polls[j].Packet? ==> polls[i].event.now < polls[j].event.created
  }

  predicate SeenBefore(t: Table, now: nat) {
    forall k :: k in t ==> t[k].lastSeen < now
  }

  lemma ProcessingSetsClock(c: Connection, e: Event)
    ensures Processed(e.env, c, e.job, e.now).lastSeen == e.now
  {
    TcpKeepsCounters(Updated(c, |e.job.data|, IsOutbound(c, e.job.tuple), e.now), e.job.tcpFlags);
    JudgingKeepsCounters(e.env, Entered(c, e.job, e.now), e.job);
  }

  lemma SeenBeforeStep(max: nat, t: Table, p: Poll, t': Table, later: nat)
    requires PollStep(max, t, p, t') && SeenBefore(t, later) && (p.Packet? ==> p.event.now < later)
    ensures SeenBefore(t', later)
  {
    if p.Packet? {
      var e := p.event;
      var m :| Entering(max, t, e.job.tuple, e.created, m) && t' == Counted(m, e);
      if Key(e) in m {
        ProcessingSetsClock(m[Key(e)], e);
      }
      assert forall k :: k in t' && k != Key(e) ==> k in t && t'[k] == t[k];
    }
  }

  lemma {:induction false} TraceIsSeenBefore(max: nat, polls: seq<Poll>, ts: seq<Table>, n: nat, later: nat)
    requires IsTrace(max, polls, ts) && n <= |polls|
    requires forall i :: 0 <= i < n && polls[i].Packet? ==> polls[i].event.now < later
    ensures SeenBefore(ts[n], later)
  {
    if n > 0 {
      TraceIsSeenBefore(max, polls, ts, n - 1, later);
      SeenBeforeStep(max, ts[n - 1], polls[n - 1], ts[n], later);
    }
  }

  /** With room for one record, a clock that moves on is enough. */
  lemma TickingKeepsRecordsSafe(max: nat, polls: seq<Poll>)
    requires max >= 1 && Ticking(polls)
    ensures RecordsAreSafe(max, polls)
  {
    forall n, ts | 0 <= n < |polls| && polls[n].Packet? && IsTrace(max, polls[..n], ts)
      ensures RecordIsSafe(max, ts[n], polls[n].event)
    {
      TraceIsSeenBefore(max, polls[..n], ts, n, polls[n].event.created);
      NonEmptyHasKey(ts[n]);
    }
  }

  lemma NonEmptyHasKey(t: Table)
    ensures |t| > 0 ==> exists j :: j in t
  {
    if t.Keys == {} {
      assert t == map[];
    }
  }

  /**
   And it is needed: two packets of different flows at one reading of the clock, in a table for one
   record, and the second packet's record can be gone before it is used.
   */
  lemma CoincidingReadingsAreUnsafe(first: Event, second: Event)
    requires Key(first) != Key(second) && second.created <= first.now
    ensures !RecordsAreSafe(1, [Packet(first), Packet(second)])
  {
    var polls := [Packet(first), Packet(second)];
    var one := TableStep(map[], Packet(first));
    ProcessingSetsClock(RecordFor(map[], first), first);
    assert Entering(1, map[], first.job.tuple, first.created, map[Key(first) := RecordFor(map[], first)]);
    assert one == Counted(map[Key(first) := RecordFor(map[], first)], first);
    assert PollStep(1, map[], polls[0], one);
    assert IsTrace(1, polls[..1], [map[], one]);
    assert !RecordIsSafe(1, one, second);
  }

  /** The two halves of `processPacket` make one step. */
  lemma EnteredThenJudged(t: Table, e: Event, entered: Table, action: Action, t': Table)
    requires Key(e) in entered && entered[Key(e)] == RecordFor(t, e)
    requires var c := Entered(entered[Key(e)], e.job, e.now);
      && action == (if Dropped(e.env, c, e.job) then DROP else FORWARD)
      && t' == entered[Key(e) := c][Key(e) := Judged(e.env, c, e.job)]
    ensures action == Verdict(t, e) && t' == Counted(entered, e)
  {
    var c := Entered(entered[Key(e)], e.job, e.now);
    WriteTwice(entered, Key(e), c, Judged(e.env, c, e.job));
  }

  // ---------------------------------------------------------------- runs, poll by poll

  /** `ts` are the tables of the first `n` polls, the last one is `t`, and so many packets were dropped. */
  ghost predicate RunsAlong(polls: seq<Poll>, n: nat, ts: seq<Table>, max: nat, t: Table, drops: nat) {
    n <= |polls| && IsTrace(max, polls[..n], ts) && t == ts[n] && drops == DropsAlong(polls, ts, n)
  }

  lemma SafeNow(max: nat, polls: seq<Poll>, n: nat, ts: seq<Table>)
    requires RecordsAreSafe(max, polls) && n < |polls| && polls[n].Packet? && IsTrace(max, polls[..n], ts)
    ensures RecordIsSafe(max, ts[n], polls[n].event)
  {
  }

  lemma TraceOneOn(max: nat, polls: seq<Poll>, n: nat, ts: seq<Table>, t: Table)
    requires n < |polls| && IsTrace(max, polls[..n], ts) && PollStep(max, ts[n], polls[n], t)
    ensures IsTrace(max, polls[..n + 1], ts + [t])
    ensures DropsAlong(polls, ts + [t], n + 1) == DropsAlong(polls, ts, n + 1)
  {
    DropsAgree(polls, ts, t, n + 1);
  }

  lemma {:induction false} DropsAgree(polls: seq<Poll>, ts: seq<Table>, t: Table, n: nat)
    requires n <= |polls| && n <= |ts|
    ensures DropsAlong(polls, ts + [t], n) == DropsAlong(polls, ts, n)
  {
    if n > 0 {
      DropsAgree(polls, ts, t, n - 1);
    }
  }

  // ---------------------------------------------------------------- the processor

  class FastPathProcessor {
    const tracker: ConnectionTracker
    const rules: RuleManager?
    const names: string -> AppType
    var processed: nat
    var forwarded: nat
    var dropped: nat
    var sniExtractions: nat
    var classificationHits: nat

    ghost predicate Valid()
      reads this, tracker
    {
      tracker.Valid() && processed == forwarded + dropped
    }

    function CurrentEnv(): Env
      reads if rules == null then {} else {rules}
    {
      Env(names, if rules == null then None else Some(rules.View()))
    }

    constructor (tracker: ConnectionTracker, rules: RuleManager?, names: string -> AppType)
      requires tracker.Valid()
      ensures Valid() && this.tracker == tracker && this.rules == rules && this.names == names && processed == 0
    {
      this.tracker, this.rules, this.names := tracker, rules, names;
      processed, forwarded, dropped, sniExtractions, classificationHits := 0, 0, 0, 0, 0;
    }

    /** The flags one by one, each written to the record as it is seen. */
    method UpdateTcpState(key: FiveTuple, flags: byte)
      requires tracker.Valid() && key in tracker.connections
      modifies tracker`connections
      ensures tracker.Valid()
      ensures tracker.connections == old(tracker.connections)[key := TcpStep(old(tracker.connections)[key], flags)]
      ensures FlagsTaken(old(tracker.connections)[key], tracker.connections[key], flags)
    {
      var c := tracker.connections[key];
      if Has(flags, SYN) {
        if Has(flags, ACK) {
          c := c.(synAckSeen := true);
        } else {
          c := c.(synSeen := true);
        }
      }
      if c.synSeen && c.synAckSeen && Has(flags, ACK) {
        if c.state == NEW {
          c := c.(state := ESTABLISHED);
        }
      }
      if Has(flags, FIN) {
        c := c.(finSeen := true);
      }
      if Has(flags, RST) {
        c := c.(state := CLOSED);
      }
      if c.finSeen && Has(flags, ACK) {
        c := c.(state := CLOSED);
      }
      TcpKeepsCounters(tracker.connections[key], flags);
      tracker.Write(key, c);
    }

    method TryExtractSni(job: Job, key: FiveTuple) returns (found: bool)
      requires tracker.Valid() && key in tracker.connections
      modifies this`sniExtractions, this`classificationHits, tracker`connections, tracker`classifiedCount
      ensures tracker.Valid() && found == SniIn(job).Some?
      ensures tracker.connections ==
        if found then old(tracker.connections)[key := ClassifiedAs(old(tracker.connections)[key], names(Chars(SniIn(job).value)), Chars(SniIn(job).value))]
        else old(tracker.connections)
      ensures sniExtractions == old(sniExtractions) + if found then 1 else 0
      ensures classificationHits == old(classificationHits)
        + if found && names(Chars(SniIn(job).value)) != UNKNOWN && names(Chars(SniIn(job).value)) != HTTPS then 1 else 0
    {
      if job.tuple.dstPort != 443 && job.payloadLength < 50 {
        return false;
      }
      if job.payloadOffset >= |job.data| || job.payloadLength == 0 {
        return false;
      }
      var sni := TlsSni.Extract(PayloadOf(job));
      if sni.None? {
        return false;
      }
      sniExtractions := sniExtractions + 1;
      var app := names(sni.value);
      tracker.ClassifyConnection(key, app, sni.value);
      if app != UNKNOWN && app != HTTPS {
        classificationHits := classificationHits + 1;
      }
      found := true;
    }

    method TryExtractHttpHost(job: Job, key: FiveTuple) returns (found: bool)
      requires tracker.Valid() && key in tracker.connections
      modifies this`classificationHits, tracker`connections, tracker`classifiedCount
      ensures tracker.Valid() && found == HostIn(job).Some?
      ensures tracker.connections ==
        if found then old(tracker.connections)[key := ClassifiedAs(old(tracker.connections)[key], names(Chars(HostIn(job).value)), Chars(HostIn(job).value))]
        else old(tracker.connections)
      ensures classificationHits == old(classificationHits)
        + if found && names(Chars(HostIn(job).value)) != UNKNOWN && names(Chars(HostIn(job).value)) != HTTP then 1 else 0
    {
      if job.tuple.dstPort != 80 {
        return false;
      }
      if job.payloadOffset >= |job.data| || job.payloadLength == 0 {
        return false;
      }
      var host := HttpHost.Extract(PayloadOf(job));
      if host.None? {
        return false;
      }
      var app := names(host.value);
      tracker.ClassifyConnection(key, app, host.value);
      if app != UNKNOWN && app != HTTP {
        classificationHits := classificationHits + 1;
      }
      found := true;
    }

    method InspectPayload(job: Job, key: FiveTuple)
      requires tracker.Valid() && key in tracker.connections
      modifies this`sniExtractions, this`classificationHits, tracker`connections, tracker`classifiedCount
      ensures tracker.Valid()
      ensures tracker.connections == old(tracker.connections)[key := Inspected(Env(names, None), job, old(tracker.connections)[key])]
    {
      if job.payloadLength == 0 || job.payloadOffset >= |job.data| {
        return;
      }
      var found := TryExtractSni(job, key);
      if found {
        return;
      }
      found := TryExtractHttpHost(job, key);
      if found {
        return;
      }
      if job.tuple.dstPort == 53 || job.tuple.srcPort == 53 {
        var domain := Dns.ExtractQuery(PayloadOf(job));
        if domain.Some? {
          tracker.ClassifyConnection(key, DNS, domain.value);
          return;
        }
      }
      if job.tuple.dstPort == 80 {
        tracker.ClassifyConnection(key, HTTP, "");
      } else if job.tuple.dstPort == 443 {
        tracker.ClassifyConnection(key, HTTPS, "");
      }
    }

    method CheckRules(job: Job, key: FiveTuple) returns (action: Action)
      requires tracker.Valid() && key in tracker.connections
      modifies tracker`connections, tracker`blockedCount
      ensures tracker.Valid()
      ensures var c := old(tracker.connections)[key];
        if Blocks(CurrentEnv().rules, job.tuple, c.app, c.sni) then
          action == DROP && tracker.connections == old(tracker.connections)[key := Blocked(c)]
        else action == FORWARD && tracker.connections == old(tracker.connections)
    {
      if rules == null {
        return FORWARD;
      }
      var c := tracker.connections[key];
      var reason := rules.ShouldBlock(job.tuple.srcIp, job.tuple.dstPort, c.app, c.sni);
      VerdictMeansBlocks(rules.View(), job.tuple, c.app, c.sni, reason);
      if reason.Some? {
        tracker.BlockConnection(key);
        return DROP;
      }
      action := FORWARD;
    }

    /** The first half of `processPacket`: direction, counters, TCP flags. */
    method Enter(job: Job, key: FiveTuple, now: nat)
      requires tracker.Valid() && key in tracker.connections
      modifies tracker`connections
      ensures tracker.Valid()
      ensures tracker.connections == old(tracker.connections)[key := Entered(old(tracker.connections)[key], job, now)]
    {
      var c := tracker.connections[key];
      tracker.UpdateConnection(key, |job.data|, IsOutbound(c, job.tuple), now);
      if job.tuple.protocol == TCP {
        UpdateTcpState(key, job.tcpFlags);
      }
    }

    /** The second half: drop what is blocked, inspect what is not classified, ask the rules. */
    method Judge(job: Job, key: FiveTuple) returns (action: Action)
      requires tracker.Valid() && key in tracker.connections
      modifies this`sniExtractions, this`classificationHits, tracker`connections, tracker`classifiedCount, tracker`blockedCount
      ensures tracker.Valid()
      ensures var e, env := old(tracker.connections)[key], old(CurrentEnv());
        && action == (if Dropped(env, e, job) then DROP else FORWARD)
        && tracker.connections == old(tracker.connections)[key := Judged(env, e, job)]
    {
      ghost var e, env := tracker.connections[key], CurrentEnv();
      if tracker.connections[key].state == BLOCKED {
        return DROP;
      }
      if tracker.connections[key].state != CLASSIFIED && job.payloadLength > 0 {
        InspectPayload(job, key);
      }
      assert tracker.connections == old(tracker.connections)[key := Known(env, e, job)];
      action := CheckRules(job, key);
    }

    /** One packet, on a record that eviction cannot have taken. */
    method ProcessPacket(e: Event) returns (action: Action, ghost entered: Table)
      requires tracker.Valid() && e.env == CurrentEnv()
      requires RecordIsSafe(tracker.maxConnections, tracker.connections, e)
      modifies this`sniExtractions, this`classificationHits, tracker
      ensures tracker.Valid()
      ensures Entering(tracker.maxConnections, old(tracker.connections), e.job.tuple, e.created, entered)
      ensures Key(e) in entered && entered[Key(e)] == RecordFor(old(tracker.connections), e)
      ensures action == Verdict(old(tracker.connections), e) && tracker.connections == Counted(entered, e)
    {
      var key := tracker.GetOrCreate(e.job.tuple, e.created);
      entered := tracker.connections;
      NewRecordStays(tracker.maxConnections, old(tracker.connections), e, entered);
      Enter(e.job, key, e.now);
      assert CurrentEnv() == e.env;
      action := Judge(e.job, key);
      EnteredThenJudged(old(tracker.connections), e, entered, action, tracker.connections);
    }

    /** A turn of the polling loop that gets a packet. */
    method HandlePacket(e: Event)
      requires Valid() && e.env == CurrentEnv()
      requires RecordIsSafe(tracker.maxConnections, tracker.connections, e)
      modifies this`processed, this`forwarded, this`dropped, this`sniExtractions, this`classificationHits, tracker
      ensures Valid() && processed == old(processed) + 1
      ensures dropped == old(dropped) + if Verdict(old(tracker.connections), e) == DROP then 1 else 0
      ensures PollStep(tracker.maxConnections, old(tracker.connections), Packet(e), tracker.connections)
      ensures Key(e) in tracker.connections
    {
      processed := processed + 1;
      var action, entered := ProcessPacket(e);
      if action == DROP {
        dropped := dropped + 1;
      } else {
        forwarded := forwarded + 1;
      }
    }

    /** A turn that times out: the periodic cleanup. */
    method HandleTimeout(now: nat)
      requires Valid()
      modifies tracker
      ensures Valid() && PollStep(tracker.maxConnections, old(tracker.connections), TimedOut(now), tracker.connections)
    {
      var _ := tracker.CleanupStale(now, IDLE_LIMIT);
    }

    /** The polling loop over whatever it gets to see before it is stopped. */
    method Run(polls: seq<Poll>) returns (ghost ts: seq<Table>)
      requires Valid() && tracker.connections == map[] && dropped == 0
      requires forall i :: 0 <= i < |polls| && polls[i].Packet? ==> polls[i].event.env == CurrentEnv()
      requires RecordsAreSafe(tracker.maxConnections, polls)
      modifies this`processed, this`forwarded, this`dropped, this`sniExtractions, this`classificationHits, tracker
      ensures Valid() && IsTrace(tracker.maxConnections, polls, ts) && tracker.connections == ts[|polls|]
      ensures dropped == DropsAlong(polls, ts, |polls|)
    {
      ghost var env := CurrentEnv();
      ts := [map[]];
      for i := 0 to |polls|
        invariant Valid() && CurrentEnv() == env
        invariant RunsAlong(polls, i, ts, tracker.maxConnections, tracker.connections, dropped)
      {
        if polls[i].Packet? {
          SafeNow(tracker.maxConnections, polls, i, ts);
          HandlePacket(polls[i].event);
        } else {
          HandleTimeout(polls[i].now);
        }
        TraceOneOn(tracker.maxConnections, polls, i, ts, tracker.connections);
        ts := ts + [tracker.connections];
      }
      assert polls[..|polls|] == polls;
    }
  }
}
