/**
 The history of one connection: what decides whether its n-th packet is dropped. In the modular
 engine blocking is not final; a packet that closes the connection lifts it.
 */
module FlowHistory {
  import opened Types
  import opened Frames
  import opened Rules
  import opened Connections

  /** The record of a flow after its first packets, none of them lost to eviction or cleanup in between. */
  function After(first: FiveTuple, created: nat, es: seq<Event>): Connection {
    if es == [] then NewConnection(first, created)
    else
      var e := es[|es| - 1];
      Processed(e.env, After(first, created, es[..|es| - 1]), e.job, e.now)
  }

  /** What `processPacket` returns for packet number `n`, counting from 0. */
  function ActionAt(first: FiveTuple, created: nat, es: seq<Event>, n: nat): Action
    requires n < |es|
  {
    ActionOn(es[n].env, After(first, created, es[..n]), es[n].job, es[n].now)
  }

  // ---------------------------------------------------------------- the packets' part

  predicate FinBy(es: seq<Event>, n: nat)
    requires n <= |es|
  {
    exists j :: 0 <= j < n && Bit(es[j].job, 1)
  }

  /** A reset, or an acknowledgement once FIN was seen on this or an earlier packet. */
  predicate Closing(es: seq<Event>, n: nat)
    requires n < |es|
  {
    Bit(es[n].job, 4) || (Bit(es[n].job, 16) && FinBy(es, n + 1))
  }

  /** Some rule in force names packet `n`: its source, its port, or what the connection is known as by then. */
  predicate MeetsRule(first: FiveTuple, created: nat, es: seq<Event>, n: nat)
    requires n < |es|
  {
    var c := After(first, created, es[..n + 1]);
    Blocks(es[n].env.rules, es[n].job.tuple, c.app, c.sni)
  }

  // ---------------------------------------------------------------- one more packet

  lemma AfterOne(first: FiveTuple, created: nat, es: seq<Event>, n: nat)
    requires n < |es|
    ensures After(first, created, es[..n + 1]) == Processed(es[n].env, After(first, created, es[..n]), es[n].job, es[n].now)
  {
    assert es[..n + 1][..n] == es[..n];
  }

  lemma EnteringRecord(c: Connection, e: Event)
    ensures var r, out := Entered(c, e.job, e.now), IsOutbound(c, e.job.tuple);
      && r.tuple == c.tuple && r.firstSeen == c.firstSeen && r.lastSeen == e.now && r.app == c.app && r.sni == c.sni && r.action == c.action
      && r.packetsOut == c.packetsOut + (if out then 1 else 0) && r.packetsIn == c.packetsIn + (if out then 0 else 1)
      && r.bytesOut == c.bytesOut + (if out then |e.job.data| else 0) && r.bytesIn == c.bytesIn + (if out then 0 else |e.job.data|)
    ensures Entered(c, e.job, e.now).finSeen <==> c.finSeen || Bit(e.job, 1)
    ensures var r := Entered(c, e.job, e.now);
      if ClosedBy(c.finSeen, e.job) then r.state == CLOSED else r.state == c.state || (c.state == NEW && r.state == ESTABLISHED)
  {
    TcpKeepsCounters(Updated(c, |e.job.data|, IsOutbound(c, e.job.tuple), e.now), e.job.tcpFlags);
    EnteredSeesBits(c, e.job, e.now);
    EnteredStateInBits(c, e.job, e.now);
  }

  /** A packet is dropped when it meets a rule or finds the record blocked and does not close it; a match on a blocked record changes nothing. */
  lemma StepDecides(c: Connection, e: Event)
    ensures var p := Processed(e.env, c, e.job, e.now);
      ActionOn(e.env, c, e.job, e.now) == DROP <==>
        Blocks(e.env.rules, e.job.tuple, p.app, p.sni) || (c.state == BLOCKED && !ClosedBy(c.finSeen, e.job))
  {
    EnteringRecord(c, e);
    JudgingKeepsCounters(e.env, Entered(c, e.job, e.now), e.job);
  }

  lemma ProcessedCounts(c: Connection, e: Event)
    ensures var p, out := Processed(e.env, c, e.job, e.now), IsOutbound(c, e.job.tuple);
      && p.tuple == c.tuple && p.firstSeen == c.firstSeen && p.lastSeen == e.now
      && p.packetsOut == c.packetsOut + (if out then 1 else 0) && p.packetsIn == c.packetsIn + (if out then 0 else 1)
      && p.bytesOut == c.bytesOut + (if out then |e.job.data| else 0) && p.bytesIn == c.bytesIn + (if out then 0 else |e.job.data|)
    ensures Processed(e.env, c, e.job, e.now).finSeen <==> c.finSeen || Bit(e.job, 1)
  {
    EnteringRecord(c, e);
    JudgingKeepsCounters(e.env, Entered(c, e.job, e.now), e.job);
  }

  lemma FinByOne(es: seq<Event>, n: nat)
    requires n < |es|
    ensures FinBy(es, n + 1) <==> FinBy(es, n) || Bit(es[n].job, 1)
  {
  }

  lemma {:induction false} FinSeenIsFinBy(first: FiveTuple, created: nat, es: seq<Event>, n: nat)
    requires n <= |es|
    ensures After(first, created, es[..n]).finSeen <==> FinBy(es, n)
  {
    if n > 0 {
      FinSeenIsFinBy(first, created, es, n - 1);
      FinByOne(es, n - 1);
      AfterOne(first, created, es, n - 1);
      ProcessedCounts(After(first, created, es[..n - 1]), es[n - 1]);
    }
  }

  lemma ClosesIsClosing(first: FiveTuple, created: nat, es: seq<Event>, n: nat)
    requires n < |es|
    ensures ClosedBy(After(first, created, es[..n]).finSeen, es[n].job) <==> Closing(es, n)
  {
    FinSeenIsFinBy(first, created, es, n);
    FinByOne(es, n);
  }

  /** The drop and the record's state say the same. */
  lemma DroppedIffBlocked(first: FiveTuple, created: nat, es: seq<Event>, n: nat)
    requires n < |es|
    ensures ActionAt(first, created, es, n) == DROP <==> After(first, created, es[..n + 1]).state == BLOCKED
  {
    AfterOne(first, created, es, n);
    DropMeansBlocked(es[n].env, After(first, created, es[..n]), es[n].job, es[n].now);
  }

  predicate DroppedBefore(first: FiveTuple, created: nat, es: seq<Event>, n: nat)
    requires n <= |es|
  {
    n > 0 && ActionAt(first, created, es, n - 1) == DROP
  }

  lemma BlockedBefore(first: FiveTuple, created: nat, es: seq<Event>, n: nat)
    requires n <= |es|
    ensures After(first, created, es[..n]).state == BLOCKED <==> DroppedBefore(first, created, es, n)
  {
    if n > 0 {
      DroppedIffBlocked(first, created, es, n - 1);
    }
  }

  /** A packet is dropped when it meets a rule itself, or when the one before it was and it closes nothing. */
  lemma BlockedStep(first: FiveTuple, created: nat, es: seq<Event>, n: nat)
    requires n < |es|
    ensures ActionAt(first, created, es, n) == DROP <==>
      MeetsRule(first, created, es, n) || (DroppedBefore(first, created, es, n) && !Closing(es, n))
  {
    AfterOne(first, created, es, n);
    BlockedBefore(first, created, es, n);
    ClosesIsClosing(first, created, es, n);
    StepDecides(After(first, created, es[..n]), es[n]);
  }

  // ---------------------------------------------------------------- the history theorem

  /** Which packets meet a rule, and which close the connection. */
  function Matches(first: FiveTuple, created: nat, es: seq<Event>): nat -> bool {
    (n: nat) => n < |es| && MeetsRule(first, created, es, n)
  }

  function Closings(es: seq<Event>): nat -> bool {
    (n: nat) => n < |es| && Closing(es, n)
  }

  /** Packet `m` meets a rule and nothing after it up to packet `n` closes the connection. */
  ghost predicate HeldSince(meets: nat -> bool, closes: nat -> bool, m: nat, n: nat) {
    m <= n && meets(m) && forall k :: m < k <= n ==> !closes(k)
  }

  ghost predicate Held(meets: nat -> bool, closes: nat -> bool, n: nat) {
    exists m :: HeldSince(meets, closes, m, n)
  }

  lemma HeldStep(meets: nat -> bool, closes: nat -> bool, n: nat)
    ensures Held(meets, closes, n) <==> meets(n) || (n > 0 && Held(meets, closes, n - 1) && !closes(n))
  {
    if meets(n) {
      assert HeldSince(meets, closes, n, n);
    } else if n > 0 {
      if m :| HeldSince(meets, closes, m, n) {
        assert HeldSince(meets, closes, m, n - 1);
      }
      var before := n - 1;
      if Held(meets, closes, before) && !closes(n) {
        var m :| HeldSince(meets, closes, m, before);
        assert HeldSince(meets, closes, m, n);
      }
    }
  }

  /** Packet `n` is dropped exactly when some packet up to it met a rule and no later one up to it is closing. */
  lemma {:induction false} DroppedIffHeld(first: FiveTuple, created: nat, es: seq<Event>, n: nat)
    requires n < |es|
    ensures ActionAt(first, created, es, n) == DROP <==> Held(Matches(first, created, es), Closings(es), n)
  {
    BlockedStep(first, created, es, n);
    HeldStep(Matches(first, created, es), Closings(es), n);
    if n > 0 {
      DroppedIffHeld(first, created, es, n - 1);
    }
  }

  /**
   Without TCP, or on a connection that sees neither RST nor FIN, blocking is for good: no packet
   after a dropped one gets through.
   */
  lemma {:induction false} BlockingIsFinalUntilClosed(first: FiveTuple, created: nat, es: seq<Event>, m: nat, n: nat)
    requires m <= n < |es| && ActionAt(first, created, es, m) == DROP
    requires forall k :: m < k <= n ==> !Closing(es, k)
    ensures ActionAt(first, created, es, n) == DROP
    decreases n
  {
    if m < n {
      BlockingIsFinalUntilClosed(first, created, es, m, n - 1);
      assert DroppedBefore(first, created, es, n) && !Closing(es, n);
      BlockedStep(first, created, es, n);
    }
  }

  /** What is known of a connection is settled while it is classified or blocked, until a packet closes it. */
  lemma KnowledgeIsFrozen(first: FiveTuple, created: nat, es: seq<Event>, n: nat)
    requires n < |es| && !Closing(es, n)
    requires After(first, created, es[..n]).state in {CLASSIFIED, BLOCKED}
    ensures var c, p := After(first, created, es[..n]), After(first, created, es[..n + 1]);
      p.app == c.app && p.sni == c.sni && p.state in {CLASSIFIED, BLOCKED}
  {
    var c, e := After(first, created, es[..n]), es[n];
    AfterOne(first, created, es, n);
    ClosesIsClosing(first, created, es, n);
    EnteringRecord(c, e);
    JudgingKeepsCounters(e.env, Entered(c, e.job, e.now), e.job);
  }

  /** A request to a blocked port, and the reset that comes back. */
  function RequestThenReset(tuple: FiveTuple, env: Env): seq<Event> {
    [Event(PacketJob(0, 0, 0, tuple, [], 0x02, 0, 14, 34, 0, 0), env, 0, 1),
     Event(PacketJob(1, 0, 0, tuple.Reverse(), [], 0x04, 0, 14, 34, 0, 0), env, 2, 2)]
  }

  /** So blocking is not final in this engine: after a dropped packet, a reset lifts the block and gets through itself. */
  lemma ClosingLiftsBlock(tuple: FiveTuple, names: string -> AppType)
    requires tuple.protocol == 6 && tuple.srcPort != tuple.dstPort
    ensures var es := RequestThenReset(tuple, Env(names, Some(NO_RULES.(ports := {tuple.dstPort}))));
      ActionAt(tuple, 0, es, 0) == DROP && ActionAt(tuple, 0, es, 1) == FORWARD
  {
    var env := Env(names, Some(NO_RULES.(ports := {tuple.dstPort})));
    var es := RequestThenReset(tuple, env);
    assert Applies(env.rules.value, PORT, tuple.srcIp, tuple.dstPort, After(tuple, 0, es[..1]).app, After(tuple, 0, es[..1]).sni);
    BlockedStep(tuple, 0, es, 0);
    ResetGetsThrough(tuple, env, es);
  }

  lemma ResetGetsThrough(tuple: FiveTuple, env: Env, es: seq<Event>)
    requires tuple.protocol == 6 && tuple.srcPort != tuple.dstPort && es == RequestThenReset(tuple, env)
    requires env.rules == Some(NO_RULES.(ports := {tuple.dstPort}))
    ensures ActionAt(tuple, 0, es, 1) == FORWARD
  {
    assert Closing(es, 1);
    BlockedStep(tuple, 0, es, 1);
    NothingKnown(tuple, es);
    assert es[..2] == es;
    assert !MeetsRule(tuple, 0, es, 1);
  }

  /** The two first packets of a handshake. */
  function SynThenSynAck(tuple: FiveTuple, env: Env): seq<Event> {
    [Event(PacketJob(0, 0, 0, tuple, [], 0x02, 0, 14, 34, 0, 0), env, 0, 1),
     Event(PacketJob(1, 0, 0, tuple.Reverse(), [], 0x12, 0, 14, 34, 0, 0), env, 2, 2)]
  }

  /** Where only the client's address is blocked, the server's answer closes nothing and is dropped too. */
  lemma BlockedHandshakeIsDropped(tuple: FiveTuple, names: string -> AppType)
    requires tuple.protocol == 6
    ensures var es := SynThenSynAck(tuple, Env(names, Some(NO_RULES.(ips := {tuple.srcIp}))));
      ActionAt(tuple, 0, es, 0) == DROP && ActionAt(tuple, 0, es, 1) == DROP
  {
    var env := Env(names, Some(NO_RULES.(ips := {tuple.srcIp})));
    var es := SynThenSynAck(tuple, env);
    assert Applies(env.rules.value, IP, tuple.srcIp, tuple.dstPort, After(tuple, 0, es[..1]).app, After(tuple, 0, es[..1]).sni);
    BlockedStep(tuple, 0, es, 0);
    assert !FinBy(es, 2);
    BlockedStep(tuple, 0, es, 1);
  }

  lemma SynIsSeen(tuple: FiveTuple, es: seq<Event>, names: string -> AppType)
    requires tuple.protocol == 6 && es == SynThenSynAck(tuple, Env(names, None))
    ensures var c := After(tuple, 0, es[..1]); c.state == NEW && c.synSeen && !c.finSeen
  {
    AfterOne(tuple, 0, es, 0);
    assert es[..0] == [];
    StepOfHandshake(NewConnection(tuple, 0), es[0]);
  }

  /** With nothing blocked, the SYN leaves a new connection, and the answer an established one. */
  lemma HandshakeEstablishes(tuple: FiveTuple, names: string -> AppType)
    requires tuple.protocol == 6
    ensures var es := SynThenSynAck(tuple, Env(names, None));
      After(tuple, 0, es[..1]).state == NEW && After(tuple, 0, es[..2]).state == ESTABLISHED
  {
    var es := SynThenSynAck(tuple, Env(names, None));
    SynIsSeen(tuple, es, names);
    AfterOne(tuple, 0, es, 1);
    SynAckBits(es[1].job);
    StepOfHandshake(After(tuple, 0, es[..1]), es[1]);
  }

  lemma SynAckBits(job: Job)
    requires job.tuple.protocol == 6 && job.tcpFlags == 0x12
    ensures Bit(job, 2) && Bit(job, 16) && !Bit(job, 1) && !Bit(job, 4)
  {
  }

  lemma StepOfHandshake(c: Connection, e: Event)
    requires e.env.rules == None && e.job.payloadLength == 0 && c.state == NEW
    ensures var r := Processed(e.env, c, e.job, e.now);
      SeenInBits(c, r, e.job) &&
      r.state == if ClosedBy(c.finSeen, e.job) then CLOSED else if Completes(NEW, r, e.job) then ESTABLISHED else NEW
  {
    EnteredSeesBits(c, e.job, e.now);
    EnteredStateInBits(c, e.job, e.now);
    OthersAreNotInspected(e.env, Entered(c, e.job, e.now), e.job);
    JudgingKeepsCounters(e.env, Entered(c, e.job, e.now), e.job);
  }

  ghost predicate DroppedAmong(first: FiveTuple, created: nat, es: seq<Event>, n: nat)
    requires n <= |es|
  {
    exists m :: 0 <= m < n && ActionAt(first, created, es, m) == DROP
  }

  lemma DroppedAmongOne(first: FiveTuple, created: nat, es: seq<Event>, n: nat)
    requires n < |es|
    ensures DroppedAmong(first, created, es, n + 1) <==> DroppedAmong(first, created, es, n) || ActionAt(first, created, es, n) == DROP
  {
  }

  lemma JudgingWritesDrop(env: Env, e: Connection, job: Job)
    requires e.state == BLOCKED ==> e.action == DROP
    ensures Judged(env, e, job).action == DROP <==> e.action == DROP || Dropped(env, e, job)
  {
  }

  /** The record's action says whether any packet of it was ever dropped. */
  lemma {:induction false} ActionRemembersDrops(first: FiveTuple, created: nat, es: seq<Event>, n: nat)
    requires n <= |es|
    ensures After(first, created, es[..n]).action == DROP <==> DroppedAmong(first, created, es, n)
  {
    if n > 0 {
      var m, e := n - 1, es[n - 1];
      var c := After(first, created, es[..m]);
      ActionRemembersDrops(first, created, es, m);
      DroppedAmongOne(first, created, es, m);
      AfterOne(first, created, es, m);
      BlockedBefore(first, created, es, m);
      EnteringRecord(c, e);
      JudgingWritesDrop(e.env, Entered(c, e.job, e.now), e.job);
    }
  }

  /** Without payload nothing is recognised. */
  lemma {:induction false} NothingKnown(first: FiveTuple, es: seq<Event>)
    requires forall i :: 0 <= i < |es| ==> es[i].job.payloadLength == 0
    ensures After(first, 0, es).app == UNKNOWN && After(first, 0, es).sni == ""
  {
    if es != [] {
      NothingKnown(first, es[..|es| - 1]);
      EnteringRecord(After(first, 0, es[..|es| - 1]), es[|es| - 1]);
    }
  }

  // ---------------------------------------------------------------- the counters

  /** All packets belong to the flow of `first`: each has that tuple or its reverse. */
  predicate OneFlow(first: FiveTuple, es: seq<Event>) {
    forall i :: 0 <= i < |es| ==> es[i].job.tuple == first || es[i].job.tuple == first.Reverse()
  }

  /** How many of the packets have the tuple `first`, or have not, and how many bytes those have. */
  function CountWay(first: FiveTuple, es: seq<Event>, same: bool): nat {
    if es == [] then 0
    else CountWay(first, es[..|es| - 1], same) + if (es[|es| - 1].job.tuple == first) == same then 1 else 0
  }

  function BytesWay(first: FiveTuple, es: seq<Event>, same: bool): nat {
    if es == [] then 0
    else BytesWay(first, es[..|es| - 1], same) + if (es[|es| - 1].job.tuple == first) == same then |es[|es| - 1].job.data| else 0
  }

  /**
   Packets and bytes out are those of the packets with the first one's tuple, packets and bytes in those
   of the others, which have its reverse, whatever else happens to the record.
   */
  lemma {:induction false} CountersSplitByDirection(first: FiveTuple, created: nat, es: seq<Event>)
    requires OneFlow(first, es)
    ensures var c := After(first, created, es);
      && c.tuple == first && c.firstSeen == created
      && c.packetsOut == CountWay(first, es, true) && c.packetsIn == CountWay(first, es, false)
      && c.bytesOut == BytesWay(first, es, true) && c.bytesIn == BytesWay(first, es, false)
      && c.packetsOut + c.packetsIn == |es|
  {
    if es != [] {
      var before, e := es[..|es| - 1], es[|es| - 1];
      CountersSplitByDirection(first, created, before);
      ProcessedCounts(After(first, created, before), e);
      assert IsOutbound(After(first, created, before), e.job.tuple) <==> e.job.tuple == first;
    }
  }
}
