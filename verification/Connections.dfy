/** One tracked connection of the modular engine, and what one packet does to it. */
module Connections {
  import opened Types
  import opened Frames
  import opened Rules
  import TlsSni
  import HttpHost
  import Dns

  datatype ConnState = NEW | ESTABLISHED | CLASSIFIED | BLOCKED | CLOSED
  datatype Action = FORWARD | DROP

  datatype Connection = Connection(
    tuple: FiveTuple, state: ConnState, app: AppType, sni: string,
    packetsIn: nat, packetsOut: nat, bytesIn: nat, bytesOut: nat, firstSeen: nat, lastSeen: nat, action: Action,
    synSeen: bool, synAckSeen: bool, finSeen: bool)

  /** The jobs that `createPacketJob` makes. */
  type Job = j: PacketJob | j.payloadOffset + j.payloadLength <= |j.data|
    witness PacketJob(0, 0, 0, FiveTuple(0, 0, 0, 0, 0), [], 0, 0, 14, 0, 0, 0)

  /** What a packet meets: the classifier, and the rules in force, if there is a rule manager at all. */
  datatype Env = Env(names: string -> AppType, rules: Option<RuleSet>)

  /** A packet's arrival: the clock is read when its record is created, if it is, and when the packet is counted. */
  datatype Event = Event(job: Job, env: Env, created: nat, now: nat)

  function NewConnection(t: FiveTuple, now: nat): Connection {
    Connection(t, NEW, UNKNOWN, "", 0, 0, 0, 0, now, now, FORWARD, false, false, false)
  }

  // ---------------------------------------------------------------- counting

  /** The packet goes the way of the connection's first packet; the protocol is not compared. */
  predicate IsOutbound(c: Connection, t: FiveTuple) {
    t.srcIp == c.tuple.srcIp && t.dstIp == c.tuple.dstIp && t.srcPort == c.tuple.srcPort && t.dstPort == c.tuple.dstPort
  }

  function Updated(c: Connection, size: nat, outbound: bool, now: nat): Connection {
    var seen := c.(lastSeen := now);
    if outbound then seen.(packetsOut := c.packetsOut + 1, bytesOut := c.bytesOut + size)
    else seen.(packetsIn := c.packetsIn + 1, bytesIn := c.bytesIn + size)
  }

  // ---------------------------------------------------------------- TCP flags

  const FIN: byte := 0x01
  const SYN: byte := 0x02
  const RST: byte := 0x04
  const ACK: byte := 0x10

  /** The flag byte has the bit `flag`, a power of two. */
  predicate Has(flags: byte, flag: byte)
    requires flag > 0
  {
    flags / flag % 2 == 1
  }

  function SynStep(c: Connection, flags: byte): Connection {
    if !Has(flags, SYN) then c
    else if Has(flags, ACK) then c.(synAckSeen := true)
    else c.(synSeen := true)
  }

  function HandshakeStep(c: Connection, flags: byte): Connection {
    if c.synSeen && c.synAckSeen && Has(flags, ACK) && c.state == NEW then c.(state := ESTABLISHED) else c
  }

  function CloseStep(c: Connection, flags: byte): Connection {
    var f := c.(finSeen := c.finSeen || Has(flags, FIN));
    if Has(flags, RST) || (f.finSeen && Has(flags, ACK)) then f.(state := CLOSED) else f
  }

  function TcpStep(c: Connection, flags: byte): Connection {
    CloseStep(HandshakeStep(SynStep(c, flags), flags), flags)
  }

  // ---------------------------------------------------------------- inspection

  function ClassifiedAs(c: Connection, app: AppType, sni: string): Connection {
    if c.state == CLASSIFIED then c else c.(app := app, sni := sni, state := CLASSIFIED)
  }

  function PayloadOf(job: Job): seq<byte> {
    job.data[job.payloadOffset..job.payloadOffset + job.payloadLength]
  }

  predicate HasPayload(job: Job) {
    job.payloadLength > 0 && job.payloadOffset < |job.data|
  }

  function SniIn(job: Job): Option<seq<byte>> {
    if (job.tuple.dstPort != 443 && job.payloadLength < 50) || !HasPayload(job) then None
    else TlsSni.SniOf(PayloadOf(job))
  }

  function HostIn(job: Job): Option<seq<byte>> {
    if job.tuple.dstPort != 80 || !HasPayload(job) then None else HttpHost.HostOf(PayloadOf(job))
  }

  function QueryIn(job: Job): Option<string> {
    if (job.tuple.dstPort != 53 && job.tuple.srcPort != 53) || !HasPayload(job) then None else Dns.QueryOf(PayloadOf(job))
  }

  /** What the payload, or failing that the port, says of the application; nothing when it says nothing. */
  function Recognised(env: Env, job: Job): Option<(AppType, string)> {
    if !HasPayload(job) then None
    else if SniIn(job).Some? then Some((env.names(Chars(SniIn(job).value)), Chars(SniIn(job).value)))
    else if HostIn(job).Some? then Some((env.names(Chars(HostIn(job).value)), Chars(HostIn(job).value)))
    else if QueryIn(job).Some? then Some((DNS, QueryIn(job).value))
    else if job.tuple.dstPort == 80 then Some((HTTP, ""))
    else if job.tuple.dstPort == 443 then Some((HTTPS, ""))
    else None
  }

  function Inspected(env: Env, job: Job, c: Connection): Connection {
    var r := Recognised(env, job);
    if r.None? then c else ClassifiedAs(c, r.value.0, r.value.1)
  }

  // ---------------------------------------------------------------- rules

  predicate Blocks(rules: Option<RuleSet>, t: FiveTuple, app: AppType, sni: string) {
    rules.Some? && exists kind :: Applies(rules.value, kind, t.srcIp, t.dstPort, app, sni)
  }

  function Blocked(c: Connection): Connection {
    c.(state := BLOCKED, action := DROP)
  }

  // ---------------------------------------------------------------- one packet

  /** The record once the packet is counted and its TCP flags are taken in. */
  function Entered(c: Connection, job: Job, now: nat): Connection {
    var u := Updated(c, |job.data|, IsOutbound(c, job.tuple), now);
    if job.tuple.protocol == TCP then TcpStep(u, job.tcpFlags) else u
  }

  /** The record when the rules are looked at. */
  function Known(env: Env, e: Connection, job: Job): Connection {
    if e.state != BLOCKED && e.state != CLASSIFIED && job.payloadLength > 0 then Inspected(env, job, e) else e
  }

  /** The packet that left record `e` on entry is dropped. */
  predicate Dropped(env: Env, e: Connection, job: Job) {
    e.state == BLOCKED || Blocks(env.rules, job.tuple, Known(env, e, job).app, Known(env, e, job).sni)
  }

  function Judged(env: Env, e: Connection, job: Job): Connection {
    if e.state == BLOCKED then e
    else if Dropped(env, e, job) then Blocked(Known(env, e, job))
    else Known(env, e, job)
  }

  function Processed(env: Env, c: Connection, job: Job, now: nat): Connection {
    Judged(env, Entered(c, job, now), job)
  }

  function ActionOn(env: Env, c: Connection, job: Job, now: nat): Action {
    if Dropped(env, Entered(c, job, now), job) then DROP else FORWARD
  }

  /** Inspection and rules touch nothing but the state, the action and what is known of the application. */
  lemma JudgingKeepsCounters(env: Env, e: Connection, job: Job)
    ensures var j := Judged(env, e, job); j == e.(state := j.state, action := j.action, app := j.app, sni := j.sni)
    ensures Dropped(env, e, job) <==> Judged(env, e, job).state == BLOCKED
    ensures Dropped(env, e, job) <==> e.state == BLOCKED || Blocks(env.rules, job.tuple, Judged(env, e, job).app, Judged(env, e, job).sni)
    ensures e.state == BLOCKED || e.state == CLASSIFIED ==> Judged(env, e, job).app == e.app && Judged(env, e, job).sni == e.sni
    ensures e.state == BLOCKED || e.state == CLASSIFIED ==> Judged(env, e, job).state in {BLOCKED, CLASSIFIED}
  {
  }

  /**
   What a TCP packet's flags make of record `c`, told from the bits themselves: 1 is FIN, 2 is SYN, 4 is
   RST, 16 is ACK. Nothing changes but the state and what was seen of the handshake and of FIN.
   */
  predicate FlagsTaken(c: Connection, t: Connection, flags: byte) {
    var fin, syn, rst, ack := flags % 2 == 1, flags / 2 % 2 == 1, flags / 4 % 2 == 1, flags / 16 % 2 == 1;
    && t == c.(state := t.state, synSeen := c.synSeen || (syn && !ack), synAckSeen := c.synAckSeen || (syn && ack), finSeen := c.finSeen || fin)
    && t.state == (
      if rst || (ack && t.finSeen) then CLOSED
      else if c.state == NEW && ack && t.synSeen && t.synAckSeen then ESTABLISHED
      else c.state)
  }

  lemma TcpKeepsCounters(c: Connection, flags: byte)
    ensures FlagsTaken(c, TcpStep(c, flags), flags)
  {
  }

  // ---------------------------------------------------------------- one packet, in the packet's own bits

  /** The bit of weight `weight` in the flag byte of a TCP packet; packets of other protocols have no flags. */
  predicate Bit(job: Job, weight: nat)
    requires weight > 0
  {
    job.tuple.protocol == 6 && job.tcpFlags / weight % 2 == 1
  }

  /** A reset, or an acknowledgement of a connection on which FIN was seen, this packet's FIN included. */
  predicate ClosedBy(finSeen: bool, job: Job) {
    Bit(job, 4) || (Bit(job, 16) && (finSeen || Bit(job, 1)))
  }

  /** A new connection on which both halves of the handshake were seen, and an acknowledgement. */
  predicate Completes(state: ConnState, r: Connection, job: Job) {
    state == NEW && r.synSeen && r.synAckSeen && Bit(job, 16)
  }

  /** What was seen of the handshake and of FIN, from record `c` to record `r`. */
  predicate SeenInBits(c: Connection, r: Connection, job: Job) {
    && (r.finSeen <==> c.finSeen || Bit(job, 1))
    && (r.synSeen <==> c.synSeen || (Bit(job, 2) && !Bit(job, 16)))
    && (r.synAckSeen <==> c.synAckSeen || (Bit(job, 2) && Bit(job, 16)))
  }

  lemma EnteredSeesBits(c: Connection, job: Job, now: nat)
    ensures SeenInBits(c, Entered(c, job, now), job)
  {
    TcpKeepsCounters(Updated(c, |job.data|, IsOutbound(c, job.tuple), now), job.tcpFlags);
  }

  lemma EnteredStateInBits(c: Connection, job: Job, now: nat)
    ensures var r := Entered(c, job, now);
      r.state == if ClosedBy(c.finSeen, job) then CLOSED else if Completes(c.state, r, job) then ESTABLISHED else c.state
  {
    TcpKeepsCounters(Updated(c, |job.data|, IsOutbound(c, job.tuple), now), job.tcpFlags);
  }

  /**
   The record after a packet, told from the packet's bits: 1 is FIN, 2 is SYN, 4 is RST, 16 is ACK. Unless
   it is then blocked or classified, it is closed exactly if it was before or the packet closes it, and
   established exactly if nothing closes it and it was before or the handshake completes. And a blocked
   record drops what does not close it.
   */
  lemma ProcessedInBits(env: Env, c: Connection, job: Job, now: nat)
    ensures var r := Processed(env, c, job, now);
      && SeenInBits(c, r, job)
      && (r.state !in {BLOCKED, CLASSIFIED} ==>
        && (r.state == CLOSED <==> c.state == CLOSED || ClosedBy(c.finSeen, job))
        && (r.state == ESTABLISHED <==> !ClosedBy(c.finSeen, job) && (c.state == ESTABLISHED || Completes(c.state, r, job))))
    ensures c.state == BLOCKED && !ClosedBy(c.finSeen, job) ==> ActionOn(env, c, job, now) == DROP
  {
    EnteredSeesBits(c, job, now);
    EnteredStateInBits(c, job, now);
    JudgingKeepsCounters(env, Entered(c, job, now), job);
  }

  /** A packet is dropped exactly when it leaves its connection blocked. */
  lemma DropMeansBlocked(env: Env, c: Connection, job: Job, now: nat)
    ensures ActionOn(env, c, job, now) == DROP <==> Processed(env, c, job, now).state == BLOCKED
  {
  }

  lemma VerdictMeansBlocks(r: RuleSet, t: FiveTuple, app: AppType, sni: string, verdict: Option<BlockReason>)
    requires IsVerdict(r, t.srcIp, t.dstPort, app, sni, verdict)
    ensures verdict.Some? <==> Blocks(Some(r), t, app, sni)
  {
  }

  /** The kinds of rules, told apart: the packet's source, its destination port, the application, the name if there is one. */
  lemma BlocksByKind(r: RuleSet, t: FiveTuple, app: AppType, sni: string)
    ensures !Blocks(None, t, app, sni)
    ensures Blocks(Some(r), t, app, sni) <==>
      t.srcIp in r.ips || t.dstPort in r.ports || app in r.apps || (sni != "" && IsDomainBlocked(r, sni))
  {
    assert Applies(r, IP, t.srcIp, t.dstPort, app, sni) <==> t.srcIp in r.ips;
    assert Applies(r, PORT, t.srcIp, t.dstPort, app, sni) <==> t.dstPort in r.ports;
    assert Applies(r, APP, t.srcIp, t.dstPort, app, sni) <==> app in r.apps;
    assert Applies(r, DOMAIN, t.srcIp, t.dstPort, app, sni) <==> sni != "" && IsDomainBlocked(r, sni);
  }

  // ---------------------------------------------------------------- what a packet is taken for

  /** The names that a payload gives away, each looked for only at its own ports or sizes. */
  datatype Finds = Finds(tls: Option<seq<byte>>, host: Option<seq<byte>>, query: Option<string>)

  function FindsIn(t: FiveTuple, payload: seq<byte>): Finds {
    Finds(
      if t.dstPort == 443 || |payload| >= 50 then TlsSni.SniOf(payload) else None,
      if t.dstPort == 80 then HttpHost.HostOf(payload) else None,
      if t.dstPort == 53 || t.srcPort == 53 then Dns.QueryOf(payload) else None)
  }

  /** The record is known as `app`, by the name `sni`. */
  predicate KnownAs(c: Connection, app: AppType, sni: string) {
    c.app == app && c.sni == sni
  }

  /** Neither a name nor the port says anything. */
  predicate SaysNothing(t: FiveTuple, f: Finds) {
    f == Finds(None, None, None) && t.dstPort != 80 && t.dstPort != 443
  }

  /**
   What an open record is known as after a packet with a payload: by the TLS name, or else the HTTP host,
   or else the question; without any of them by the port, 80 for HTTP and 443 for HTTPS; and as before
   when that says nothing either.
   */
  predicate InspectedAs(names: string -> AppType, t: FiveTuple, f: Finds, e: Connection, j: Connection) {
    if f.tls.Some? then KnownAs(j, names(Chars(f.tls.value)), Chars(f.tls.value))
    else if f.host.Some? then KnownAs(j, names(Chars(f.host.value)), Chars(f.host.value))
    else if f.query.Some? then KnownAs(j, DNS, f.query.value)
    else if t.dstPort == 80 then KnownAs(j, HTTP, "")
    else if t.dstPort == 443 then KnownAs(j, HTTPS, "")
    else KnownAs(j, e.app, e.sni)
  }

  lemma InspectionFinds(env: Env, e: Connection, job: Job)
    requires e.state != CLASSIFIED && job.payloadLength > 0
    ensures var f := FindsIn(job.tuple, job.data[job.payloadOffset..job.payloadOffset + job.payloadLength]);
      && InspectedAs(env.names, job.tuple, f, e, Inspected(env, job, e))
      && Inspected(env, job, e).state == (if SaysNothing(job.tuple, f) then e.state else CLASSIFIED)
  {
    assert PayloadOf(job) == job.data[job.payloadOffset..job.payloadOffset + job.payloadLength];
  }

  /** Such a record is then blocked or classified, unless nothing was said. */
  lemma OpenRecordIsInspected(env: Env, e: Connection, job: Job)
    requires e.state != BLOCKED && e.state != CLASSIFIED && job.payloadLength > 0
    ensures var j, f := Judged(env, e, job), FindsIn(job.tuple, job.data[job.payloadOffset..job.payloadOffset + job.payloadLength]);
      && InspectedAs(env.names, job.tuple, f, e, j)
      && j.state in {BLOCKED, if SaysNothing(job.tuple, f) then e.state else CLASSIFIED}
  {
    InspectionFinds(env, e, job);
  }

  /** A record that is settled, or a packet without payload, leaves it known as it was. */
  lemma OthersAreNotInspected(env: Env, e: Connection, job: Job)
    requires e.state == BLOCKED || e.state == CLASSIFIED || job.payloadLength == 0
    ensures KnownAs(Judged(env, e, job), e.app, e.sni)
    ensures Judged(env, e, job).state != BLOCKED ==> Judged(env, e, job).state == e.state
  {
  }
}
