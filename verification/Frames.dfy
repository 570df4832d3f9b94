/** Ethernet frames: the parser that fills a `ParsedPacket`, and the two readers that compute the payload's place again. */
module Frames {
  import opened Types
  import opened Bytes
  import opened IpText
  import opened MtStreams

  const IPV4: uint16 := 0x0800

  // ---------------------------------------------------------------- header lengths

  /** Where the transport header stands: after the Ethernet header and as many words as the IHL says. */
  function TransportAt(d: seq<byte>): nat
    requires |d| > 14
  {
    14 + d[14] % 16 * 4
  }

  function TcpHeaderLength(d: seq<byte>): nat
    requires |d| > 14 && |d| > TransportAt(d) + 12
  {
    d[TransportAt(d) + 12] / 16 * 4
  }

  predicate IsIpv4(d: seq<byte>) {
    && |d| >= 34 && U16(d, 12) == IPV4
    && d[14] / 16 == 4 && d[14] % 16 >= 5 && |d| >= TransportAt(d)
  }

  predicate IsTcp(d: seq<byte>) {
    && IsIpv4(d) && d[23] == TCP && |d| >= TransportAt(d) + 20
    && TcpHeaderLength(d) >= 20 && |d| >= TransportAt(d) + TcpHeaderLength(d)
  }

  predicate IsUdp(d: seq<byte>) {
    IsIpv4(d) && d[23] == UDP && |d| >= TransportAt(d) + 8
  }

  /** The frames that both readers keep. */
  predicate Accepted(d: seq<byte>) {
    IsTcp(d) || IsUdp(d)
  }

  function PayloadAt(d: seq<byte>): (i: nat)
    requires Accepted(d)
    ensures i <= |d|
  {
    TransportAt(d) + if IsTcp(d) then TcpHeaderLength(d) else 8
  }

  function AddressAt(d: seq<byte>, i: nat): uint32
    requires i + 4 <= |d|
  {
    LittleEndian(d[i], d[i + 1], d[i + 2], d[i + 3])
  }

  function TupleOf(d: seq<byte>): FiveTuple
    requires Accepted(d)
  {
    FiveTuple(AddressAt(d, 26), AddressAt(d, 30), U16(d, TransportAt(d)), U16(d, TransportAt(d) + 2), d[23])
  }

  function FlagsOf(d: seq<byte>): byte
    requires Accepted(d)
  {
    if IsTcp(d) then d[TransportAt(d) + 13] else 0
  }

  /** The same in bytes: type 0x0800, version 4 with at least five words, and protocol 6 or 17 with its header complete. */
  lemma AcceptedInBytes(d: seq<byte>)
    ensures Accepted(d) <==>
      && |d| >= 34 && d[12] == 8 && d[13] == 0 && 0x45 <= d[14] <= 0x4f
      && var transport := 14 + (d[14] - 0x40) * 4;
        || (d[23] == 17 && |d| >= transport + 8)
        || (d[23] == 6 && |d| >= transport + 20 && d[transport + 12] >= 0x50 && |d| >= transport + d[transport + 12] / 16 * 4)
  {
  }

  // ---------------------------------------------------------------- the parser

  datatype Parsed = Parsed(
    etherType: uint16, hasIp: bool, ttl: byte, protocol: byte, srcIp: string, destIp: string,
    hasTcp: bool, hasUdp: bool, srcPort: uint16, destPort: uint16, tcpFlags: byte,
    payloadStart: Option<nat>, payloadLength: nat)

  const BLANK := Parsed(0, false, 0, 0, "", "", false, false, 0, 0, 0, None, 0)

  function WithPayload(p: Parsed, offset: nat, length: nat): Parsed
  {
    if offset < length then p.(payloadStart := Some(offset), payloadLength := length - offset)
    else p.(payloadStart := None, payloadLength := 0)
  }

  function ParsedIp(d: seq<byte>): Parsed
    requires IsIpv4(d)
  {
    BLANK.(etherType := IPV4, hasIp := true, ttl := d[22], protocol := d[23],
           srcIp := IpToString(AddressAt(d, 26)), destIp := IpToString(AddressAt(d, 30)))
  }

  function ParsedTransport(d: seq<byte>): Parsed
    requires Accepted(d)
  {
    ParsedIp(d).(hasTcp := IsTcp(d), hasUdp := IsUdp(d), srcPort := TupleOf(d).srcPort, destPort := TupleOf(d).dstPort,
                 tcpFlags := FlagsOf(d))
  }

  /** What `parse` makes of a frame; nothing when it returns false. */
  function ParseOf(d: seq<byte>): Option<Parsed> {
    if |d| < 14 then None
    else if U16(d, 12) != IPV4 then Some(WithPayload(BLANK.(etherType := U16(d, 12)), 14, |d|))
    else if !IsIpv4(d) then None
    else if d[23] != TCP && d[23] != UDP then Some(WithPayload(ParsedIp(d), TransportAt(d), |d|))
    else if !Accepted(d) then None
    else Some(WithPayload(ParsedTransport(d), PayloadAt(d), |d|))
  }

  class ParsedPacket {
    var etherType: uint16
    var hasIp: bool
    var ttl: byte
    var protocol: byte
    var srcIp: string
    var destIp: string
    var hasTcp: bool
    var hasUdp: bool
    var srcPort: uint16
    var destPort: uint16
    var tcpFlags: byte
    var payloadStart: Option<nat>
    var payloadLength: nat

    function View(): Parsed
      reads this
    {
      Parsed(etherType, hasIp, ttl, protocol, srcIp, destIp, hasTcp, hasUdp, srcPort, destPort, tcpFlags, payloadStart, payloadLength)
    }

    constructor ()
      ensures View() == BLANK
    {
      etherType, hasIp, ttl, protocol, srcIp, destIp := 0, false, 0, 0, "", "";
      hasTcp, hasUdp, srcPort, destPort, tcpFlags := false, false, 0, 0, 0;
      payloadStart, payloadLength := None, 0;
    }

    method Reset()
      modifies this
      ensures View() == BLANK
    {
      etherType, hasIp, ttl, protocol, srcIp, destIp := 0, false, 0, 0, "", "";
      hasTcp, hasUdp, srcPort, destPort, tcpFlags := false, false, 0, 0, 0;
      payloadStart, payloadLength := None, 0;
    }

    method ParseEthernet(d: seq<byte>) returns (ok: bool, offset: nat)
      modifies this
      ensures ok == (|d| >= 14)
      ensures ok ==> offset == 14 && View() == old(View()).(etherType := U16(d, 12))
    {
      ok, offset := false, 0;
      if |d| < 14 {
        return;
      }
      etherType := U16(d, 12);
      ok, offset := true, 14;
    }

    method ParseIPv4(d: seq<byte>, start: nat) returns (ok: bool, offset: nat)
      requires start == 14 <= |d| && U16(d, 12) == IPV4 && View() == BLANK.(etherType := IPV4)
      modifies this
      ensures ok == IsIpv4(d)
      ensures ok ==> offset == TransportAt(d) && View() == ParsedIp(d)
    {
      ok, offset := false, start;
      if |d| < start + 20 {
        return;
      }
      var version, words := d[start] / 16, d[start] % 16;
      if version != 4 {
        return;
      }
      var headerLength := words * 4;
      if headerLength < 20 || |d| < start + headerLength {
        return;
      }
      ttl := d[start + 8];
      protocol := d[start + 9];
      srcIp := IpToString(AddressAt(d, start + 12));
      destIp := IpToString(AddressAt(d, start + 16));
      hasIp := true;
      ok, offset := true, start + headerLength;
    }

    method ParseTCP(d: seq<byte>, start: nat) returns (ok: bool, offset: nat)
      requires IsIpv4(d) && d[23] == TCP && start == TransportAt(d)
      modifies this
      ensures ok == IsTcp(d)
      ensures ok ==> offset == PayloadAt(d)
      ensures ok ==> View() == old(View()).(hasTcp := true, srcPort := TupleOf(d).srcPort, destPort := TupleOf(d).dstPort,
        tcpFlags := FlagsOf(d))
    {
      ok, offset := false, start;
      if |d| < start + 20 {
        return;
      }
      srcPort := U16(d, start);
      destPort := U16(d, start + 2);
      var headerLength := d[start + 12] / 16 * 4;
      tcpFlags := d[start + 13];
      if headerLength < 20 || |d| < start + headerLength {
        return;
      }
      hasTcp := true;
      ok, offset := true, start + headerLength;
    }

    method ParseUDP(d: seq<byte>, start: nat) returns (ok: bool, offset: nat)
      requires IsIpv4(d) && d[23] == UDP && start == TransportAt(d)
      modifies this
      ensures ok == IsUdp(d)
      ensures ok ==> offset == PayloadAt(d)
      ensures ok ==> View() == old(View()).(hasUdp := true, srcPort := TupleOf(d).srcPort, destPort := TupleOf(d).dstPort)
    {
      ok, offset := false, start;
      if |d| < start + 8 {
        return;
      }
      srcPort := U16(d, start);
      destPort := U16(d, start + 2);
      hasUdp := true;
      ok, offset := true, start + 8;
    }

    /** Whatever the record held before, it afterwards holds what `ParseOf` says of the frame, if that is anything. */
    method Parse(d: seq<byte>) returns (ok: bool)
      modifies this
      ensures ok == ParseOf(d).Some?
      ensures ok ==> View() == ParseOf(d).value
    {
      Reset();
      var offset;
      ok, offset := ParseEthernet(d);
      if !ok {
        return;
      }
      if etherType == IPV4 {
        ok, offset := ParseIPv4(d, offset);
        if !ok {
          return;
        }
        if protocol == TCP {
          ok, offset := ParseTCP(d, offset);
          if !ok {
            return;
          }
        } else if protocol == UDP {
          ok, offset := ParseUDP(d, offset);
          if !ok {
            return;
          }
        }
      }
      if offset < |d| {
        payloadLength, payloadStart := |d| - offset, Some(offset);
      } else {
        payloadLength, payloadStart := 0, None;
      }
    }
  }

  // ---------------------------------------------------------------- the readers

  /** Both readers turn the printed addresses back into numbers. */
  method ReadAddress(text: string, ghost ip: uint32) returns (r: uint32)
    requires text == IpToString(ip)
    ensures r == ip
  {
    AddressRoundTrip(ip);
    var parsed := ParseIPLoop(text);
    r := parsed.value;
  }

  method ReadTuple(p: Parsed, ghost d: seq<byte>) returns (t: FiveTuple)
    requires Accepted(d) && ParseOf(d) == Some(p)
    ensures t == TupleOf(d)
  {
    var src := ReadAddress(p.srcIp, AddressAt(d, 26));
    var dst := ReadAddress(p.destIp, AddressAt(d, 30));
    t := FiveTuple(src, dst, p.srcPort, p.destPort, p.protocol);
  }

  /** What the readers' test for TCP or UDP means, and what the parser then knows. */
  lemma KeptMeansAccepted(d: seq<byte>, p: Parsed)
    requires ParseOf(d) == Some(p)
    ensures p.hasIp && (p.hasTcp || p.hasUdp) <==> Accepted(d)
    ensures Accepted(d) ==> p.hasTcp == IsTcp(d) && p.hasUdp == IsUdp(d) && p.tcpFlags == FlagsOf(d)
    ensures Accepted(d) ==> p.payloadLength == |d| - PayloadAt(d) && (p.payloadStart.Some? ==> p.payloadStart.value == PayloadAt(d))
  {
  }

  /**
   The multi-threaded engine's reader walks the headers a second time; every byte it looks at is
   there, and it lands where the parser did.
   */
  method WalkHeaders(d: seq<byte>, hasTcp: bool, hasUdp: bool) returns (offset: nat, length: nat)
    requires Accepted(d) && hasTcp == IsTcp(d) && hasUdp == IsUdp(d)
    ensures offset == PayloadAt(d) && length == |d| - PayloadAt(d)
  {
    offset, length := 14, 0;
    if |d| > 14 {
      offset := offset + d[14] % 16 * 4;
      if hasTcp && offset + 12 < |d| {
        offset := offset + d[offset + 12] / 16 * 4;
      } else if hasUdp {
        offset := offset + 8;
      }
      if offset < |d| {
        length := |d| - offset;
      } else {
        length := 0;
      }
    }
  }

  /** The packet that the multi-threaded engine's reader makes of a frame that parsed as TCP or UDP. */
  method MakePacket(id: nat, sec: uint32, usec: uint32, d: seq<byte>, p: Parsed) returns (r: Packet)
    requires ParseOf(d) == Some(p) && p.hasIp && (p.hasTcp || p.hasUdp)
    ensures Accepted(d)
    ensures r == PacketRecord.Packet(id, sec, usec, TupleOf(d), d, FlagsOf(d), PayloadAt(d), |d| - PayloadAt(d))
    ensures r.payloadLength == p.payloadLength && (p.payloadStart.Some? ==> r.payloadOffset == p.payloadStart.value)
  {
    KeptMeansAccepted(d, p);
    var tuple := ReadTuple(p, d);
    var offset, length := WalkHeaders(d, p.hasTcp, p.hasUdp);
    r := PacketRecord.Packet(id, sec, usec, tuple, d, p.tcpFlags, offset, length);
  }

  datatype PacketJob = PacketJob(
    id: nat, tsSec: uint32, tsUsec: uint32, tuple: FiveTuple, data: seq<byte>, tcpFlags: byte,
    ethOffset: nat, ipOffset: nat, transportOffset: nat, payloadOffset: nat, payloadLength: nat)

  /** The modular engine's second walk, with its own guards. */
  method JobOffsets(d: seq<byte>, hasTcp: bool, hasUdp: bool) returns (transport: nat, offset: nat, length: nat)
    requires Accepted(d) && hasTcp == IsTcp(d) && hasUdp == IsUdp(d)
    ensures transport == TransportAt(d) && offset == PayloadAt(d) && length == |d| - PayloadAt(d)
  {
    transport, offset, length := 0, 0, 0;
    if |d| > 14 {
      transport := 14 + d[14] % 16 * 4;
      if hasTcp && |d| > transport {
        offset := transport + d[transport + 12] / 16 * 4;
      } else if hasUdp {
        offset := transport + 8;
      }
      if offset < |d| {
        length := |d| - offset;
      }
    }
  }

  /** `createPacketJob` of the modular engine. */
  method CreatePacketJob(id: nat, sec: uint32, usec: uint32, d: seq<byte>, p: Parsed) returns (job: PacketJob)
    requires ParseOf(d) == Some(p) && p.hasIp && (p.hasTcp || p.hasUdp)
    ensures Accepted(d)
    ensures job == PacketJob(id, sec, usec, TupleOf(d), d, FlagsOf(d), 0, 14, TransportAt(d), PayloadAt(d), |d| - PayloadAt(d))
    ensures job.payloadLength == p.payloadLength && (p.payloadStart.Some? ==> job.payloadOffset == p.payloadStart.value)
  {
    KeptMeansAccepted(d, p);
    var tuple := ReadTuple(p, d);
    var transport, offset, length := JobOffsets(d, p.hasTcp, p.hasUdp);
    job := PacketJob(id, sec, usec, tuple, d, p.tcpFlags, 0, 14, transport, offset, length);
  }

  // ---------------------------------------------------------------- well-formed frames

  datatype Transport =
    | Tcp(srcPort: uint16, dstPort: uint16, numbers: seq<byte>, words: nat, reserved: nat, flags: byte, tail: seq<byte>, options: seq<byte>)
    | Udp(srcPort: uint16, dstPort: uint16, length: uint16, checksum: uint16)

  /**
   `head` is type of service, total length, identification and fragmentation; `src` and `dst` are the
   addresses; `words` is the header's length with its options, in words of four bytes.
   */
  datatype Frame = Frame(
    macs: seq<byte>, words: nat, head: seq<byte>, ttl: byte, checksum: uint16, src: seq<byte>, dst: seq<byte>, options: seq<byte>,
    transport: Transport, payload: seq<byte>)

  predicate OptionsFit(options: seq<byte>, words: nat) {
    5 <= words <= 15 && |options| + 20 == words * 4
  }

  predicate TransportFits(t: Transport) {
    t.Tcp? ==> |t.numbers| == 8 && t.reserved < 16 && |t.tail| == 6 && OptionsFit(t.options, t.words)
  }

  predicate WellFormed(f: Frame) {
    && |f.macs| == 12 && |f.head| == 7 && |f.src| == 4 && |f.dst| == 4
    && OptionsFit(f.options, f.words) && TransportFits(f.transport)
  }

  /** A header's length in words shares its byte with another four bits. */
  function Nibbles(high: nat, low: nat): byte
    requires high < 16 && low < 16
  {
    high * 16 + low
  }

  lemma NibblesAreRead(high: nat, low: nat)
    requires high < 16 && low < 16
    ensures Nibbles(high, low) / 16 == high && Nibbles(high, low) % 16 == low
  {
  }

  function TcpRest(t: Transport): seq<byte>
    requires t.Tcp? && TransportFits(t)
  {
    [Nibbles(t.words, t.reserved)] + ([t.flags] + (t.tail + t.options))
  }

  function TcpHeader(t: Transport): seq<byte>
    requires t.Tcp? && TransportFits(t)
  {
    Big16(t.srcPort) + (Big16(t.dstPort) + (t.numbers + TcpRest(t)))
  }

  function UdpHeader(t: Transport): seq<byte>
    requires t.Udp?
  {
    Big16(t.srcPort) + (Big16(t.dstPort) + (Big16(t.length) + Big16(t.checksum)))
  }

  function EncodeTransport(t: Transport): seq<byte>
    requires TransportFits(t)
  {
    if t.Tcp? then TcpHeader(t) else UdpHeader(t)
  }

  function Protocol(t: Transport): byte {
    if t.Tcp? then TCP else UDP
  }

  function Segment(f: Frame): seq<byte>
    requires WellFormed(f)
  {
    EncodeTransport(f.transport) + f.payload
  }

  function Addressed(f: Frame): seq<byte>
    requires WellFormed(f)
  {
    f.src + (f.dst + (f.options + Segment(f)))
  }

  function Routed(f: Frame): seq<byte>
    requires WellFormed(f)
  {
    [f.ttl] + ([Protocol(f.transport)] + (Big16(f.checksum) + Addressed(f)))
  }

  /** A frame as it is on the wire: sections 3.1 of RFC 791 and of RFC 9293, RFC 768. */
  function EncodeFrame(f: Frame): seq<byte>
    requires WellFormed(f)
  {
    f.macs + (Big16(IPV4) + ([Nibbles(4, f.words)] + (f.head + Routed(f))))
  }

  function TransportLength(t: Transport): nat {
    if t.Tcp? then t.words * 4 else 8
  }

  lemma TcpRestIsRead(d: seq<byte>, i: nat, t: Transport)
    requires t.Tcp? && TransportFits(t) && At(d, i, TcpRest(t))
    ensures i + 8 <= |d|
    ensures d[i] / 16 == t.words && d[i + 1] == t.flags
  {
    AtByte(d, i, Nibbles(t.words, t.reserved), [t.flags] + (t.tail + t.options));
    AtByte(d, i + 1, t.flags, t.tail + t.options);
    NibblesAreRead(t.words, t.reserved);
  }

  lemma TransportHasLength(t: Transport)
    requires TransportFits(t)
    ensures |EncodeTransport(t)| == TransportLength(t)
  {
  }

  lemma TcpIsRead(d: seq<byte>, i: nat, t: Transport)
    requires t.Tcp? && TransportFits(t) && At(d, i, TcpHeader(t))
    ensures i + 20 <= |d| && U16(d, i) == t.srcPort && U16(d, i + 2) == t.dstPort
    ensures d[i + 12] / 16 == t.words && d[i + 13] == t.flags
  {
    var afterPorts := t.numbers + TcpRest(t);
    AtBig16(d, i, t.srcPort, Big16(t.dstPort) + afterPorts);
    AtBig16(d, i + 2, t.dstPort, afterPorts);
    AtAppend(d, i + 4, t.numbers, TcpRest(t));
    TcpRestIsRead(d, i + 12, t);
  }

  lemma UdpIsRead(d: seq<byte>, i: nat, t: Transport)
    requires t.Udp? && At(d, i, UdpHeader(t))
    ensures i + 8 <= |d| && U16(d, i) == t.srcPort && U16(d, i + 2) == t.dstPort
  {
    var rest := Big16(t.length) + Big16(t.checksum);
    AtBig16(d, i, t.srcPort, Big16(t.dstPort) + rest);
    AtBig16(d, i + 2, t.dstPort, rest);
  }

  lemma AddressIsRead(d: seq<byte>, i: nat, octets: seq<byte>)
    requires |octets| == 4 && At(d, i, octets)
    ensures AddressAt(d, i) == LittleEndian(octets[0], octets[1], octets[2], octets[3])
  {
    var four := d[i..i + 4];
    assert four[0] == d[i] && four[1] == d[i + 1] && four[2] == d[i + 2] && four[3] == d[i + 3];
  }

  lemma AddressesAreRead(d: seq<byte>, f: Frame)
    requires WellFormed(f) && At(d, 26, Addressed(f))
    ensures At(d, 26, f.src) && At(d, 30, f.dst) && At(d, 14 + f.words * 4, Segment(f))
  {
    AtAppend(d, 26, f.src, f.dst + (f.options + Segment(f)));
    AtAppend(d, 30, f.dst, f.options + Segment(f));
    AtAppend(d, 34, f.options, Segment(f));
  }

  lemma RoutedIsRead(d: seq<byte>, f: Frame)
    requires WellFormed(f) && At(d, 22, Routed(f))
    ensures |d| >= 26 && d[22] == f.ttl && d[23] == Protocol(f.transport) && At(d, 26, Addressed(f))
  {
    var afterProtocol := Big16(f.checksum) + Addressed(f);
    AtByte(d, 22, f.ttl, [Protocol(f.transport)] + afterProtocol);
    AtByte(d, 23, Protocol(f.transport), afterProtocol);
    AtBig16(d, 24, f.checksum, Addressed(f));
  }

  lemma StartIsRead(d: seq<byte>, f: Frame)
    requires WellFormed(f) && d == EncodeFrame(f)
    ensures |d| >= 22 && U16(d, 12) == IPV4 && d[14] / 16 == 4 && d[14] % 16 == f.words && At(d, 22, Routed(f))
  {
    var afterType := [Nibbles(4, f.words)] + (f.head + Routed(f));
    assert At(d, 0, f.macs + (Big16(IPV4) + afterType));
    AtAppend(d, 0, f.macs, Big16(IPV4) + afterType);
    AtBig16(d, 12, IPV4, afterType);
    AtByte(d, 14, Nibbles(4, f.words), f.head + Routed(f));
    AtAppend(d, 15, f.head, Routed(f));
    NibblesAreRead(4, f.words);
  }

  /** Every part of the frame stands where the header says. */
  predicate LaidOut(d: seq<byte>, f: Frame)
    requires WellFormed(f)
  {
    && IsIpv4(d) && TransportAt(d) == 14 + f.words * 4 && d[23] == Protocol(f.transport)
    && At(d, 26, f.src) && At(d, 30, f.dst) && At(d, TransportAt(d), Segment(f)) && |d| == TransportAt(d) + |Segment(f)|
  }

  lemma FrameLength(f: Frame)
    requires WellFormed(f)
    ensures |EncodeFrame(f)| == 14 + f.words * 4 + |Segment(f)|
  {
  }

  lemma FrameIsLaidOut(f: Frame)
    requires WellFormed(f)
    ensures LaidOut(EncodeFrame(f), f)
  {
    var d := EncodeFrame(f);
    FrameLength(f);
    StartIsRead(d, f);
    RoutedIsRead(d, f);
    AddressesAreRead(d, f);
  }

  predicate TransportReadAs(d: seq<byte>, t: Transport) {
    && Accepted(d) && IsTcp(d) == t.Tcp?
    && TupleOf(d).srcPort == t.srcPort && TupleOf(d).dstPort == t.dstPort
    && FlagsOf(d) == (if t.Tcp? then t.flags else 0)
    && PayloadAt(d) == TransportAt(d) + TransportLength(t)
  }

  lemma TcpIsAccepted(d: seq<byte>, t: Transport)
    requires t.Tcp? && TransportFits(t) && IsIpv4(d) && d[23] == TCP
    requires At(d, TransportAt(d), TcpHeader(t)) && TransportAt(d) + t.words * 4 <= |d|
    ensures TransportReadAs(d, t)
  {
    TcpIsRead(d, TransportAt(d), t);
  }

  lemma UdpIsAccepted(d: seq<byte>, t: Transport)
    requires t.Udp? && IsIpv4(d) && d[23] == UDP && At(d, TransportAt(d), UdpHeader(t))
    ensures TransportReadAs(d, t)
  {
    UdpIsRead(d, TransportAt(d), t);
  }

  lemma TransportIsRead(d: seq<byte>, t: Transport)
    requires TransportFits(t) && IsIpv4(d) && d[23] == Protocol(t) && At(d, TransportAt(d), EncodeTransport(t))
    ensures TransportReadAs(d, t)
  {
    TransportHasLength(t);
    if t.Tcp? {
      TcpIsAccepted(d, t);
    } else {
      UdpIsAccepted(d, t);
    }
  }

  /** The tuple, flags and payload that the readers take from `d` are those of `f`. */
  predicate ReadAs(d: seq<byte>, f: Frame)
    requires WellFormed(f)
  {
    && Accepted(d) && IsTcp(d) == f.transport.Tcp?
    && TupleOf(d) == FiveTuple(LittleEndian(f.src[0], f.src[1], f.src[2], f.src[3]), LittleEndian(f.dst[0], f.dst[1], f.dst[2], f.dst[3]),
                               f.transport.srcPort, f.transport.dstPort, Protocol(f.transport))
    && FlagsOf(d) == (if f.transport.Tcp? then f.transport.flags else 0)
    && d[PayloadAt(d)..] == f.payload
  }

  lemma AtEnd(d: seq<byte>, i: nat, a: seq<byte>, b: seq<byte>)
    requires At(d, i, a + b) && |d| == i + |a + b|
    ensures At(d, i, a) && d[i + |a|..] == b
  {
    AtAppend(d, i, a, b);
  }

  lemma PayloadIsRead(d: seq<byte>, f: Frame)
    requires WellFormed(f) && LaidOut(d, f)
    ensures At(d, TransportAt(d), EncodeTransport(f.transport))
    ensures var i := TransportAt(d) + |EncodeTransport(f.transport)|; i <= |d| && d[i..] == f.payload
  {
    AtEnd(d, TransportAt(d), EncodeTransport(f.transport), f.payload);
  }

  lemma TransportLayoutIsRead(d: seq<byte>, f: Frame)
    requires WellFormed(f) && LaidOut(d, f)
    ensures TransportReadAs(d, f.transport) && d[PayloadAt(d)..] == f.payload
  {
    PayloadIsRead(d, f);
    TransportHasLength(f.transport);
    TransportIsRead(d, f.transport);
  }

  lemma LayoutIsRead(d: seq<byte>, f: Frame)
    requires WellFormed(f) && LaidOut(d, f)
    ensures ReadAs(d, f)
  {
    TransportLayoutIsRead(d, f);
    AddressIsRead(d, 26, f.src);
    AddressIsRead(d, 30, f.dst);
  }

  /** Every well-formed frame, whatever its options, is accepted, and its tuple, flags and payload are those it was made from. */
  lemma FrameRoundTrip(f: Frame)
    requires WellFormed(f)
    ensures ReadAs(EncodeFrame(f), f)
  {
    FrameIsLaidOut(f);
    LayoutIsRead(EncodeFrame(f), f);
  }

  lemma TtlIsRead(f: Frame)
    requires WellFormed(f)
    ensures |EncodeFrame(f)| >= 34 && EncodeFrame(f)[22] == f.ttl && EncodeFrame(f)[23] == Protocol(f.transport)
  {
    StartIsRead(EncodeFrame(f), f);
    RoutedIsRead(EncodeFrame(f), f);
    FrameIsLaidOut(f);
  }

  /** And the parser's record of it: every field is the frame's, the addresses are printed byte by byte. */
  lemma FrameIsParsed(f: Frame)
    requires WellFormed(f)
    ensures ParseOf(EncodeFrame(f)).Some?
    ensures var p, t := ParseOf(EncodeFrame(f)).value, f.transport;
      && p.etherType == 0x0800 && p.hasIp && p.ttl == f.ttl && p.protocol == (if t.Tcp? then 6 else 17)
      && p.srcIp == Dotted(f.src) && p.destIp == Dotted(f.dst)
      && p.hasTcp == t.Tcp? && p.hasUdp == t.Udp? && p.srcPort == t.srcPort && p.destPort == t.dstPort
      && p.tcpFlags == (if t.Tcp? then t.flags else 0)
      && p.payloadLength == |f.payload| && p.payloadStart.Some? == (f.payload != [])
  {
    var d := EncodeFrame(f);
    FrameRoundTrip(f);
    TtlIsRead(f);
    FrameIsLaidOut(f);
    AddressIsRead(d, 26, f.src);
    AddressIsRead(d, 30, f.dst);
    BytesOfAddress(f.src);
    BytesOfAddress(f.dst);
    assert |d[PayloadAt(d)..]| == |f.payload|;
  }

  // ---------------------------------------------------------------- accepted frames are well-formed ones

  lemma PeelBig16(d: seq<byte>, i: nat, j: nat)
    requires i + 2 <= j <= |d|
    ensures Big16(U16(d, i)) + d[i + 2..j] == d[i..j]
  {
    assert Big16(U16(d, i)) == d[i..i + 2];
  }

  lemma PeelByte(d: seq<byte>, i: nat, j: nat)
    requires i < j <= |d|
    ensures [d[i]] + d[i + 1..j] == d[i..j]
  {
  }

  lemma PeelSlice(d: seq<byte>, i: nat, m: nat, j: nat)
    requires i <= m <= j <= |d|
    ensures d[i..m] + d[m..j] == d[i..j]
  {
  }

  function TransportOf(d: seq<byte>): (t: Transport)
    requires Accepted(d)
    ensures TransportFits(t) && t.Tcp? == IsTcp(d)
  {
    var i := TransportAt(d);
    if IsTcp(d) then
      Tcp(U16(d, i), U16(d, i + 2), d[i + 4..i + 12], d[i + 12] / 16, d[i + 12] % 16, d[i + 13], d[i + 14..i + 20], d[i + 20..PayloadAt(d)])
    else Udp(U16(d, i), U16(d, i + 2), U16(d, i + 4), U16(d, i + 6))
  }

  function FrameOf(d: seq<byte>): (f: Frame)
    requires Accepted(d)
    ensures WellFormed(f)
  {
    Frame(d[..12], d[14] % 16, d[15..22], d[22], U16(d, 24), d[26..30], d[30..34], d[34..TransportAt(d)], TransportOf(d), d[PayloadAt(d)..])
  }

  lemma TcpIsEncoded(d: seq<byte>)
    requires IsTcp(d)
    ensures EncodeTransport(TransportOf(d)) == d[TransportAt(d)..PayloadAt(d)]
  {
    var i, j, t := TransportAt(d), PayloadAt(d), TransportOf(d);
    assert Nibbles(t.words, t.reserved) == d[i + 12];
    PeelSlice(d, i + 14, i + 20, j);
    PeelByte(d, i + 13, j);
    PeelByte(d, i + 12, j);
    PeelSlice(d, i + 4, i + 12, j);
    PeelBig16(d, i + 2, j);
    PeelBig16(d, i, j);
  }

  lemma UdpIsEncoded(d: seq<byte>)
    requires IsUdp(d)
    ensures EncodeTransport(TransportOf(d)) == d[TransportAt(d)..PayloadAt(d)]
  {
    var i := TransportAt(d);
    PeelBig16(d, i + 4, i + 8);
    PeelBig16(d, i + 2, i + 8);
    PeelBig16(d, i, i + 8);
    assert Big16(U16(d, i + 6)) == d[i + 6..i + 8];
  }

  lemma AcceptedFrameIsEncoded(d: seq<byte>)
    requires Accepted(d)
    ensures EncodeFrame(FrameOf(d)) == d
  {
    var i, n, f := TransportAt(d), |d|, FrameOf(d);
    if IsTcp(d) {
      TcpIsEncoded(d);
    } else {
      UdpIsEncoded(d);
    }
    PeelSlice(d, i, PayloadAt(d), n);
    PeelSlice(d, 34, i, n);
    PeelSlice(d, 30, 34, n);
    PeelSlice(d, 26, 30, n);
    assert Addressed(f) == d[26..n];
    HeadersAreEncoded(d, f);
  }

  lemma HeadersAreEncoded(d: seq<byte>, f: Frame)
    requires Accepted(d) && f == FrameOf(d) && Addressed(f) == d[26..|d|]
    ensures EncodeFrame(f) == d
  {
    var n := |d|;
    PeelBig16(d, 24, n);
    PeelByte(d, 23, n);
    PeelByte(d, 22, n);
    assert Routed(f) == d[22..n];
    PeelSlice(d, 15, 22, n);
    assert Nibbles(4, f.words) == d[14];
    PeelByte(d, 14, n);
    PeelBig16(d, 12, n);
    PeelSlice(d, 0, 12, n);
  }

  /** The frames that the readers keep are exactly the encodings of well-formed ones. */
  lemma AcceptedIffEncoding(d: seq<byte>)
    ensures Accepted(d) <==> exists f :: WellFormed(f) && EncodeFrame(f) == d
  {
    if Accepted(d) {
      AcceptedFrameIsEncoded(d);
    }
    if f :| WellFormed(f) && EncodeFrame(f) == d {
      FrameRoundTrip(f);
    }
  }
}
