/** From the bytes of a frame to the verdict, through parser, reader, classifier and rules of the multi-threaded engine. */
module EndToEnd {
  import opened Types
  import opened Frames
  import opened IpText
  import opened MtStreams
  import opened MtFlows
  import opened MtPipeline
  import opened MtRefinement
  import TlsSni
  import HttpHost

  /** The packet that the reader makes of an accepted frame, as `MakePacket` says. */
  function PacketOf(id: nat, sec: uint32, usec: uint32, d: seq<byte>): Packet
    requires Accepted(d)
  {
    PacketRecord.Packet(id, sec, usec, TupleOf(d), d, FlagsOf(d), PayloadAt(d), |d| - PayloadAt(d))
  }

  // ---------------------------------------------------------------- the reader

  /** A frame as the capture file gives it. */
  datatype Raw = Raw(sec: uint32, usec: uint32, data: seq<byte>)

  /** The accepted frames in order, numbered as they are read. */
  function PacketsOf(raws: seq<Raw>): (ps: seq<Packet>)
    ensures |ps| <= |raws| && forall i :: 0 <= i < |ps| ==> ps[i].id == i
  {
    if raws == [] then []
    else
      var before, raw := PacketsOf(raws[..|raws| - 1]), raws[|raws| - 1];
      if Accepted(raw.data) then before + [PacketOf(|before|, raw.sec, raw.usec, raw.data)] else before
  }

  /** The reader's loop: one record is used for all frames, and frames that are not kept leave no trace. */
  method ReadAll(raws: seq<Raw>) returns (ps: seq<Packet>)
    ensures ps == PacketsOf(raws)
  {
    var parsed := new ParsedPacket();
    ps := [];
    for i := 0 to |raws|
      invariant fresh(parsed) && ps == PacketsOf(raws[..i])
    {
      var raw := raws[i];
      assert raws[..i + 1][..i] == raws[..i];
      var ok := parsed.Parse(raw.data);
      AcceptedParses(raw.data);
      if ok {
        var view := parsed.View();
        KeptMeansAccepted(raw.data, view);
        if view.hasIp && (view.hasTcp || view.hasUdp) {
          var p := MakePacket(|ps|, raw.sec, raw.usec, raw.data, view);
          ps := ps + [p];
        }
      }
    }
    assert raws[..|raws|] == raws;
  }

  lemma AcceptedParses(d: seq<byte>)
    ensures Accepted(d) ==> ParseOf(d).Some?
  {
  }

  // ---------------------------------------------------------------- addresses

  lemma BytesAreEqual(a: seq<byte>, b: seq<byte>)
    requires |a| == 4 && |b| == 4
    ensures LittleEndian(a[0], a[1], a[2], a[3]) == LittleEndian(b[0], b[1], b[2], b[3]) <==> a == b
  {
    BytesOfNumber(a[0], a[1], a[2], a[3]);
    BytesOfNumber(b[0], b[1], b[2], b[3]);
    assert a == [a[0], a[1], a[2], a[3]] && b == [b[0], b[1], b[2], b[3]];
  }

  /** An address blocked in its printed form is the source of exactly the frames whose source bytes print like that. */
  lemma PrintedAddressMatchesBytes(d: seq<byte>, octets: seq<byte>)
    requires Accepted(d) && |octets| == 4
    ensures ParseIP(Dotted(octets)).Some?
    ensures TupleOf(d).srcIp == ParseIP(Dotted(octets)).value <==> d[26..30] == octets
  {
    assert octets == [octets[0], octets[1], octets[2], octets[3]];
    FourOctets(octets[0], octets[1], octets[2], octets[3]);
    var source := d[26..30];
    assert AddressAt(d, 26) == LittleEndian(source[0], source[1], source[2], source[3]);
    BytesAreEqual(source, octets);
  }

  /** With addresses only, a flow's flag says whether its source is one of them. */
  lemma {:induction false} OnlySourcesBlock(rules: RuleBook, names: Names, ps: seq<Packet>, t: FiveTuple)
    requires rules.apps == {} && rules.domains == []
    ensures Lookup(FlowsAfter(Worker(rules, names), ps), t).blocked ==> t.srcIp in rules.ips
  {
    if ps != [] {
      OnlySourcesBlock(rules, names, ps[..|ps| - 1], t);
      PassOne(Worker(rules, names), ps[..|ps| - 1], ps[|ps| - 1]);
    }
  }

  lemma SourceDecides(rules: RuleBook, names: Names, before: seq<Packet>, p: Packet)
    requires rules.apps == {} && rules.domains == []
    ensures Passes(Worker(rules, names), before, p) <==> p.tuple.srcIp !in rules.ips
  {
    OnlySourcesBlock(rules, names, before, p.tuple);
  }

  /**
   With one printed address blocked and nothing else, a frame that the parser accepts is dropped
   exactly when its four source bytes are that address, whatever came before it.
   */
  lemma AddressRuleIsExact(d: seq<byte>, octets: seq<byte>, names: Names, before: seq<Packet>, id: nat, sec: uint32, usec: uint32)
    requires Accepted(d) && |octets| == 4 && ParseIP(Dotted(octets)).Some?
    ensures var rules := RuleBook({ParseIP(Dotted(octets)).value}, {}, []);
      Passes(Worker(rules, names), before, PacketOf(id, sec, usec, d)) <==> d[26..30] != octets
  {
    PrintedAddressMatchesBytes(d, octets);
    SourceDecides(RuleBook({ParseIP(Dotted(octets)).value}, {}, []), names, before, PacketOf(id, sec, usec, d));
  }

  // ---------------------------------------------------------------- host names

  /** A well-formed frame as the reader passes it on. */
  function PacketOfFrame(id: nat, sec: uint32, usec: uint32, f: Frame): (p: Packet)
    requires WellFormed(f)
    ensures p.tuple.dstPort == f.transport.dstPort && Payload(p) == f.payload
  {
    FrameRoundTrip(f);
    var d := EncodeFrame(f);
    assert d[PayloadAt(d)..] == d[PayloadAt(d)..|d|];
    PacketOf(id, sec, usec, d)
  }

  /** A TCP frame to port 443 that carries a generated hello, anything behind it, and whatever header options. */
  predicate CarriesHello(f: Frame, host: seq<byte>, random: seq<byte>, trailing: seq<byte>) {
    && f.transport.Tcp? && f.transport.dstPort == 443
    && |random| == 32 && |host| + 65 < 0x1_0000
    && f.payload == TlsSni.CreateTlsClientHello(host, random) + trailing
  }

  lemma HelloIsInPayload(p: Packet, host: seq<byte>, random: seq<byte>, trailing: seq<byte>)
    requires |random| == 32 && |host| + 65 < 0x1_0000
    requires Payload(p) == TlsSni.CreateTlsClientHello(host, random) + trailing
    ensures p.payloadLength > 5 && TlsSni.SniOf(Payload(p)) == Some(host)
  {
    TlsSni.GeneratedHelloRoundTrip(host, random, trailing);
    HelloIsLong(host, random);
    assert |Payload(p)| == p.payloadLength;
  }

  lemma HelloIsLong(host: seq<byte>, random: seq<byte>)
    requires |random| == 32 && |host| + 65 < 0x1_0000
    ensures |TlsSni.CreateTlsClientHello(host, random)| > 5
  {
  }

  /**
   From wire to verdict: on a flow that is neither classified nor blocked, the frame with the hello is
   forwarded exactly when no rule names its source, its host's application, or a part of the host name.
   */
  lemma HelloFrameIsJudgedByHost(
    f: Frame, host: seq<byte>, random: seq<byte>, trailing: seq<byte>,
    rules: RuleBook, names: Names, before: seq<Packet>, id: nat, sec: uint32, usec: uint32)
    requires WellFormed(f) && CarriesHello(f, host, random, trailing)
    ensures var p := PacketOfFrame(id, sec, usec, f);
      var flow := Lookup(FlowsAfter(Worker(rules, names), before), p.tuple);
      !flow.classified && !flow.blocked ==>
        (Passes(Worker(rules, names), before, p) <==> !IsBlocked(rules, p.tuple.srcIp, names(Chars(host)), Chars(host)))
  {
    var p := PacketOfFrame(id, sec, usec, f);
    HelloIsInPayload(p, host, random, trailing);
    NameIsJudged(rules, names, before, p, host);
  }

  /** A frame to port 80 that carries a generated request for `host`, with or without a port behind it. */
  predicate CarriesRequest(f: Frame, host: seq<byte>, tail: seq<byte>, others: seq<byte>) {
    && f.transport.dstPort == 80
    && HttpHost.PlainHost(host) && HttpHost.PlainPort(tail)
    && f.payload == HttpHost.CreateHttpRequest(HttpHost.DEFAULT_LINE, host + tail, others)
  }

  lemma RequestIsInPayload(p: Packet, host: seq<byte>, tail: seq<byte>, others: seq<byte>)
    requires HttpHost.PlainHost(host) && HttpHost.PlainPort(tail)
    requires Payload(p) == HttpHost.CreateHttpRequest(HttpHost.DEFAULT_LINE, host + tail, others)
    ensures p.payloadLength > 10 && HttpHost.HostOf(Payload(p)) == Some(host)
  {
    HttpHost.DefaultLineHasNoHost(host + tail, others);
    HttpHost.RequestWithPortRoundTrip(HttpHost.DEFAULT_LINE, host, tail, others);
    assert |Payload(p)| == p.payloadLength;
  }

  /** The same from wire to verdict for a request: it is judged by its host, without the port. */
  lemma RequestFrameIsJudgedByHost(
    f: Frame, host: seq<byte>, tail: seq<byte>, others: seq<byte>,
    rules: RuleBook, names: Names, before: seq<Packet>, id: nat, sec: uint32, usec: uint32)
    requires WellFormed(f) && CarriesRequest(f, host, tail, others)
    ensures var p := PacketOfFrame(id, sec, usec, f);
      var flow := Lookup(FlowsAfter(Worker(rules, names), before), p.tuple);
      !flow.classified && !flow.blocked ==>
        (Passes(Worker(rules, names), before, p) <==> !IsBlocked(rules, p.tuple.srcIp, names(Chars(host)), Chars(host)))
  {
    var p := PacketOfFrame(id, sec, usec, f);
    RequestIsInPayload(p, host, tail, others);
    NameIsJudged(rules, names, before, p, host);
  }

  // ---------------------------------------------------------------- two whole runs

  lemma WrittenOfDirection(c: Config, schedule: seq<Thread>, t: FiveTuple)
    requires ValidConfig(c)
    ensures var s := Run(c, schedule);
      var sequential := Forwarded(c.handler, c.input[..s.next]);
      && Select(s.written, OfTuple(t)) <= Select(sequential, OfTuple(t))
      && (Drained(s) ==> Select(s.written, OfTuple(t)) == Select(sequential, OfTuple(t)))
  {
    var s, flow := Run(c, schedule), t.Canonical();
    var sequential := Forwarded(c.handler, c.input[..s.next]);
    CanonicalIdentifiesFlow(t, flow);
    PipelineRefinesSequentialPass(c, schedule, flow);
    SelectWithin(s.written, OfFlow(flow), OfTuple(t));
    SelectWithin(sequential, OfFlow(flow), OfTuple(t));
    SelectPrefix(Select(s.written, OfFlow(flow)), Select(sequential, OfFlow(flow)), OfTuple(t));
  }

  /**
   Rules against rules, run against run: let one engine finish the input with some rules, and let
   another, with any numbers of threads, any queue sizes and any schedule, be anywhere in the same
   input with more rules. Of each direction of each flow, the second has then written no more than a
   prefix of what the first has.
   */
  lemma MoreRulesWriteLess(
    c: Config, schedule: seq<Thread>, c': Config, schedule': seq<Thread>,
    rules: RuleBook, more: RuleBook, names: Names, t: FiveTuple)
    requires ValidConfig(c) && ValidConfig(c') && c.input == c'.input && Extends(more, rules)
    requires c.handler == Worker(rules, names) && c'.handler == Worker(more, names)
    requires Drained(Run(c, schedule)) && Run(c, schedule).next == |c.input|
    ensures Select(Run(c', schedule').written, OfTuple(t)) <= Select(Run(c, schedule).written, OfTuple(t))
  {
    var s, s' := Run(c, schedule), Run(c', schedule');
    WrittenOfDirection(c, schedule, t);
    WrittenOfDirection(c', schedule', t);
    MoreRulesForwardLess(rules, more, names, c.input, t);
    assert c.input[..s.next] == c.input;
    ForwardedOfPrefix(c'.handler, c.input[..s'.next], c.input);
    SelectPrefix(Forwarded(c'.handler, c.input[..s'.next]), Forwarded(c'.handler, c.input), OfTuple(t));
  }
}
