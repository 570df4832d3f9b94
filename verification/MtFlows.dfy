/** What one fast-path worker of the multi-threaded engine does with a packet, and what its rules decide over a run. */
module MtFlows {
  import opened Types
  import opened MtStreams
  import opened Sums
  import TlsSni
  import HttpHost

  // ---------------------------------------------------------------- rules

  datatype RuleBook = RuleBook(ips: set<uint32>, apps: set<AppType>, domains: seq<string>)

  predicate Contains(s: string, part: string) {
    exists i :: 0 <= i <= |s| && part <= s[i..]
  }

  predicate IsBlocked(rules: RuleBook, srcIp: uint32, app: AppType, sni: string) {
    || srcIp in rules.ips
    || app in rules.apps
    || exists i :: 0 <= i < |rules.domains| && Contains(sni, rules.domains[i])
  }

  // ---------------------------------------------------------------- one packet

  /** The application that a host name stands for, by first matching substring; any function will do here. */
  type Names = string -> AppType

  function Payload(p: Packet): seq<byte> {
    p.data[p.payloadOffset..p.payloadOffset + p.payloadLength]
  }

  function Named(names: Names, f: FlowEntry, host: seq<byte>): FlowEntry {
    f.(sni := Chars(host), app := names(Chars(host)), classified := true)
  }

  /** `classifyFlow`: TLS name, then HTTP host, then DNS by port, then a port-based guess that stays open. */
  function Classify(names: Names, p: Packet, f: FlowEntry): FlowEntry {
    var t := p.tuple;
    var sni := if t.dstPort == 443 && p.payloadLength > 5 then TlsSni.SniOf(Payload(p)) else None;
    var host := if t.dstPort == 80 && p.payloadLength > 10 then HttpHost.HostOf(Payload(p)) else None;
    if sni.Some? then Named(names, f, sni.value)
    else if host.Some? then Named(names, f, host.value)
    else if t.dstPort == 53 || t.srcPort == 53 then f.(app := DNS, classified := true)
    else if t.dstPort == 443 then f.(app := HTTPS)
    else if t.dstPort == 80 then f.(app := HTTP)
    else f
  }

  function Counted(p: Packet, f: FlowEntry): FlowEntry {
    f.(tuple := if f.packets == 0 then p.tuple else f.tuple, packets := f.packets + 1, bytes := f.bytes + |p.data|)
  }

  /** The entry once the packet is counted and, unless that is settled, classified. */
  function Recognised(names: Names, p: Packet, f: FlowEntry): FlowEntry {
    if f.classified then Counted(p, f) else Classify(names, p, Counted(p, f))
  }

  /** The entry after packet `p`; the packet is dropped when the entry is then blocked. */
  function Handle(rules: RuleBook, names: Names, p: Packet, f: FlowEntry): FlowEntry {
    var known := Recognised(names, p, f);
    known.(blocked := f.blocked || IsBlocked(rules, p.tuple.srcIp, known.app, known.sni))
  }

  function Worker(rules: RuleBook, names: Names): Handler {
    (p: Packet, f: FlowEntry) => Handle(rules, names, p, f)
  }

  lemma RecognisedIgnoresBlocked(names: Names, p: Packet, f: FlowEntry, blocked: bool)
    ensures Recognised(names, p, f.(blocked := blocked)) == Recognised(names, p, f).(blocked := blocked)
  {
  }

  // ---------------------------------------------------------------- what a packet is taken for

  /** The names in a packet's payload, each looked for only at its own port and in payloads long enough. */
  function TlsName(p: Packet): Option<seq<byte>> {
    if p.tuple.dstPort == 443 && p.payloadLength > 5 then TlsSni.SniOf(Payload(p)) else None
  }

  function HttpName(p: Packet): Option<seq<byte>> {
    if p.tuple.dstPort == 80 && p.payloadLength > 10 then HttpHost.HostOf(Payload(p)) else None
  }

  predicate KnownAs(f: FlowEntry, app: AppType, sni: string, classified: bool) {
    f.app == app && f.sni == sni && f.classified == classified
  }

  /** The application that the ports alone give away: DNS for good, HTTPS and HTTP for the time being. */
  predicate GuessedByPort(t: FiveTuple, f: FlowEntry, g: FlowEntry) {
    if t.dstPort == 53 || t.srcPort == 53 then KnownAs(g, DNS, f.sni, true)
    else if t.dstPort == 443 then KnownAs(g, HTTPS, f.sni, false)
    else if t.dstPort == 80 then KnownAs(g, HTTP, f.sni, false)
    else KnownAs(g, f.app, f.sni, false)
  }

  /**
   What an entry is known as after one more packet. A classified flow stays as it is; an open one takes the
   name in the payload and is settled, or else is guessed by its ports.
   */
  predicate TakenFor(names: Names, p: Packet, f: FlowEntry, g: FlowEntry) {
    if f.classified then KnownAs(g, f.app, f.sni, true)
    else if TlsName(p).Some? then KnownAs(g, names(Chars(TlsName(p).value)), Chars(TlsName(p).value), true)
    else if HttpName(p).Some? then KnownAs(g, names(Chars(HttpName(p).value)), Chars(HttpName(p).value), true)
    else GuessedByPort(p.tuple, f, g)
  }

  lemma HandledIsTakenFor(rules: RuleBook, names: Names, p: Packet, f: FlowEntry)
    ensures TakenFor(names, p, f, Handle(rules, names, p, f))
  {
  }

  /** The flow's entry before the next packet of any stream, and after it. */
  function EntryAfter(rules: RuleBook, names: Names, ps: seq<Packet>, t: FiveTuple): FlowEntry {
    Lookup(FlowsAfter(Worker(rules, names), ps), t)
  }

  lemma PacketIsTakenFor(rules: RuleBook, names: Names, before: seq<Packet>, p: Packet)
    ensures TakenFor(names, p, EntryAfter(rules, names, before, p.tuple), EntryAfter(rules, names, before + [p], p.tuple))
  {
    PassOne(Worker(rules, names), before, p);
    HandledIsTakenFor(rules, names, p, EntryAfter(rules, names, before, p.tuple));
  }

  /** A direction that has sent nothing yet is not known at all. */
  lemma {:induction false} FlowStartsUnknown(rules: RuleBook, names: Names, ps: seq<Packet>, t: FiveTuple)
    requires forall i :: 0 <= i < |ps| ==> ps[i].tuple != t
    ensures EntryAfter(rules, names, ps, t) == FlowEntry(t, UNKNOWN, "", 0, 0, false, false)
  {
    if ps != [] {
      FlowStartsUnknown(rules, names, ps[..|ps| - 1], t);
    }
  }

  lemma ContainsIsInfix(s: string, part: string)
    ensures Contains(s, part) <==> exists left, right :: s == left + part + right
  {
    if i :| 0 <= i <= |s| && part <= s[i..] {
      assert s == s[..i] + part + s[i..][|part|..];
    }
    if left, right :| s == left + part + right {
      assert s[|left|..] == part + right;
    }
  }

  /** A packet gets through exactly when none of its direction was dropped and no rule names its source, its application or a part of its name. */
  lemma PassesUnlessNamed(rules: RuleBook, names: Names, before: seq<Packet>, p: Packet)
    ensures var g := EntryAfter(rules, names, before + [p], p.tuple);
      Passes(Worker(rules, names), before, p) <==>
      && !EntryAfter(rules, names, before, p.tuple).blocked
      && p.tuple.srcIp !in rules.ips && g.app !in rules.apps
      && forall i :: 0 <= i < |rules.domains| ==> !Contains(g.sni, rules.domains[i])
  {
    PassOne(Worker(rules, names), before, p);
  }

  /** An open flow's packet with a name in its payload is judged by that name. */
  lemma NameIsJudged(rules: RuleBook, names: Names, before: seq<Packet>, p: Packet, host: seq<byte>)
    requires TlsName(p) == Some(host) || (TlsName(p) == None && HttpName(p) == Some(host))
    ensures var f := EntryAfter(rules, names, before, p.tuple);
      !f.classified && !f.blocked ==>
        (Passes(Worker(rules, names), before, p) <==> !IsBlocked(rules, p.tuple.srcIp, names(Chars(host)), Chars(host)))
  {
    PacketIsTakenFor(rules, names, before, p);
    PassesUnlessNamed(rules, names, before, p);
  }

  /** And one without a name, such as a SYN, by what its ports stand for. */
  lemma GuessIsJudged(rules: RuleBook, names: Names, before: seq<Packet>, p: Packet)
    requires TlsName(p) == None && HttpName(p) == None
    ensures var f, t := EntryAfter(rules, names, before, p.tuple), p.tuple;
      var app := if t.dstPort == 53 || t.srcPort == 53 then DNS else if t.dstPort == 443 then HTTPS else if t.dstPort == 80 then HTTP else f.app;
      !f.classified && !f.blocked ==> (Passes(Worker(rules, names), before, p) <==> !IsBlocked(rules, t.srcIp, app, f.sni))
  {
    PacketIsTakenFor(rules, names, before, p);
    PassesUnlessNamed(rules, names, before, p);
  }

  /** An entry that counts these packets and their bytes, and bears their tuple. */
  predicate CountsAll(f: FlowEntry, own: seq<Packet>, t: FiveTuple) {
    f.tuple == t && f.packets == |own| && f.bytes == Sum(own, (p: Packet) => |p.data|)
  }

  lemma HandledCountsOne(rules: RuleBook, names: Names, p: Packet, f: FlowEntry, own: seq<Packet>)
    requires CountsAll(f, own, p.tuple)
    ensures CountsAll(Handle(rules, names, p, f), own + [p], p.tuple)
  {
    SumOne(own, p, (p: Packet) => |p.data|);
  }

  /** The entry counts its own direction's packets and bytes, whatever else the stream holds. */
  lemma {:induction false} EntryCounts(rules: RuleBook, names: Names, ps: seq<Packet>, t: FiveTuple)
    ensures CountsAll(EntryAfter(rules, names, ps, t), Select(ps, OfTuple(t)), t)
  {
    if ps == [] {
      SumOfNone((p: Packet) => |p.data|);
    } else {
      var before, p := ps[..|ps| - 1], ps[|ps| - 1];
      assert ps == before + [p];
      EntryCounts(rules, names, before, t);
      PassOne(Worker(rules, names), before, p);
      SelectOne(before, p, OfTuple(t));
      if p.tuple == t {
        HandledCountsOne(rules, names, p, EntryAfter(rules, names, before, t), Select(before, OfTuple(t)));
      } else {
        assert EntryAfter(rules, names, ps, t) == EntryAfter(rules, names, before, t);
        assert Select(ps, OfTuple(t)) == Select(before, OfTuple(t));
      }
    }
  }

  // ---------------------------------------------------------------- one direction of one flow

  predicate Uniform(ps: seq<Packet>, t: FiveTuple) {
    forall i :: 0 <= i < |ps| ==> ps[i].tuple == t
  }

  /** What classification alone makes of a direction's packets; the rules play no part in it. */
  function Known(names: Names, ps: seq<Packet>, t: FiveTuple): FlowEntry {
    if ps == [] then NewFlow(t) else Recognised(names, ps[|ps| - 1], Known(names, ps[..|ps| - 1], t))
  }

  /** Packet number `n` (from 1) meets a rule, given what is known of the flow once it is classified. */
  predicate MeetsRule(rules: RuleBook, names: Names, ps: seq<Packet>, t: FiveTuple, n: nat)
    requires 1 <= n <= |ps|
  {
    var known := Known(names, ps[..n], t);
    IsBlocked(rules, t.srcIp, known.app, known.sni)
  }

  /** The first `k` packets meet no rule, and the next one, if there is a next one, does. */
  ghost predicate FirstMatch(rules: RuleBook, names: Names, ps: seq<Packet>, t: FiveTuple, k: nat) {
    && k <= |ps|
    && (forall n :: 1 <= n <= k ==> !MeetsRule(rules, names, ps, t, n))
    && (k < |ps| ==> MeetsRule(rules, names, ps, t, k + 1))
  }

  /** The worker's entry is what classification knows, with the flag set once a rule was met; what was forwarded is what came before. */
  ghost predicate Decided(rules: RuleBook, names: Names, ps: seq<Packet>, t: FiveTuple, k: nat) {
    && FirstMatch(rules, names, ps, t, k)
    && Lookup(FlowsAfter(Worker(rules, names), ps), t) == Known(names, ps, t).(blocked := k < |ps|)
    && Forwarded(Worker(rules, names), ps) == ps[..k]
  }

  lemma FirstMatchStep(rules: RuleBook, names: Names, ps: seq<Packet>, p: Packet, t: FiveTuple, k: nat)
    requires FirstMatch(rules, names, ps, t, k)
    ensures var last := MeetsRule(rules, names, ps + [p], t, |ps| + 1);
      FirstMatch(rules, names, ps + [p], t, if k == |ps| && !last then k + 1 else k)
  {
    forall n | 1 <= n <= |ps| ensures MeetsRule(rules, names, ps + [p], t, n) == MeetsRule(rules, names, ps, t, n) {
      assert (ps + [p])[..n] == ps[..n];
    }
  }

  lemma DecidedStep(rules: RuleBook, names: Names, ps: seq<Packet>, p: Packet, t: FiveTuple, k: nat) returns (next: nat)
    requires Decided(rules, names, ps, t, k) && p.tuple == t
    ensures Decided(rules, names, ps + [p], t, next)
  {
    var before, known := Known(names, ps, t), Known(names, ps + [p], t);
    assert (ps + [p])[..|ps|] == ps && (ps + [p])[..|ps| + 1] == ps + [p];
    PassOne(Worker(rules, names), ps, p);
    RecognisedIgnoresBlocked(names, p, before, k < |ps|);
    FirstMatchStep(rules, names, ps, p, t, k);
    next := if k == |ps| && !IsBlocked(rules, t.srcIp, known.app, known.sni) then k + 1 else k;
  }

  /**
   The history of one direction: the worker forwards exactly the packets before the first one that
   meets a rule, and blocks the direction for good from there on.
   */
  lemma {:induction false} ForwardedUntilRuleMet(rules: RuleBook, names: Names, ps: seq<Packet>, t: FiveTuple) returns (k: nat)
    requires Uniform(ps, t)
    ensures Decided(rules, names, ps, t, k)
  {
    if ps == [] {
      k := 0;
    } else {
      var before, p := ps[..|ps| - 1], ps[|ps| - 1];
      assert ps == before + [p];
      k := ForwardedUntilRuleMet(rules, names, before, t);
      k := DecidedStep(rules, names, before, p, t, k);
    }
  }

  // ---------------------------------------------------------------- two runs

  /** The second rule book blocks at least what the first one names. */
  predicate Extends(more: RuleBook, rules: RuleBook) {
    && rules.ips <= more.ips
    && rules.apps <= more.apps
    && forall i :: 0 <= i < |rules.domains| ==> rules.domains[i] in more.domains
  }

  lemma ExtendsBlocksMore(more: RuleBook, rules: RuleBook, srcIp: uint32, app: AppType, sni: string)
    requires Extends(more, rules) && IsBlocked(rules, srcIp, app, sni)
    ensures IsBlocked(more, srcIp, app, sni)
  {
  }

  lemma DirectionShrinks(rules: RuleBook, more: RuleBook, names: Names, ps: seq<Packet>, t: FiveTuple)
    requires Extends(more, rules) && Uniform(ps, t)
    ensures Forwarded(Worker(more, names), ps) <= Forwarded(Worker(rules, names), ps) <= ps
  {
    var k := ForwardedUntilRuleMet(rules, names, ps, t);
    var m := ForwardedUntilRuleMet(more, names, ps, t);
    if k < m {
      var known := Known(names, ps[..k + 1], t);
      assert !MeetsRule(more, names, ps, t, k + 1);
      ExtendsBlocksMore(more, rules, t.srcIp, known.app, known.sni);
    }
  }

  /**
   Two runs over any mixed stream: with more rules, each direction of each flow still gets through a
   prefix of its packets, and never a longer one.
   */
  lemma MoreRulesForwardLess(rules: RuleBook, more: RuleBook, names: Names, ps: seq<Packet>, t: FiveTuple)
    requires Extends(more, rules)
    ensures Select(Forwarded(Worker(more, names), ps), OfTuple(t))
         <= Select(Forwarded(Worker(rules, names), ps), OfTuple(t))
         <= Select(ps, OfTuple(t))
  {
    FlowsAreIndependent(Worker(rules, names), ps, OfTuple(t));
    FlowsAreIndependent(Worker(more, names), ps, OfTuple(t));
    SelectIsUniform(ps, OfTuple(t));
    DirectionShrinks(rules, more, names, Select(ps, OfTuple(t)), t);
  }
}
