/**
 Streams of packets through a table of flows. Nothing here depends on how one packet changes its
 flow's entry: that step is a parameter, the `Handler`.
 */
module MtStreams {
  import opened Types

  datatype PacketRecord = Packet(
    id: nat, tsSec: uint32, tsUsec: uint32, tuple: FiveTuple, data: seq<byte>, tcpFlags: byte,
    payloadOffset: nat, payloadLength: nat)

  /** The payload lies inside the data; the reader only builds such packets. */
  type Packet = p: PacketRecord | p.payloadOffset + p.payloadLength <= |p.data|
    witness PacketRecord.Packet(0, 0, 0, FiveTuple(0, 0, 0, 0, 0), [], 0, 0, 0)

  datatype FlowEntry = FlowEntry(
    tuple: FiveTuple, app: AppType, sni: string, packets: nat, bytes: nat, blocked: bool, classified: bool)

  type Flows = map<FiveTuple, FlowEntry>

  /** How a packet changes the entry of its flow; the packet is dropped when the new entry is blocked. */
  type Handler = (Packet, FlowEntry) -> FlowEntry

  function NewFlow(t: FiveTuple): FlowEntry {
    FlowEntry(t, UNKNOWN, "", 0, 0, false, false)
  }

  function Lookup(flows: Flows, t: FiveTuple): FlowEntry {
    if t in flows then flows[t] else NewFlow(t)
  }

  function Handled(h: Handler, flows: Flows, p: Packet): FlowEntry {
    h(p, Lookup(flows, p.tuple))
  }

  // ---------------------------------------------------------------- one pass over a stream

  /** The flow table after one pass over `ps`. */
  function FlowsAfter(h: Handler, ps: seq<Packet>): Flows {
    if ps == [] then map[]
    else
      var flows, p := FlowsAfter(h, ps[..|ps| - 1]), ps[|ps| - 1];
      flows[p.tuple := Handled(h, flows, p)]
  }

  predicate Passes(h: Handler, before: seq<Packet>, p: Packet) {
    !Handled(h, FlowsAfter(h, before), p).blocked
  }

  /** The packets that one pass over `ps` forwards, and those it drops. */
  function Forwarded(h: Handler, ps: seq<Packet>): seq<Packet> {
    if ps == [] then []
    else
      var before, p := ps[..|ps| - 1], ps[|ps| - 1];
      Forwarded(h, before) + if Passes(h, before, p) then [p] else []
  }

  function Dropped(h: Handler, ps: seq<Packet>): seq<Packet> {
    if ps == [] then []
    else
      var before, p := ps[..|ps| - 1], ps[|ps| - 1];
      Dropped(h, before) + if Passes(h, before, p) then [] else [p]
  }

  lemma PassOne(h: Handler, ps: seq<Packet>, p: Packet)
    ensures FlowsAfter(h, ps + [p]) == FlowsAfter(h, ps)[p.tuple := Handled(h, FlowsAfter(h, ps), p)]
    ensures Forwarded(h, ps + [p]) == Forwarded(h, ps) + if Passes(h, ps, p) then [p] else []
    ensures Dropped(h, ps + [p]) == Dropped(h, ps) + if Passes(h, ps, p) then [] else [p]
  {
  }

  lemma {:induction false} ForwardedIsMonotone(h: Handler, ps: seq<Packet>, more: seq<Packet>)
    ensures Forwarded(h, ps) <= Forwarded(h, ps + more)
    decreases |more|
  {
    if more == [] {
      assert ps + more == ps;
    } else {
      var front := more[..|more| - 1];
      ForwardedIsMonotone(h, ps, front);
      assert ps + more == (ps + front) + [more[|more| - 1]];
      PassOne(h, ps + front, more[|more| - 1]);
    }
  }

  /** A pass loses nothing and makes up nothing. */
  ghost predicate Accounted(h: Handler, ps: seq<Packet>) {
    && multiset(ps) == multiset(Forwarded(h, ps)) + multiset(Dropped(h, ps))
    && |ps| == |Forwarded(h, ps)| + |Dropped(h, ps)|
  }

  lemma AccountedStep(h: Handler, ps: seq<Packet>, p: Packet)
    requires Accounted(h, ps)
    ensures Accounted(h, ps + [p])
  {
  }

  lemma {:induction false} ForwardedOrDropped(h: Handler, ps: seq<Packet>)
    ensures Accounted(h, ps)
  {
    if ps == [] {
      assert Forwarded(h, ps) == [] && Dropped(h, ps) == [];
    } else {
      var before, p := ps[..|ps| - 1], ps[|ps| - 1];
      assert ps == before + [p];
      ForwardedOrDropped(h, before);
      AccountedStep(h, before, p);
    }
  }

  /** How many of the packets, in a pass over them, leave their flow's entry known as `app`. */
  function CountedFor(h: Handler, ps: seq<Packet>, app: AppType): nat {
    if ps == [] then 0
    else
      var p := ps[|ps| - 1];
      CountedFor(h, ps[..|ps| - 1], app) + if Lookup(FlowsAfter(h, ps), p.tuple).app == app then 1 else 0
  }

  lemma CountedForOne(h: Handler, ps: seq<Packet>, p: Packet, app: AppType)
    ensures CountedFor(h, ps + [p], app) == CountedFor(h, ps, app) + if Handled(h, FlowsAfter(h, ps), p).app == app then 1 else 0
  {
    PassOne(h, ps, p);
    assert (ps + [p])[..|ps|] == ps;
  }

  // ---------------------------------------------------------------- streams by flow

  /** The packets of `ps` whose tuple satisfies `keep`, in order. */
  function Select(ps: seq<Packet>, keep: FiveTuple -> bool): seq<Packet> {
    if ps == [] then []
    else Select(ps[..|ps| - 1], keep) + if keep(ps[|ps| - 1].tuple) then [ps[|ps| - 1]] else []
  }

  /** The two directions of one flow, and one direction alone. */
  function OfFlow(flow: FiveTuple): FiveTuple -> bool {
    (t: FiveTuple) => t.Canonical() == flow
  }

  function OfTuple(tuple: FiveTuple): FiveTuple -> bool {
    (t: FiveTuple) => t == tuple
  }

  lemma SelectOne(ps: seq<Packet>, p: Packet, keep: FiveTuple -> bool)
    ensures Select(ps + [p], keep) == Select(ps, keep) + if keep(p.tuple) then [p] else []
  {
  }

  lemma {:induction false} SelectAppend(a: seq<Packet>, b: seq<Packet>, keep: FiveTuple -> bool)
    ensures Select(a + b, keep) == Select(a, keep) + Select(b, keep)
    decreases |b|
  {
    if b == [] {
      assert a + b == a;
    } else {
      var front, p := b[..|b| - 1], b[|b| - 1];
      SelectAppend(a, front, keep);
      assert a + b == (a + front) + [p];
      SelectOne(a + front, p, keep);
    }
  }

  lemma {:induction false} SelectIsUniform(ps: seq<Packet>, keep: FiveTuple -> bool)
    ensures forall i :: 0 <= i < |Select(ps, keep)| ==> keep(Select(ps, keep)[i].tuple)
  {
    if ps != [] {
      SelectIsUniform(ps[..|ps| - 1], keep);
    }
  }

  /** The two tables know the same of the flows in `keep`. */
  ghost predicate AgreeOn(a: Flows, b: Flows, keep: FiveTuple -> bool) {
    forall t :: keep(t) ==> Lookup(a, t) == Lookup(b, t)
  }

  lemma AgreeStep(h: Handler, a: Flows, b: Flows, p: Packet, keep: FiveTuple -> bool)
    requires AgreeOn(a, b, keep)
    ensures keep(p.tuple) ==> Handled(h, a, p) == Handled(h, b, p)
    ensures AgreeOn(a[p.tuple := Handled(h, a, p)], if keep(p.tuple) then b[p.tuple := Handled(h, b, p)] else b, keep)
  {
  }

  /** The claim of `FlowsAreIndependent` for one stream. */
  ghost predicate Independent(h: Handler, ps: seq<Packet>, keep: FiveTuple -> bool) {
    && Select(Forwarded(h, ps), keep) == Forwarded(h, Select(ps, keep))
    && AgreeOn(FlowsAfter(h, ps), FlowsAfter(h, Select(ps, keep)), keep)
  }

  lemma IndependentStep(h: Handler, ps: seq<Packet>, p: Packet, keep: FiveTuple -> bool)
    requires Independent(h, ps, keep)
    ensures Independent(h, ps + [p], keep)
  {
    var own := Select(ps, keep);
    PassOne(h, ps, p);
    SelectOne(ps, p, keep);
    AgreeStep(h, FlowsAfter(h, ps), FlowsAfter(h, own), p, keep);
    if Passes(h, ps, p) {
      SelectOne(Forwarded(h, ps), p, keep);
    }
    if keep(p.tuple) {
      PassOne(h, own, p);
    } else {
      assert own + [] == own;
    }
    assert Forwarded(h, ps) + [] == Forwarded(h, ps);
    assert Forwarded(h, own) + [] == Forwarded(h, own);
  }

  /**
   Flows do not see each other: what a pass forwards of some of the flows, and what it knows of them
   in the end, is what a pass over those flows' packets alone gives.
   */
  lemma {:induction false} FlowsAreIndependent(h: Handler, ps: seq<Packet>, keep: FiveTuple -> bool)
    ensures Independent(h, ps, keep)
  {
    if ps != [] {
      var before, p := ps[..|ps| - 1], ps[|ps| - 1];
      assert ps == before + [p];
      FlowsAreIndependent(h, before, keep);
      IndependentStep(h, before, p, keep);
    }
  }
}
