/**
 The pipeline refines one sequential pass: for every schedule, what has been written of a flow is a
 prefix of what a single worker forwards of it when fed the same packets in reading order.
 */
module MtRefinement {
  import opened Types
  import opened MtStreams
  import opened MtPipeline
  import opened MtControl

  // ---------------------------------------------------------------- selections within selections

  /** Selecting some flows out of a selection that keeps all of them. */
  lemma {:induction false} SelectWithin(ps: seq<Packet>, outer: FiveTuple -> bool, inner: FiveTuple -> bool)
    requires forall t :: inner(t) ==> outer(t)
    ensures Select(Select(ps, outer), inner) == Select(ps, inner)
  {
    if ps != [] {
      var before, p := ps[..|ps| - 1], ps[|ps| - 1];
      SelectWithin(before, outer, inner);
      var kept := Select(before, outer);
      if outer(p.tuple) {
        SelectOne(kept, p, inner);
      } else {
        assert kept + [] == kept;
      }
    }
  }

  lemma {:induction false} SelectAll(ps: seq<Packet>, keep: FiveTuple -> bool)
    requires forall i :: 0 <= i < |ps| ==> keep(ps[i].tuple)
    ensures Select(ps, keep) == ps
  {
    if ps != [] {
      SelectAll(ps[..|ps| - 1], keep);
      assert ps == ps[..|ps| - 1] + [ps[|ps| - 1]];
    }
  }

  lemma {:induction false} SelectNone(ps: seq<Packet>, keep: FiveTuple -> bool)
    requires forall i :: 0 <= i < |ps| ==> !keep(ps[i].tuple)
    ensures Select(ps, keep) == []
  {
    if ps != [] {
      SelectNone(ps[..|ps| - 1], keep);
    }
  }

  lemma SelectPrefix(a: seq<Packet>, b: seq<Packet>, keep: FiveTuple -> bool)
    requires a <= b
    ensures Select(a, keep) <= Select(b, keep)
  {
    assert b == a + b[|a|..];
    SelectAppend(a, b[|a|..], keep);
  }

  // ---------------------------------------------------------------- where the packets of one fast path are

  function ToFp(c: Config, j: nat): FiveTuple -> bool
    requires ValidConfig(c)
  {
    (t: FiveTuple) => FpOf(c, t) == j
  }

  function InMain(m: MainPc): seq<Packet> {
    if m.Pushing? then [m.packet] else []
  }

  function InLb(pc: LbPc): seq<Packet> {
    if pc.LbHold? then [pc.packet] else []
  }

  function InWork(pc: FpPc): seq<Packet> {
    if pc.FpWork? then [pc.packet] else []
  }

  function InEmit(pc: FpPc): seq<Packet> {
    if pc.FpEmit? then [pc.packet] else []
  }

  function InWriter(w: WriterPc): seq<Packet> {
    if w.Writing? then [w.packet] else []
  }

  /** What is on its way to the fast paths of balancer `lb`, oldest first. */
  function Upstream(m: MainPc, lb: LbState): seq<Packet> {
    InLb(lb.pc) + lb.queue.items + InMain(m)
  }

  /** What a fast path has handled or holds, oldest first. */
  function Received(fp: FpState): seq<Packet> {
    fp.handled + InWork(fp.pc) + fp.queue.items
  }

  /** What has been handed to the output, oldest first. */
  function Output(s: State): seq<Packet> {
    s.written + InWriter(s.writer) + s.out.items
  }

  // ---------------------------------------------------------------- invariants

  predicate AllTo(c: Config, ps: seq<Packet>, j: nat)
    requires ValidConfig(c)
  {
    forall i :: 0 <= i < |ps| ==> FpOf(c, ps[i].tuple) == j
  }

  predicate LbRouted(c: Config, i: nat, lb: LbState)
    requires ValidConfig(c)
  {
    && (forall k :: 0 <= k < |lb.queue.items| ==> LbOf(c, lb.queue.items[k].tuple) == i)
    && (lb.pc.LbHold? ==> LbOf(c, lb.pc.packet.tuple) == i)
  }

  predicate FpRouted(c: Config, j: nat, fp: FpState)
    requires ValidConfig(c)
  {
    AllTo(c, fp.handled, j) && AllTo(c, fp.queue.items, j) && AllTo(c, InWork(fp.pc), j) && AllTo(c, InEmit(fp.pc), j)
  }

  predicate Routed(c: Config, s: State)
    requires ValidConfig(c)
  {
    && (forall i :: 0 <= i < |s.lbs| ==> LbRouted(c, i, s.lbs[i]))
    && (forall j :: 0 <= j < |s.fps| ==> FpRouted(c, j, s.fps[j]))
  }

  /** Fast path `j` of balancer `i` has received its packets in reading order, and the rest are on their way in that order. */
  predicate InOrder(c: Config, s: State, i: nat, j: nat)
    requires ValidConfig(c) && Shaped(c, s) && i < |s.lbs| && j < |s.fps|
  {
    Select(c.input[..s.next], ToFp(c, j)) == Received(s.fps[j]) + Select(Upstream(s.main, s.lbs[i]), ToFp(c, j))
  }

  predicate Tracks(h: Handler, fp: FpState, sent: seq<Packet>) {
    && fp.flows == FlowsAfter(h, fp.handled)
    && sent + InEmit(fp.pc) == Forwarded(h, fp.handled)
  }

  /** Fast path `j` knows what a pass over its handled packets knows, and the output has what that pass forwards. */
  predicate Faithful(c: Config, s: State, j: nat)
    requires ValidConfig(c) && Shaped(c, s) && j < |s.fps|
  {
    Tracks(c.handler, s.fps[j], Select(Output(s), ToFp(c, j)))
  }

  predicate AllInOrder(c: Config, s: State)
    requires ValidConfig(c) && Shaped(c, s)
  {
    forall i, w :: 0 <= i < c.numLbs && 0 <= w < c.fpsPerLb ==>
      FpIndex(c, i, w) < |s.fps| && InOrder(c, s, i, FpIndex(c, i, w))
  }

  predicate AllFaithful(c: Config, s: State)
    requires ValidConfig(c) && Shaped(c, s)
  {
    forall j :: 0 <= j < |s.fps| ==> Faithful(c, s, j)
  }

  // ---------------------------------------------------------------- every step keeps the packets in order

  lemma SelectCons(p: Packet, rest: seq<Packet>, keep: FiveTuple -> bool)
    ensures Select([p] + rest, keep) == (if keep(p.tuple) then [p] else []) + Select(rest, keep)
  {
    SelectAppend([p], rest, keep);
    assert [p] == [] + [p];
    SelectOne([], p, keep);
  }

  /** The three ways in which a packet moves along a stream `came == received + Select(coming, keep)`. */
  lemma PacketEnters(came: seq<Packet>, received: seq<Packet>, coming: seq<Packet>, p: Packet, keep: FiveTuple -> bool)
    requires Select(came, keep) == received + Select(coming, keep)
    ensures Select(came + [p], keep) == received + Select(coming + [p], keep)
  {
  }

  lemma PacketArrives(received: seq<Packet>, rest: seq<Packet>, p: Packet, keep: FiveTuple -> bool)
    requires keep(p.tuple)
    ensures received + Select([p] + rest, keep) == (received + [p]) + Select(rest, keep)
  {
    SelectCons(p, rest, keep);
  }

  lemma PacketLeaves(received: seq<Packet>, rest: seq<Packet>, p: Packet, keep: FiveTuple -> bool)
    requires !keep(p.tuple)
    ensures received + Select([p] + rest, keep) == received + Select(rest, keep)
  {
    SelectCons(p, rest, keep);
  }

  /** The order of a fast path's packets depends only on what was read, what it received and what is coming. */
  lemma OrderFrame(c: Config, s: State, s': State, i: nat, j: nat)
    requires ValidConfig(c) && Shaped(c, s) && Shaped(c, s') && i < |s.lbs| && j < |s.fps|
    requires s'.next == s.next
    requires Received(s'.fps[j]) == Received(s.fps[j])
    requires Upstream(s'.main, s'.lbs[i]) == Upstream(s.main, s.lbs[i])
    requires InOrder(c, s, i, j)
    ensures InOrder(c, s', i, j)
  {
  }

  lemma ReadKeepsOrder(c: Config, s: State, i: nat, j: nat)
    requires ValidConfig(c) && Shaped(c, s) && i < |s.lbs| && j < |s.fps|
    requires InOrder(c, s, i, j) && s.main.Reading? && s.next < |c.input|
    ensures InOrder(c, MainStep(c, s), i, j)
  {
    var p, lb := c.input[s.next], s.lbs[i];
    var came := c.input[..s.next];
    assert c.input[..s.next + 1] == came + [p];
    var coming := Upstream(s.main, lb);
    assert Upstream(Pushing(p), lb) == coming + [p];
    PacketEnters(came, Received(s.fps[j]), coming, p, ToFp(c, j));
  }

  lemma DispatchKeepsOrder(c: Config, s: State, i: nat, w: nat)
    requires ValidConfig(c) && Controlled(c, s) && i < |s.lbs| && w < c.fpsPerLb && FpIndex(c, i, w) < |s.fps|
    requires InOrder(c, s, i, FpIndex(c, i, w)) && s.main.Pushing?
    ensures InOrder(c, MainStep(c, s), i, FpIndex(c, i, w))
  {
    var p, j, lb := s.main.packet, FpIndex(c, i, w), s.lbs[i];
    var target := LbOf(c, p.tuple);
    RoutesAgree(c, p.tuple);
    assert LbOk(s.main, target, s.lbs[target]);
    if target == i {
      assert Upstream(Reading, lb.(queue := lb.queue.Push(p))) == Upstream(s.main, lb);
      OrderFrame(c, s, MainStep(c, s), i, j);
    } else {
      if FpOf(c, p.tuple) == j {
        FpIndexIsInjective(c, target, FpWithin(c, p.tuple), i, w);
      }
      assert Upstream(s.main, lb) == Upstream(Reading, lb) + [p];
      SelectOne(Upstream(Reading, lb), p, ToFp(c, j));
    }
  }

  lemma MainKeepsOrder(c: Config, s: State, i: nat, w: nat)
    requires ValidConfig(c) && Controlled(c, s) && i < |s.lbs| && w < c.fpsPerLb && FpIndex(c, i, w) < |s.fps|
    requires InOrder(c, s, i, FpIndex(c, i, w))
    ensures InOrder(c, MainStep(c, s), i, FpIndex(c, i, w))
  {
    var j, s' := FpIndex(c, i, w), MainStep(c, s);
    if s.main.Pushing? {
      DispatchKeepsOrder(c, s, i, w);
    } else if s.main.Reading? && s.next < |c.input| {
      ReadKeepsOrder(c, s, i, j);
    } else {
      StopKeepsPackets(c, s, i, j);
      OrderFrame(c, s, s', i, j);
    }
  }

  lemma StopKeepsPackets(c: Config, s: State, i: nat, j: nat)
    requires ValidConfig(c) && Shaped(c, s) && i < |s.lbs| && j < |s.fps|
    requires !s.main.Pushing? && !(s.main.Reading? && s.next < |c.input|)
    ensures var s' := MainStep(c, s);
      && s'.next == s.next
      && Received(s'.fps[j]) == Received(s.fps[j])
      && Upstream(s'.main, s'.lbs[i]) == Upstream(s.main, s.lbs[i])
  {
    MainKeepsFpPackets(c, s, j);
    assert MainStep(c, s).lbs[i].queue.items == s.lbs[i].queue.items;
  }

  lemma MainKeepsFpPackets(c: Config, s: State, j: nat)
    requires ValidConfig(c) && Shaped(c, s) && j < |s.fps|
    ensures var fp, fp' := s.fps[j], MainStep(c, s).fps[j];
      fp'.pc == fp.pc && fp'.handled == fp.handled && fp'.queue.items == fp.queue.items && fp'.flows == fp.flows
  {
  }

  /** A balancer's push, seen from the fast path it reaches and from any other. */
  lemma LbPush(c: Config, s: State, k: nat)
    requires ValidConfig(c) && Controlled(c, s) && k < |s.lbs| && s.lbs[k].pc.LbHold? && LbRouted(c, k, s.lbs[k])
    ensures FpOf(c, s.lbs[k].pc.packet.tuple) < |s.fps|
    ensures var p, s' := s.lbs[k].pc.packet, LbStep(c, s, k);
      var target := FpOf(c, p.tuple);
      s' == s || s' == s.(
        lbs := s.lbs[k := s.lbs[k].(pc := LbCheck)],
        fps := s.fps[target := s.fps[target].(queue := Queue(s.fps[target].queue.items + [p], false))])
  {
    var p := s.lbs[k].pc.packet;
    var target := FpIndex(c, k, FpWithin(c, p.tuple));
    FpIndexInRange(c, k, FpWithin(c, p.tuple));
    assert FpOf(c, p.tuple) == target;
    assert LbOk(s.main, k, s.lbs[k]) && FpOk(s.main, target, s.fps[target]);
  }

  /** The packet leaves the front of its balancer and arrives behind what its fast path has. */
  lemma OwnPushMoves(c: Config, s: State, i: nat, j: nat)
    requires ValidConfig(c) && Controlled(c, s) && i < |s.lbs| && j < |s.fps|
    requires LbRouted(c, i, s.lbs[i]) && s.lbs[i].pc.LbHold? && LbStep(c, s, i) != s
    ensures var p, s' := s.lbs[i].pc.packet, LbStep(c, s, i);
      && Upstream(s.main, s.lbs[i]) == [p] + Upstream(s'.main, s'.lbs[i])
      && Received(s'.fps[j]) == if FpOf(c, p.tuple) == j then Received(s.fps[j]) + [p] else Received(s.fps[j])
  {
    LbPush(c, s, i);
  }

  lemma OwnPushKeepsOrder(c: Config, s: State, i: nat, w: nat)
    requires ValidConfig(c) && Controlled(c, s) && i < |s.lbs| && w < c.fpsPerLb && FpIndex(c, i, w) < |s.fps|
    requires InOrder(c, s, i, FpIndex(c, i, w)) && LbRouted(c, i, s.lbs[i]) && s.lbs[i].pc.LbHold?
    ensures InOrder(c, LbStep(c, s, i), i, FpIndex(c, i, w))
  {
    var p, j, s' := s.lbs[i].pc.packet, FpIndex(c, i, w), LbStep(c, s, i);
    if s' != s {
      var received, rest := Received(s.fps[j]), Upstream(s'.main, s'.lbs[i]);
      OwnPushMoves(c, s, i, j);
      if FpOf(c, p.tuple) == j {
        PacketArrives(received, rest, p, ToFp(c, j));
      } else {
        PacketLeaves(received, rest, p, ToFp(c, j));
      }
    }
  }

  lemma OtherPushKeepsOrder(c: Config, s: State, k: nat, i: nat, w: nat)
    requires ValidConfig(c) && Controlled(c, s) && k < |s.lbs| && i < |s.lbs| && w < c.fpsPerLb && FpIndex(c, i, w) < |s.fps|
    requires k != i && InOrder(c, s, i, FpIndex(c, i, w)) && LbRouted(c, k, s.lbs[k]) && s.lbs[k].pc.LbHold?
    ensures InOrder(c, LbStep(c, s, k), i, FpIndex(c, i, w))
  {
    var p, j := s.lbs[k].pc.packet, FpIndex(c, i, w);
    LbPush(c, s, k);
    if FpOf(c, p.tuple) == j {
      FpIndexIsInjective(c, k, FpWithin(c, p.tuple), i, w);
    }
    OrderFrame(c, s, LbStep(c, s, k), i, j);
  }

  lemma LbKeepsOrder(c: Config, s: State, k: nat, i: nat, w: nat)
    requires ValidConfig(c) && Controlled(c, s) && k < |s.lbs| && i < |s.lbs| && w < c.fpsPerLb && FpIndex(c, i, w) < |s.fps|
    requires InOrder(c, s, i, FpIndex(c, i, w)) && LbRouted(c, k, s.lbs[k])
    ensures InOrder(c, LbStep(c, s, k), i, FpIndex(c, i, w))
  {
    if s.lbs[k].pc.LbHold? {
      if k == i {
        OwnPushKeepsOrder(c, s, i, w);
      } else {
        OtherPushKeepsOrder(c, s, k, i, w);
      }
    } else {
      var s' := LbStep(c, s, k);
      LbKeepsUpstream(s.main, s.lbs[k]);
      OrderFrame(c, s, s', i, FpIndex(c, i, w));
    }
  }

  lemma LbKeepsUpstream(m: MainPc, lb: LbState)
    ensures !lb.pc.LbHold? ==> Upstream(m, LbNext(lb)) == Upstream(m, lb)
  {
  }

  lemma FpKeepsOrder(c: Config, s: State, k: nat, i: nat, j: nat)
    requires ValidConfig(c) && Shaped(c, s) && k < |s.fps| && i < |s.lbs| && j < |s.fps|
    requires InOrder(c, s, i, j)
    ensures InOrder(c, FpStep(c, s, k), i, j)
  {
    FpKeepsReceived(c, s.fps[k], s.out);
    OrderFrame(c, s, FpStep(c, s, k), i, j);
  }

  lemma FpKeepsReceived(c: Config, fp: FpState, out: Queue)
    ensures Received(FpNext(c, fp, out)) == Received(fp)
  {
  }

  // ---------------------------------------------------------------- every step keeps the routing

  lemma MainKeepsLbRouting(c: Config, s: State, i: nat)
    requires ValidConfig(c) && Shaped(c, s) && i < |s.lbs| && LbRouted(c, i, s.lbs[i])
    ensures LbRouted(c, i, MainStep(c, s).lbs[i])
  {
    var lb, lb' := s.lbs[i], MainStep(c, s).lbs[i];
    assert lb'.pc == lb.pc;
    assert lb'.queue.items == lb.queue.items || (s.main.Pushing? && LbOf(c, s.main.packet.tuple) == i && lb'.queue.items == lb.queue.items + [s.main.packet]);
  }

  lemma MainKeepsRouting(c: Config, s: State)
    requires ValidConfig(c) && Shaped(c, s) && Routed(c, s)
    ensures Routed(c, MainStep(c, s))
  {
    var s' := MainStep(c, s);
    forall i | 0 <= i < |s'.lbs| ensures LbRouted(c, i, s'.lbs[i]) {
      MainKeepsLbRouting(c, s, i);
    }
    forall j | 0 <= j < |s'.fps| ensures FpRouted(c, j, s'.fps[j]) {
      assert FpRouted(c, j, s.fps[j]);
      MainKeepsFpPackets(c, s, j);
    }
  }

  lemma LbKeepsRouting(c: Config, s: State, k: nat)
    requires ValidConfig(c) && Controlled(c, s) && Routed(c, s) && k < |s.lbs|
    ensures Routed(c, LbStep(c, s, k))
  {
    var s' := LbStep(c, s, k);
    assert LbRouted(c, k, s.lbs[k]);
    if s.lbs[k].pc.LbHold? {
      LbPush(c, s, k);
    }
    forall i | 0 <= i < |s'.lbs| ensures LbRouted(c, i, s'.lbs[i]) {
      assert LbRouted(c, i, s.lbs[i]);
    }
    forall j | 0 <= j < |s'.fps| ensures FpRouted(c, j, s'.fps[j]) {
      assert FpRouted(c, j, s.fps[j]);
    }
  }

  lemma FpKeepsRouting(c: Config, s: State, k: nat)
    requires ValidConfig(c) && Shaped(c, s) && Routed(c, s) && k < |s.fps|
    ensures Routed(c, FpStep(c, s, k))
  {
  }

  lemma StepKeepsRouting(c: Config, s: State, t: Thread)
    requires ValidConfig(c) && Controlled(c, s) && Routed(c, s)
    ensures Routed(c, Exec(c, s, t))
  {
    match t
    case Main => MainKeepsRouting(c, s);
    case Lb(i) => if i < |s.lbs| { LbKeepsRouting(c, s, i); }
    case Fp(j) => if j < |s.fps| { FpKeepsRouting(c, s, j); }
    case Writer =>
  }

  // ---------------------------------------------------------------- every step keeps what was handled and put out in line

  lemma FaithfulFrame(c: Config, s: State, s': State, j: nat)
    requires ValidConfig(c) && Shaped(c, s) && Shaped(c, s') && j < |s.fps|
    requires Faithful(c, s, j)
    requires s'.fps[j].flows == s.fps[j].flows && s'.fps[j].handled == s.fps[j].handled
    requires InEmit(s'.fps[j].pc) == InEmit(s.fps[j].pc) && Output(s') == Output(s)
    ensures Faithful(c, s', j)
  {
  }

  lemma MainKeepsOutput(c: Config, s: State)
    requires ValidConfig(c) && Shaped(c, s)
    ensures Output(MainStep(c, s)) == Output(s)
  {
  }

  lemma WorkKeepsTrack(c: Config, fp: FpState, out: Queue, sent: seq<Packet>)
    requires Tracks(c.handler, fp, sent) && fp.pc.FpWork?
    ensures Tracks(c.handler, FpNext(c, fp, out), sent)
  {
  }

  lemma FpKeepsTrack(c: Config, fp: FpState, out: Queue, sent: seq<Packet>)
    requires Tracks(c.handler, fp, sent) && !fp.pc.FpEmit?
    ensures Tracks(c.handler, FpNext(c, fp, out), sent)
  {
    if fp.pc.FpWork? {
      WorkKeepsTrack(c, fp, out, sent);
    }
  }

  lemma EmitKeepsTrack(c: Config, fp: FpState, out: Queue, sent: seq<Packet>)
    requires Tracks(c.handler, fp, sent) && fp.pc.FpEmit? && out.PushReturns(c.capacity)
    ensures Tracks(c.handler, FpNext(c, fp, out), sent + [fp.pc.packet])
  {
  }

  lemma EmitReachesOutput(c: Config, s: State, k: nat)
    requires ValidConfig(c) && Controlled(c, s) && k < |s.fps| && s.fps[k].pc.FpEmit? && s.out.PushReturns(c.capacity)
    ensures Output(FpStep(c, s, k)) == Output(s) + [s.fps[k].pc.packet]
  {
  }

  lemma OwnEmitKeepsFaithful(c: Config, s: State, k: nat)
    requires ValidConfig(c) && Controlled(c, s) && k < |s.fps| && s.fps[k].pc.FpEmit?
    requires FpRouted(c, k, s.fps[k]) && Faithful(c, s, k) && s.out.PushReturns(c.capacity)
    ensures Faithful(c, FpStep(c, s, k), k)
  {
    var p := s.fps[k].pc.packet;
    EmitReachesOutput(c, s, k);
    SelectOne(Output(s), p, ToFp(c, k));
    assert InEmit(s.fps[k].pc)[0] == p;
    EmitKeepsTrack(c, s.fps[k], s.out, Select(Output(s), ToFp(c, k)));
  }

  lemma OtherEmitKeepsFaithful(c: Config, s: State, k: nat, j: nat)
    requires ValidConfig(c) && Controlled(c, s) && k < |s.fps| && j < |s.fps| && k != j && s.fps[k].pc.FpEmit?
    requires FpRouted(c, k, s.fps[k]) && Faithful(c, s, j) && s.out.PushReturns(c.capacity)
    ensures Faithful(c, FpStep(c, s, k), j)
  {
    var p := s.fps[k].pc.packet;
    EmitReachesOutput(c, s, k);
    SelectOne(Output(s), p, ToFp(c, j));
    assert InEmit(s.fps[k].pc)[0] == p;
    assert FpStep(c, s, k).fps[j] == s.fps[j];
  }

  lemma FpKeepsFaithful(c: Config, s: State, k: nat, j: nat)
    requires ValidConfig(c) && Controlled(c, s) && k < |s.fps| && j < |s.fps|
    requires FpRouted(c, k, s.fps[k]) && Faithful(c, s, j)
    ensures Faithful(c, FpStep(c, s, k), j)
  {
    if !s.fps[k].pc.FpEmit? {
      assert Output(FpStep(c, s, k)) == Output(s);
      if k == j {
        FpKeepsTrack(c, s.fps[k], s.out, Select(Output(s), ToFp(c, j)));
      }
    } else if s.out.PushReturns(c.capacity) {
      if k == j {
        OwnEmitKeepsFaithful(c, s, k);
      } else {
        OtherEmitKeepsFaithful(c, s, k, j);
      }
    } else {
      assert FpStep(c, s, k) == s;
    }
  }

  lemma WriterKeepsOutput(s: State)
    ensures Output(WriterStep(s)) == Output(s)
  {
  }

  // ---------------------------------------------------------------- every run

  predicate Refines(c: Config, s: State)
    requires ValidConfig(c)
  {
    Controlled(c, s) && Routed(c, s) && AllInOrder(c, s) && AllFaithful(c, s)
  }

  lemma WriterFrame(s: State)
    ensures var s' := WriterStep(s); s'.fps == s.fps && s'.lbs == s.lbs && s'.main == s.main && s'.next == s.next
  {
  }

  lemma WriterKeepsOrder(c: Config, s: State, i: nat, j: nat)
    requires ValidConfig(c) && Shaped(c, s) && i < |s.lbs| && j < |s.fps| && InOrder(c, s, i, j)
    ensures InOrder(c, WriterStep(s), i, j)
  {
    WriterFrame(s);
    OrderFrame(c, s, WriterStep(s), i, j);
  }

  lemma StepKeepsOrderAt(c: Config, s: State, t: Thread, i: nat, w: nat, j: nat)
    requires ValidConfig(c) && Controlled(c, s) && Routed(c, s)
    requires i < |s.lbs| && w < c.fpsPerLb && j == FpIndex(c, i, w) < |s.fps| && InOrder(c, s, i, j)
    ensures InOrder(c, Exec(c, s, t), i, j)
  {
    match t
    case Main => MainKeepsOrder(c, s, i, w);
    case Lb(k) =>
      if k < |s.lbs| {
        assert LbRouted(c, k, s.lbs[k]);
        LbKeepsOrder(c, s, k, i, w);
      }
    case Fp(k) => if k < |s.fps| { FpKeepsOrder(c, s, k, i, j); }
    case Writer => WriterKeepsOrder(c, s, i, j);
  }

  lemma StepKeepsOrder(c: Config, s: State, t: Thread)
    requires ValidConfig(c) && Controlled(c, s) && Routed(c, s) && AllInOrder(c, s)
    ensures AllInOrder(c, Exec(c, s, t))
  {
    forall i, w | 0 <= i < c.numLbs && 0 <= w < c.fpsPerLb
      ensures FpIndex(c, i, w) < NumFps(c) && InOrder(c, Exec(c, s, t), i, FpIndex(c, i, w))
    {
      FpIndexInRange(c, i, w);
      StepKeepsOrderAt(c, s, t, i, w, FpIndex(c, i, w));
    }
  }

  lemma MainKeepsFaithful(c: Config, s: State, j: nat)
    requires ValidConfig(c) && Shaped(c, s) && j < |s.fps| && Faithful(c, s, j)
    ensures Faithful(c, MainStep(c, s), j)
  {
    MainKeepsFpPackets(c, s, j);
    MainKeepsOutput(c, s);
    FaithfulFrame(c, s, MainStep(c, s), j);
  }

  lemma LbKeepsFaithful(c: Config, s: State, k: nat, j: nat)
    requires ValidConfig(c) && Shaped(c, s) && k < |s.lbs| && j < |s.fps| && Faithful(c, s, j)
    ensures Faithful(c, LbStep(c, s, k), j)
  {
  }

  lemma WriterKeepsFaithful(c: Config, s: State, j: nat)
    requires ValidConfig(c) && Shaped(c, s) && j < |s.fps| && Faithful(c, s, j)
    ensures Faithful(c, WriterStep(s), j)
  {
    WriterKeepsOutput(s);
    WriterFrame(s);
    FaithfulFrame(c, s, WriterStep(s), j);
  }

  lemma StepKeepsFaithfulAt(c: Config, s: State, t: Thread, j: nat)
    requires ValidConfig(c) && Controlled(c, s) && Routed(c, s) && j < |s.fps| && Faithful(c, s, j)
    ensures Faithful(c, Exec(c, s, t), j)
  {
    match t
    case Main => MainKeepsFaithful(c, s, j);
    case Lb(k) => if k < |s.lbs| { LbKeepsFaithful(c, s, k, j); }
    case Fp(k) =>
      if k < |s.fps| {
        assert FpRouted(c, k, s.fps[k]);
        FpKeepsFaithful(c, s, k, j);
      }
    case Writer => WriterKeepsFaithful(c, s, j);
  }

  lemma StepKeepsFaithful(c: Config, s: State, t: Thread)
    requires ValidConfig(c) && Controlled(c, s) && Routed(c, s) && AllFaithful(c, s)
    ensures AllFaithful(c, Exec(c, s, t))
  {
    forall j | 0 <= j < NumFps(c) ensures Faithful(c, Exec(c, s, t), j) {
      StepKeepsFaithfulAt(c, s, t, j);
    }
  }

  lemma StepRefines(c: Config, s: State, t: Thread)
    requires ValidConfig(c) && Refines(c, s)
    ensures Refines(c, Exec(c, s, t))
  {
    StepKeepsControl(c, s, t);
    StepKeepsRouting(c, s, t);
    StepKeepsOrder(c, s, t);
    StepKeepsFaithful(c, s, t);
  }

  lemma InitRefines(c: Config)
    requires ValidConfig(c)
    ensures Refines(c, Init(c))
  {
    InitIsControlled(c);
    var s := Init(c);
    forall i, w | 0 <= i < c.numLbs && 0 <= w < c.fpsPerLb
      ensures FpIndex(c, i, w) < |s.fps| && InOrder(c, s, i, FpIndex(c, i, w))
    {
      FpIndexInRange(c, i, w);
    }
  }

  lemma {:induction false} RunRefines(c: Config, schedule: seq<Thread>)
    requires ValidConfig(c)
    ensures Refines(c, Run(c, schedule))
  {
    if schedule == [] {
      InitRefines(c);
    } else {
      var before := schedule[..|schedule| - 1];
      RunRefines(c, before);
      StepRefines(c, Run(c, before), schedule[|schedule| - 1]);
    }
  }

  // ---------------------------------------------------------------- the refinement theorem

  /** Nothing is queued or in hand anywhere. */
  predicate Drained(s: State) {
    && !s.main.Pushing?
    && (forall i :: 0 <= i < |s.lbs| ==> s.lbs[i].queue.items == [] && !s.lbs[i].pc.LbHold?)
    && (forall j :: 0 <= j < |s.fps| ==> s.fps[j].queue.items == [] && !s.fps[j].pc.FpWork? && !s.fps[j].pc.FpEmit?)
    && s.out.items == [] && !s.writer.Writing?
  }

  /** What the output has of a flow is what a pass over the flow's handled packets forwards, up to one packet in hand. */
  lemma OutputOfFlow(c: Config, s: State, flow: FiveTuple)
    requires ValidConfig(c) && Refines(c, s) && flow.Canonical() == flow
    ensures FpOf(c, flow) < |s.fps|
    ensures var handled := s.fps[FpOf(c, flow)].handled;
      && Select(Output(s), OfFlow(flow)) <= Forwarded(c.handler, Select(handled, OfFlow(flow)))
      && (Drained(s) ==> Select(Output(s), OfFlow(flow)) == Forwarded(c.handler, Select(handled, OfFlow(flow))))
  {
    RoutesAgree(c, flow);
    var j := FpOf(c, flow);
    var fp := s.fps[j];
    assert Faithful(c, s, j);
    FlowGoesToOneFp(c, flow);
    var toFp := Select(Output(s), ToFp(c, j));
    SelectWithin(Output(s), ToFp(c, j), OfFlow(flow));
    SelectPrefix(toFp, toFp + InEmit(fp.pc), OfFlow(flow));
    FlowsAreIndependent(c.handler, fp.handled, OfFlow(flow));
    if Drained(s) {
      assert toFp + InEmit(fp.pc) == toFp;
    }
  }

  lemma FlowGoesToOneFp(c: Config, flow: FiveTuple)
    requires ValidConfig(c)
    ensures forall t :: OfFlow(flow)(t) ==> ToFp(c, FpOf(c, flow))(t)
  {
  }

  lemma HandledIsPrefix(c: Config, s: State, i: nat, j: nat, inner: FiveTuple -> bool)
    requires ValidConfig(c) && Shaped(c, s) && i < |s.lbs| && j < |s.fps| && InOrder(c, s, i, j)
    requires forall t :: inner(t) ==> ToFp(c, j)(t)
    ensures Select(s.fps[j].handled, inner) <= Select(c.input[..s.next], inner)
  {
    var own := Select(c.input[..s.next], ToFp(c, j));
    assert s.fps[j].handled <= Received(s.fps[j]) <= own;
    SelectPrefix(s.fps[j].handled, own, inner);
    SelectWithin(c.input[..s.next], ToFp(c, j), inner);
  }

  lemma HandledIsAll(c: Config, s: State, i: nat, j: nat, inner: FiveTuple -> bool)
    requires ValidConfig(c) && Shaped(c, s) && i < |s.lbs| && j < |s.fps| && InOrder(c, s, i, j) && Drained(s)
    requires forall t :: inner(t) ==> ToFp(c, j)(t)
    ensures Select(s.fps[j].handled, inner) == Select(c.input[..s.next], inner)
  {
    var fp := s.fps[j];
    assert fp.queue.items == [] && InWork(fp.pc) == [] && Received(fp) == fp.handled;
    assert Upstream(s.main, s.lbs[i]) == [];
    assert fp.handled == Select(c.input[..s.next], ToFp(c, j));
    SelectWithin(c.input[..s.next], ToFp(c, j), inner);
  }

  /** What its fast path has handled of a flow is a prefix of what was read of it. */
  lemma HandledOfFlow(c: Config, s: State, flow: FiveTuple)
    requires ValidConfig(c) && Refines(c, s) && flow.Canonical() == flow
    ensures FpOf(c, flow) < |s.fps|
    ensures var handled, read := s.fps[FpOf(c, flow)].handled, c.input[..s.next];
      && Select(handled, OfFlow(flow)) <= Select(read, OfFlow(flow))
      && (Drained(s) ==> Select(handled, OfFlow(flow)) == Select(read, OfFlow(flow)))
  {
    RoutesAgree(c, flow);
    var i, w := LbOf(c, flow), FpWithin(c, flow);
    assert InOrder(c, s, i, FpIndex(c, i, w));
    FlowGoesToOneFp(c, flow);
    HandledIsPrefix(c, s, i, FpOf(c, flow), OfFlow(flow));
    if Drained(s) {
      HandledIsAll(c, s, i, FpOf(c, flow), OfFlow(flow));
    }
  }

  lemma ForwardedOfPrefix(h: Handler, a: seq<Packet>, b: seq<Packet>)
    requires a <= b
    ensures Forwarded(h, a) <= Forwarded(h, b)
  {
    assert b == a + b[|a|..];
    ForwardedIsMonotone(h, a, b[|a|..]);
  }

  lemma WrittenIsOutput(s: State, keep: FiveTuple -> bool)
    ensures Select(s.written, keep) <= Select(Output(s), keep)
    ensures Drained(s) ==> s.written == Output(s)
  {
    SelectPrefix(s.written, Output(s), keep);
  }

  /**
   The pipeline against one sequential pass. In every reachable state of every schedule, what has
   been written of a flow is a prefix of what one worker with one flow table forwards of it, given
   all packets read so far in reading order; once the pipeline is drained the two are equal.
   */
  lemma PipelineRefinesSequentialPass(c: Config, schedule: seq<Thread>, flow: FiveTuple)
    requires ValidConfig(c) && flow.Canonical() == flow
    ensures var s := Run(c, schedule);
      var sequential := Forwarded(c.handler, c.input[..s.next]);
      && Select(s.written, OfFlow(flow)) <= Select(sequential, OfFlow(flow))
      && (Drained(s) ==> Select(s.written, OfFlow(flow)) == Select(sequential, OfFlow(flow)))
  {
    var s := Run(c, schedule);
    RunRefines(c, schedule);
    StateRefinesSequentialPass(c, s, flow);
  }

  lemma StateRefinesSequentialPass(c: Config, s: State, flow: FiveTuple)
    requires ValidConfig(c) && Refines(c, s) && flow.Canonical() == flow
    ensures var sequential := Forwarded(c.handler, c.input[..s.next]);
      && Select(s.written, OfFlow(flow)) <= Select(sequential, OfFlow(flow))
      && (Drained(s) ==> Select(s.written, OfFlow(flow)) == Select(sequential, OfFlow(flow)))
  {
    OutputOfFlow(c, s, flow);
    HandledOfFlow(c, s, flow);
    WrittenIsOutput(s, OfFlow(flow));
    FlowOfPrefix(c.handler, Select(s.fps[FpOf(c, flow)].handled, OfFlow(flow)), c.input[..s.next], OfFlow(flow));
  }

  lemma FlowOfPrefix(h: Handler, handled: seq<Packet>, read: seq<Packet>, keep: FiveTuple -> bool)
    requires handled <= Select(read, keep)
    ensures Forwarded(h, handled) <= Select(Forwarded(h, read), keep)
    ensures handled == Select(read, keep) ==> Forwarded(h, handled) == Select(Forwarded(h, read), keep)
  {
    ForwardedOfPrefix(h, handled, Select(read, keep));
    FlowsAreIndependent(h, read, keep);
  }

  function Copies(ps: seq<Packet>, p: Packet): nat {
    multiset(ps)[p]
  }

  lemma {:induction false} SelectKeepsCount(ps: seq<Packet>, keep: FiveTuple -> bool, p: Packet)
    requires keep(p.tuple)
    ensures Copies(Select(ps, keep), p) == Copies(ps, p)
  {
    if ps != [] {
      var before, last := ps[..|ps| - 1], ps[|ps| - 1];
      SelectKeepsCount(before, keep, p);
      assert ps == before + [last];
      SelectOne(before, last, keep);
    }
  }

  /** Drained, the output as a whole is the sequential output with only the flows' interleaving changed. */
  lemma DrainedOutputIsPermutation(c: Config, schedule: seq<Thread>)
    requires ValidConfig(c) && Drained(Run(c, schedule))
    ensures forall p: Packet :: Copies(Run(c, schedule).written, p) == Copies(Forwarded(c.handler, c.input[..Run(c, schedule).next]), p)
  {
    var s := Run(c, schedule);
    var written, sequential := s.written, Forwarded(c.handler, c.input[..s.next]);
    forall p: Packet ensures Copies(written, p) == Copies(sequential, p) {
      var flow := p.tuple.Canonical();
      CanonicalIdentifiesFlow(p.tuple, flow);
      PipelineRefinesSequentialPass(c, schedule, flow);
      SelectKeepsCount(written, OfFlow(flow), p);
      SelectKeepsCount(sequential, OfFlow(flow), p);
    }
  }
}
