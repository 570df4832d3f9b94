/**
 Conservation: at every step every packet that was read is in exactly one place, the counters count
 what they are named for, and the final report balances.
 */
module MtConservation {
  import opened Types
  import opened Sums
  import opened MtStreams
  import opened MtPipeline
  import opened MtControl
  import opened MtRefinement

  /** Any way to weigh packets: one for each, their sizes, or one for a particular packet. */
  type Weight = Packet -> nat

  // ---------------------------------------------------------------- the places a packet can be

  function LbPackets(lb: LbState): seq<Packet> {
    InLb(lb.pc) + lb.queue.items
  }

  function LbHas(lb: LbState, weigh: Weight): nat {
    Sum(LbPackets(lb), weigh)
  }

  /** In a fast path's hands or queue, or dropped by it. */
  function FpHas(h: Handler, fp: FpState, weigh: Weight): nat {
    Sum(InWork(fp.pc) + fp.queue.items, weigh) + Sum(InEmit(fp.pc), weigh) + Sum(Dropped(h, fp.handled), weigh)
  }

  function LbsHave(lbs: seq<LbState>, weigh: Weight): nat {
    Sum(lbs, (lb: LbState) => LbHas(lb, weigh))
  }

  function FpsHave(h: Handler, fps: seq<FpState>, weigh: Weight): nat {
    Sum(fps, (fp: FpState) => FpHas(h, fp, weigh))
  }

  /** The main thread's hand, the balancers, the fast paths with what they dropped, and the output with what is written. */
  function InPlaces(c: Config, s: State, weigh: Weight): nat {
    Total(c.handler, InMain(s.main), s.lbs, s.fps, Output(s), weigh)
  }

  function Total(h: Handler, inMain: seq<Packet>, lbs: seq<LbState>, fps: seq<FpState>, output: seq<Packet>, weigh: Weight): nat {
    Sum(inMain, weigh) + LbsHave(lbs, weigh) + FpsHave(h, fps, weigh) + Sum(output, weigh)
  }

  function WasRead(c: Config, n: nat, weigh: Weight): nat
    requires n <= |c.input|
  {
    Sum(c.input[..n], weigh)
  }

  predicate Conserved(c: Config, s: State, weigh: Weight)
    requires Shaped(c, s)
  {
    InPlaces(c, s, weigh) == WasRead(c, s.next, weigh)
  }

  lemma LbsUpdate(lbs: seq<LbState>, i: nat, lb: LbState, weigh: Weight)
    requires i < |lbs|
    ensures LbsHave(lbs[i := lb], weigh) + LbHas(lbs[i], weigh) == LbsHave(lbs, weigh) + LbHas(lb, weigh)
  {
    SumUpdate(lbs, i, lb, (lb: LbState) => LbHas(lb, weigh));
  }

  lemma FpsUpdate(h: Handler, fps: seq<FpState>, j: nat, fp: FpState, weigh: Weight)
    requires j < |fps|
    ensures FpsHave(h, fps[j := fp], weigh) + FpHas(h, fps[j], weigh) == FpsHave(h, fps, weigh) + FpHas(h, fp, weigh)
  {
    SumUpdate(fps, j, fp, (fp: FpState) => FpHas(h, fp, weigh));
  }

  // ---------------------------------------------------------------- every step conserves every weight

  lemma WasReadOne(c: Config, n: nat, weigh: Weight)
    requires n < |c.input|
    ensures WasRead(c, n + 1, weigh) == WasRead(c, n, weigh) + weigh(c.input[n])
  {
    assert c.input[..n + 1] == c.input[..n] + [c.input[n]];
    SumOne(c.input[..n], c.input[n], weigh);
  }

  lemma ReadConserves(c: Config, s: State, weigh: Weight)
    requires Shaped(c, s) && Conserved(c, s, weigh) && s.main.Reading?
    ensures Conserved(c, ReadStep(c, s), weigh)
  {
    if s.next < |c.input| {
      WasReadOne(c, s.next, weigh);
      SumOfOne(c.input[s.next], weigh);
    }
  }

  lemma QueueGains(lb: LbState, p: Packet, weigh: Weight)
    requires !lb.queue.shut
    ensures LbHas(lb.(queue := lb.queue.Push(p)), weigh) == LbHas(lb, weigh) + weigh(p)
  {
    assert LbPackets(lb.(queue := lb.queue.Push(p))) == LbPackets(lb) + [p];
    SumOne(LbPackets(lb), p, weigh);
  }

  lemma DispatchConserves(c: Config, s: State, p: Packet, weigh: Weight)
    requires ValidConfig(c) && Controlled(c, s) && Conserved(c, s, weigh) && s.main == Pushing(p)
    ensures Conserved(c, DispatchStep(c, s, p), weigh)
  {
    var i := LbOf(c, p.tuple);
    RoutesAgree(c, p.tuple);
    assert LbOk(s.main, i, s.lbs[i]);
    QueueGains(s.lbs[i], p, weigh);
    LbsUpdate(s.lbs, i, s.lbs[i].(queue := s.lbs[i].queue.Push(p)), weigh);
    SumOfOne(p, weigh);
  }

  lemma StopLbConserves(c: Config, s: State, i: nat, stage: StopStage, weigh: Weight)
    requires Shaped(c, s) && Conserved(c, s, weigh) && s.main == StopLb(i, stage)
    ensures Conserved(c, StopLbStep(c, s, i, stage), weigh)
  {
    if i < |s.lbs| {
      var lb := s.lbs[i];
      LbsUpdate(s.lbs, i, lb.(running := false), weigh);
      LbsUpdate(s.lbs, i, lb.(queue := lb.queue.(shut := true)), weigh);
    }
  }

  lemma StopFpConserves(c: Config, s: State, j: nat, stage: StopStage, weigh: Weight)
    requires Shaped(c, s) && Conserved(c, s, weigh) && s.main == StopFp(j, stage)
    ensures Conserved(c, StopFpStep(c, s, j, stage), weigh)
  {
    if j < |s.fps| {
      var fp := s.fps[j];
      FpsUpdate(c.handler, s.fps, j, fp.(running := false), weigh);
      FpsUpdate(c.handler, s.fps, j, fp.(queue := fp.queue.(shut := true)), weigh);
    }
  }

  lemma MainConserves(c: Config, s: State, weigh: Weight)
    requires ValidConfig(c) && Controlled(c, s) && Conserved(c, s, weigh)
    ensures Conserved(c, MainStep(c, s), weigh)
  {
    match s.main
    case Reading => ReadConserves(c, s, weigh);
    case Pushing(p) => DispatchConserves(c, s, p, weigh);
    case StopLb(i, stage) => StopLbConserves(c, s, i, stage, weigh);
    case StopFp(j, stage) => StopFpConserves(c, s, j, stage, weigh);
    case StopWriter(_) =>
    case Done =>
  }

  lemma LbNextKeepsPackets(lb: LbState)
    requires !lb.pc.LbHold?
    ensures LbPackets(LbNext(lb)) == LbPackets(lb)
  {
  }

  lemma HandLoses(lb: LbState, p: Packet, weigh: Weight)
    requires lb.pc == LbHold(p)
    ensures LbHas(lb.(pc := LbCheck), weigh) + weigh(p) == LbHas(lb, weigh)
  {
    var idle := lb.(pc := LbCheck);
    assert LbPackets(lb) == [p] + LbPackets(idle);
    SumAppend([p], LbPackets(idle), weigh);
    SumOfOne(p, weigh);
  }

  lemma FpQueueGains(h: Handler, fp: FpState, p: Packet, weigh: Weight)
    ensures FpHas(h, fp.(queue := Queue(fp.queue.items + [p], false)), weigh) == FpHas(h, fp, weigh) + weigh(p)
  {
    var held := InWork(fp.pc) + fp.queue.items;
    assert InWork(fp.pc) + (fp.queue.items + [p]) == held + [p];
    SumOne(held, p, weigh);
  }

  lemma PushConserves(c: Config, s: State, i: nat, p: Packet, weigh: Weight)
    requires ValidConfig(c) && Controlled(c, s) && Conserved(c, s, weigh) && i < |s.lbs|
    requires s.lbs[i].pc == LbHold(p) && LbRouted(c, i, s.lbs[i])
    ensures Conserved(c, LbStep(c, s, i), weigh)
  {
    LbPush(c, s, i);
    var j := FpOf(c, p.tuple);
    HandLoses(s.lbs[i], p, weigh);
    LbsUpdate(s.lbs, i, s.lbs[i].(pc := LbCheck), weigh);
    FpQueueGains(c.handler, s.fps[j], p, weigh);
    FpsUpdate(c.handler, s.fps, j, s.fps[j].(queue := Queue(s.fps[j].queue.items + [p], false)), weigh);
  }

  lemma LbConserves(c: Config, s: State, i: nat, weigh: Weight)
    requires ValidConfig(c) && Controlled(c, s) && Conserved(c, s, weigh) && i < |s.lbs| && LbRouted(c, i, s.lbs[i])
    ensures Conserved(c, LbStep(c, s, i), weigh)
  {
    match s.lbs[i].pc
    case LbHold(p) => PushConserves(c, s, i, p, weigh);
    case _ =>
      LbNextKeepsPackets(s.lbs[i]);
      LbsUpdate(s.lbs, i, LbNext(s.lbs[i]), weigh);
  }

  /** What a fast path hands to the output in its next move. */
  function Emitted(c: Config, pc: FpPc, out: Queue): seq<Packet> {
    if pc.FpEmit? && out.PushReturns(c.capacity) then [pc.packet] else []
  }

  /** A fast path's own move loses nothing but what it emits. */
  lemma FpNextConserves(c: Config, fp: FpState, out: Queue, weigh: Weight)
    requires fp.flows == FlowsAfter(c.handler, fp.handled)
    ensures FpHas(c.handler, FpNext(c, fp, out), weigh) + Sum(Emitted(c, fp.pc, out), weigh) == FpHas(c.handler, fp, weigh)
  {
    match fp.pc
    case FpPop =>
      if fp.queue.items != [] {
        assert [] + fp.queue.items == [fp.queue.items[0]] + fp.queue.items[1..];
      }
    case FpWork(p) => WorkConserves(c, fp, out, weigh);
    case _ =>
  }

  lemma WorkBalances(queued: seq<Packet>, dropped: seq<Packet>, p: Packet, passes: bool, weigh: Weight)
    ensures Sum([p] + queued, weigh) + Sum(dropped, weigh)
      == Sum([] + queued, weigh) + Sum(if passes then [p] else [], weigh) + Sum(dropped + if passes then [] else [p], weigh)
  {
    SumAppend([p], queued, weigh);
    SumAppend([], queued, weigh);
    SumAppend(dropped, if passes then [] else [p], weigh);
  }

  lemma WorkConserves(c: Config, fp: FpState, out: Queue, weigh: Weight)
    requires fp.pc.FpWork? && fp.flows == FlowsAfter(c.handler, fp.handled)
    ensures FpHas(c.handler, FpNext(c, fp, out), weigh) == FpHas(c.handler, fp, weigh)
  {
    var p, fp' := fp.pc.packet, FpNext(c, fp, out);
    var passes := Passes(c.handler, fp.handled, p);
    PassOne(c.handler, fp.handled, p);
    assert InWork(fp.pc) == [p] && InWork(fp'.pc) == [] && InEmit(fp.pc) == [];
    assert InEmit(fp'.pc) == (if passes then [p] else []) && fp'.queue == fp.queue;
    WorkBalances(fp.queue.items, Dropped(c.handler, fp.handled), p, passes, weigh);
  }

  lemma OutputGains(c: Config, s: State, j: nat)
    requires ValidConfig(c) && Controlled(c, s) && j < |s.fps|
    ensures Output(FpStep(c, s, j)) == Output(s) + Emitted(c, s.fps[j].pc, s.out)
  {
  }

  lemma FpConserves(c: Config, s: State, j: nat, weigh: Weight)
    requires ValidConfig(c) && Controlled(c, s) && Conserved(c, s, weigh) && j < |s.fps| && Faithful(c, s, j)
    ensures Conserved(c, FpStep(c, s, j), weigh)
  {
    FpNextConserves(c, s.fps[j], s.out, weigh);
    FpsUpdate(c.handler, s.fps, j, FpNext(c, s.fps[j], s.out), weigh);
    OutputGains(c, s, j);
    SumAppend(Output(s), Emitted(c, s.fps[j].pc, s.out), weigh);
  }

  lemma WriterFrame(s: State)
    ensures var s' := WriterStep(s);
      s'.main == s.main && s'.next == s.next && s'.lbs == s.lbs && s'.fps == s.fps && s'.stats == s.stats
  {
  }

  lemma WriterConserves(c: Config, s: State, weigh: Weight)
    requires Shaped(c, s) && Conserved(c, s, weigh)
    ensures Conserved(c, WriterStep(s), weigh)
  {
    WriterKeepsOutput(s);
    WriterFrame(s);
  }

  lemma AnyLbConserves(c: Config, s: State, i: nat, weigh: Weight)
    requires ValidConfig(c) && Controlled(c, s) && Routed(c, s) && Conserved(c, s, weigh) && i < |s.lbs|
    ensures Conserved(c, Exec(c, s, Lb(i)), weigh)
  {
    assert LbRouted(c, i, s.lbs[i]);
    LbConserves(c, s, i, weigh);
  }

  lemma AnyFpConserves(c: Config, s: State, j: nat, weigh: Weight)
    requires ValidConfig(c) && Controlled(c, s) && AllFaithful(c, s) && Conserved(c, s, weigh) && j < |s.fps|
    ensures Conserved(c, Exec(c, s, Fp(j)), weigh)
  {
    assert Faithful(c, s, j);
    FpConserves(c, s, j, weigh);
  }

  lemma StepConserves(c: Config, s: State, t: Thread, weigh: Weight)
    requires ValidConfig(c) && Controlled(c, s) && Routed(c, s) && AllFaithful(c, s) && Conserved(c, s, weigh)
    ensures Conserved(c, Exec(c, s, t), weigh)
  {
    var s' := Exec(c, s, t);
    match t
    case Main =>
      MainConserves(c, s, weigh);
      assert s' == MainStep(c, s);
    case Lb(i) =>
      if i < |s.lbs| {
        AnyLbConserves(c, s, i, weigh);
        assert s' == LbStep(c, s, i);
      }
    case Fp(j) =>
      if j < |s.fps| {
        AnyFpConserves(c, s, j, weigh);
        assert s' == FpStep(c, s, j);
      }
    case Writer =>
      WriterConserves(c, s, weigh);
      assert s' == WriterStep(s);
  }

  lemma InitConserves(c: Config, weigh: Weight)
    requires ValidConfig(c)
    ensures Conserved(c, Init(c), weigh)
  {
    SumToIsZero(Init(c).lbs, c.numLbs, (lb: LbState) => LbHas(lb, weigh));
    SumToIsZero(Init(c).fps, NumFps(c), (fp: FpState) => FpHas(c.handler, fp, weigh));
  }

  /** In every run, what was read weighs what is in the places, however packets are weighed. */
  lemma {:induction false} RunConserves(c: Config, schedule: seq<Thread>, weigh: Weight)
    requires ValidConfig(c)
    ensures Conserved(c, Run(c, schedule), weigh)
  {
    if schedule == [] {
      InitConserves(c, weigh);
    } else {
      var before := schedule[..|schedule| - 1];
      RunRefines(c, before);
      RunConserves(c, before, weigh);
      StepConserves(c, Run(c, before), schedule[|schedule| - 1], weigh);
    }
  }

  // ---------------------------------------------------------------- one place for each packet

  function CopyOf(p: Packet): Weight {
    (q: Packet) => if q == p then 1 else 0
  }

  lemma {:induction false} ReadOnce(c: Config, n: nat, m: nat)
    requires ValidConfig(c) && m <= |c.input| && n < |c.input|
    ensures SumTo(c.input[..m], m, CopyOf(c.input[n])) == if n < m then 1 else 0
  {
    if m > 0 {
      var p := c.input[n];
      ReadOnce(c, n, m - 1);
      SumToAgrees(c.input[..m], c.input[..m - 1], m - 1, CopyOf(p));
      assert c.input[..m][m - 1] == c.input[m - 1];
      assert c.input[m - 1].id == m - 1 && p.id == n;
    }
  }

  /** Packet number `n`, once read, is in exactly one place, once; before that it is nowhere. */
  lemma ExactlyOnePlace(c: Config, schedule: seq<Thread>, n: nat)
    requires ValidConfig(c) && n < |c.input|
    ensures InPlaces(c, Run(c, schedule), CopyOf(c.input[n])) == if n < Run(c, schedule).next then 1 else 0
  {
    RunConserves(c, schedule, CopyOf(c.input[n]));
    ReadOnce(c, n, Run(c, schedule).next);
  }

  // ---------------------------------------------------------------- the counters

  const ONE: Weight := (_: Packet) => 1

  lemma SumOfOnes(ps: seq<Packet>)
    ensures Sum(ps, ONE) == |ps|
  {
    SumToOfOnes(ps, |ps|, ONE);
  }

  function DroppedBy(h: Handler, fps: seq<FpState>): nat {
    Sum(fps, (fp: FpState) => |Dropped(h, fp.handled)|)
  }

  function EmittedBy(fps: seq<FpState>): nat {
    Sum(fps, (fp: FpState) => |InEmit(fp.pc)|)
  }

  lemma CountsUpdate(h: Handler, fps: seq<FpState>, j: nat, fp: FpState)
    requires j < |fps|
    ensures DroppedBy(h, fps[j := fp]) + |Dropped(h, fps[j].handled)| == DroppedBy(h, fps) + |Dropped(h, fp.handled)|
    ensures EmittedBy(fps[j := fp]) + |InEmit(fps[j].pc)| == EmittedBy(fps) + |InEmit(fp.pc)|
  {
    SumUpdate(fps, j, fp, (fp: FpState) => |Dropped(h, fp.handled)|);
    SumUpdate(fps, j, fp, (fp: FpState) => |InEmit(fp.pc)|);
  }

  /** The counters agree with what has happened. */
  predicate CountersOk(c: Config, s: State)
    requires Shaped(c, s)
  {
    && s.stats.total == s.next
    && s.stats.dropped == DroppedBy(c.handler, s.fps)
    && s.stats.forwarded == EmittedBy(s.fps) + |Output(s)|
    && |s.stats.apps| == s.stats.forwarded + s.stats.dropped
  }

  /** A step that changes a fast path only in its flag or its queue leaves the counts alone. */
  lemma QuietUpdate(h: Handler, fps: seq<FpState>, j: nat, fp: FpState)
    requires j < |fps| && fp.handled == fps[j].handled && fp.pc == fps[j].pc
    ensures DroppedBy(h, fps[j := fp]) == DroppedBy(h, fps) && EmittedBy(fps[j := fp]) == EmittedBy(fps)
  {
    CountsUpdate(h, fps, j, fp);
  }

  lemma StopFpKeepsCounters(c: Config, s: State, j: nat, stage: StopStage)
    requires Shaped(c, s) && CountersOk(c, s)
    ensures CountersOk(c, StopFpStep(c, s, j, stage))
  {
    if j < |s.fps| {
      QuietUpdate(c.handler, s.fps, j, s.fps[j].(running := false));
      QuietUpdate(c.handler, s.fps, j, s.fps[j].(queue := s.fps[j].queue.(shut := true)));
    }
  }

  lemma MainKeepsCounters(c: Config, s: State)
    requires ValidConfig(c) && Shaped(c, s) && CountersOk(c, s)
    ensures CountersOk(c, MainStep(c, s))
  {
    MainKeepsOutput(c, s);
    match s.main
    case StopFp(j, stage) => StopFpKeepsCounters(c, s, j, stage);
    case _ => assert MainStep(c, s).fps == s.fps;
  }

  lemma LbKeepsCounters(c: Config, s: State, i: nat)
    requires ValidConfig(c) && Shaped(c, s) && CountersOk(c, s) && i < |s.lbs|
    ensures CountersOk(c, LbStep(c, s, i))
  {
    if s.lbs[i].pc.LbHold? {
      var p := s.lbs[i].pc.packet;
      FpIndexInRange(c, i, FpWithin(c, p.tuple));
      var j := FpIndex(c, i, FpWithin(c, p.tuple));
      QuietUpdate(c.handler, s.fps, j, s.fps[j].(queue := s.fps[j].queue.Push(p)));
    }
  }

  /** What the work on one packet adds to the counters. */
  lemma WorkCounts(c: Config, fp: FpState, stats: Stats)
    requires fp.flows == FlowsAfter(c.handler, fp.handled) && fp.pc.FpWork?
    ensures var stats' := StatsNext(c, fp, stats);
      && stats'.total == stats.total
      && stats'.dropped == stats.dropped + |Dropped(c.handler, fp.handled + [fp.pc.packet])| - |Dropped(c.handler, fp.handled)|
      && stats'.forwarded == stats.forwarded + (if Handled(c.handler, fp.flows, fp.pc.packet).blocked then 0 else 1)
      && |stats'.apps| + stats.forwarded + stats.dropped == |stats.apps| + stats'.forwarded + stats'.dropped
  {
  }

  /** What one move of a fast path adds to the two counters. */
  lemma FpNextCounts(c: Config, fp: FpState, out: Queue, stats: Stats)
    requires fp.flows == FlowsAfter(c.handler, fp.handled)
    ensures var fp', stats' := FpNext(c, fp, out), StatsNext(c, fp, stats);
      && stats'.total == stats.total
      && stats'.dropped + |Dropped(c.handler, fp.handled)| == stats.dropped + |Dropped(c.handler, fp'.handled)|
      && stats'.forwarded + |InEmit(fp.pc)| == stats.forwarded + |InEmit(fp'.pc)| + |Emitted(c, fp.pc, out)|
      && |stats'.apps| + stats.forwarded + stats.dropped == |stats.apps| + stats'.forwarded + stats'.dropped
  {
    if fp.pc.FpWork? {
      WorkCounts(c, fp, stats);
    }
  }

  lemma FpKeepsCounters(c: Config, s: State, j: nat)
    requires ValidConfig(c) && Controlled(c, s) && CountersOk(c, s) && j < |s.fps| && Faithful(c, s, j)
    ensures CountersOk(c, FpStep(c, s, j))
  {
    FpNextCounts(c, s.fps[j], s.out, s.stats);
    CountsUpdate(c.handler, s.fps, j, FpNext(c, s.fps[j], s.out));
    OutputGains(c, s, j);
  }

  lemma WriterKeepsCounters(c: Config, s: State)
    requires Shaped(c, s) && CountersOk(c, s)
    ensures CountersOk(c, WriterStep(s))
  {
    WriterKeepsOutput(s);
    WriterFrame(s);
  }

  lemma StepKeepsCounters(c: Config, s: State, t: Thread)
    requires ValidConfig(c) && Controlled(c, s) && AllFaithful(c, s) && CountersOk(c, s)
    ensures CountersOk(c, Exec(c, s, t))
  {
    match t
    case Main => MainKeepsCounters(c, s);
    case Lb(i) => if i < |s.lbs| { LbKeepsCounters(c, s, i); }
    case Fp(j) =>
      if j < |s.fps| {
        assert Faithful(c, s, j);
        FpKeepsCounters(c, s, j);
      }
    case Writer => WriterKeepsCounters(c, s);
  }

  lemma {:induction false} RunCounts(c: Config, schedule: seq<Thread>)
    requires ValidConfig(c)
    ensures CountersOk(c, Run(c, schedule))
  {
    if schedule == [] {
      SumToIsZero(Init(c).fps, NumFps(c), (fp: FpState) => |Dropped(c.handler, fp.handled)|);
      SumToIsZero(Init(c).fps, NumFps(c), (fp: FpState) => |InEmit(fp.pc)|);
    } else {
      var before := schedule[..|schedule| - 1];
      RunRefines(c, before);
      RunCounts(c, before);
      StepKeepsCounters(c, Run(c, before), schedule[|schedule| - 1]);
    }
  }

  // ---------------------------------------------------------------- the application counts

  /** What the packets handled count for, over all fast paths. */
  function CountedByAll(h: Handler, fps: seq<FpState>, app: AppType): nat {
    Sum(fps, (fp: FpState) => CountedFor(h, fp.handled, app))
  }

  /** The report's count of each application is the number of packets handled whose flow was then known as it. */
  predicate AppsOk(h: Handler, apps: multiset<AppType>, fps: seq<FpState>) {
    forall app :: apps[app] == CountedByAll(h, fps, app)
  }

  lemma CountedByAllUpdate(h: Handler, fps: seq<FpState>, j: nat, fp: FpState, app: AppType)
    requires j < |fps|
    ensures CountedByAll(h, fps[j := fp], app) + CountedFor(h, fps[j].handled, app) == CountedByAll(h, fps, app) + CountedFor(h, fp.handled, app)
  {
    SumUpdate(fps, j, fp, (fp: FpState) => CountedFor(h, fp.handled, app));
  }

  lemma QuietKeepsApps(h: Handler, apps: multiset<AppType>, fps: seq<FpState>, j: nat, fp: FpState)
    requires AppsOk(h, apps, fps) && j < |fps| && fp.handled == fps[j].handled
    ensures AppsOk(h, apps, fps[j := fp])
  {
    forall app ensures apps[app] == CountedByAll(h, fps[j := fp], app) {
      CountedByAllUpdate(h, fps, j, fp, app);
    }
  }

  lemma StopFpKeepsApps(c: Config, s: State, j: nat, stage: StopStage)
    requires Shaped(c, s) && AppsOk(c.handler, s.stats.apps, s.fps)
    ensures var s' := StopFpStep(c, s, j, stage); AppsOk(c.handler, s'.stats.apps, s'.fps)
  {
    if j < |s.fps| {
      QuietKeepsApps(c.handler, s.stats.apps, s.fps, j, s.fps[j].(running := false));
      QuietKeepsApps(c.handler, s.stats.apps, s.fps, j, s.fps[j].(queue := s.fps[j].queue.(shut := true)));
    }
  }

  lemma OtherMainStepsKeepFps(c: Config, s: State)
    requires ValidConfig(c) && Shaped(c, s) && !s.main.StopFp?
    ensures MainStep(c, s).fps == s.fps && MainStep(c, s).stats.apps == s.stats.apps
  {
  }

  lemma MainKeepsApps(c: Config, s: State)
    requires ValidConfig(c) && Shaped(c, s) && AppsOk(c.handler, s.stats.apps, s.fps)
    ensures var s' := MainStep(c, s); AppsOk(c.handler, s'.stats.apps, s'.fps)
  {
    if s.main.StopFp? {
      StopFpKeepsApps(c, s, s.main.fp, s.main.stage);
    } else {
      OtherMainStepsKeepFps(c, s);
    }
  }

  lemma LbKeepsApps(c: Config, s: State, i: nat)
    requires ValidConfig(c) && Shaped(c, s) && i < |s.lbs| && AppsOk(c.handler, s.stats.apps, s.fps)
    ensures var s' := LbStep(c, s, i); AppsOk(c.handler, s'.stats.apps, s'.fps)
  {
    if s.lbs[i].pc.LbHold? {
      var p := s.lbs[i].pc.packet;
      FpIndexInRange(c, i, FpWithin(c, p.tuple));
      var j := FpIndex(c, i, FpWithin(c, p.tuple));
      QuietKeepsApps(c.handler, s.stats.apps, s.fps, j, s.fps[j].(queue := s.fps[j].queue.Push(p)));
    }
  }

  /** One move of a fast path counts the packet that it works on, for the entry that its work leaves. */
  lemma FpNextCountsOne(c: Config, fp: FpState, out: Queue, stats: Stats)
    ensures if fp.pc.FpWork? then
        && StatsNext(c, fp, stats).apps == stats.apps + multiset{Handled(c.handler, fp.flows, fp.pc.packet).app}
        && FpNext(c, fp, out).handled == fp.handled + [fp.pc.packet]
      else StatsNext(c, fp, stats).apps == stats.apps && FpNext(c, fp, out).handled == fp.handled
  {
  }

  lemma FpNextCountsApp(c: Config, fp: FpState, out: Queue, stats: Stats, app: AppType)
    requires fp.flows == FlowsAfter(c.handler, fp.handled)
    ensures StatsNext(c, fp, stats).apps[app] + CountedFor(c.handler, fp.handled, app)
      == stats.apps[app] + CountedFor(c.handler, FpNext(c, fp, out).handled, app)
  {
    FpNextCountsOne(c, fp, out, stats);
    if fp.pc.FpWork? {
      CountedForOne(c.handler, fp.handled, fp.pc.packet, app);
    }
  }

  lemma FpKeepsApps(c: Config, s: State, j: nat)
    requires ValidConfig(c) && Shaped(c, s) && j < |s.fps| && s.fps[j].flows == FlowsAfter(c.handler, s.fps[j].handled)
    requires AppsOk(c.handler, s.stats.apps, s.fps)
    ensures var s' := FpStep(c, s, j); AppsOk(c.handler, s'.stats.apps, s'.fps)
  {
    var s', fp := FpStep(c, s, j), FpNext(c, s.fps[j], s.out);
    forall app ensures s'.stats.apps[app] == CountedByAll(c.handler, s'.fps, app) {
      FpNextCountsApp(c, s.fps[j], s.out, s.stats, app);
      CountedByAllUpdate(c.handler, s.fps, j, fp, app);
    }
  }

  lemma StepKeepsApps(c: Config, s: State, t: Thread)
    requires ValidConfig(c) && Controlled(c, s) && AllFaithful(c, s) && AppsOk(c.handler, s.stats.apps, s.fps)
    ensures var s' := Exec(c, s, t); AppsOk(c.handler, s'.stats.apps, s'.fps)
  {
    match t
    case Main => MainKeepsApps(c, s);
    case Lb(i) => if i < |s.lbs| { LbKeepsApps(c, s, i); }
    case Fp(j) =>
      if j < |s.fps| {
        assert Faithful(c, s, j);
        FpKeepsApps(c, s, j);
      }
    case Writer =>
      WriterFrame(s);
      assert WriterStep(s).stats == s.stats;
  }

  lemma InitAppsOk(c: Config)
    requires ValidConfig(c)
    ensures AppsOk(c.handler, Init(c).stats.apps, Init(c).fps)
  {
    forall app ensures CountedByAll(c.handler, Init(c).fps, app) == 0 {
      SumToIsZero(Init(c).fps, NumFps(c), (fp: FpState) => CountedFor(c.handler, fp.handled, app));
    }
  }

  /** In every run each packet is counted for the application that its flow is known as once it is classified. */
  lemma {:induction false} RunCountsApps(c: Config, schedule: seq<Thread>)
    requires ValidConfig(c)
    ensures var s := Run(c, schedule); AppsOk(c.handler, s.stats.apps, s.fps)
  {
    if schedule == [] {
      InitAppsOk(c);
    } else {
      var before := schedule[..|schedule| - 1];
      RunRefines(c, before);
      RunCountsApps(c, before);
      StepKeepsApps(c, Run(c, before), schedule[|schedule| - 1]);
    }
  }

  // ---------------------------------------------------------------- and against one sequential pass

  /** The packets of a stream that are routed to worker `j`. */
  function RoutedTo(route: FiveTuple -> nat, j: nat): FiveTuple -> bool {
    (t: FiveTuple) => route(t) == j
  }

  function Shares(route: FiveTuple -> nat, n: nat, ps: seq<Packet>): seq<seq<Packet>> {
    seq(n, j requires 0 <= j < n => Select(ps, RoutedTo(route, j)))
  }

  function CountedInShares(h: Handler, route: FiveTuple -> nat, n: nat, ps: seq<Packet>, app: AppType): nat {
    Sum(Shares(route, n, ps), (own: seq<Packet>) => CountedFor(h, own, app))
  }

  lemma SharesOne(route: FiveTuple -> nat, n: nat, ps: seq<Packet>, p: Packet)
    requires route(p.tuple) < n
    ensures var k := route(p.tuple);
      Shares(route, n, ps + [p]) == Shares(route, n, ps)[k := Select(ps, RoutedTo(route, k)) + [p]]
  {
    var k := route(p.tuple);
    forall j | 0 <= j < n
      ensures Shares(route, n, ps + [p])[j] == if j == k then Select(ps, RoutedTo(route, k)) + [p] else Shares(route, n, ps)[j]
    {
      SelectOne(ps, p, RoutedTo(route, j));
    }
  }

  /** A packet is counted for the same application whether the pass is over the whole stream or over its worker's share. */
  lemma {:induction false} SharesCountAlike(h: Handler, route: FiveTuple -> nat, n: nat, ps: seq<Packet>, app: AppType)
    requires forall t :: route(t) < n
    ensures CountedInShares(h, route, n, ps, app) == CountedFor(h, ps, app)
  {
    var count := (own: seq<Packet>) => CountedFor(h, own, app);
    if ps == [] {
      SumToIsZero(Shares(route, n, ps), n, count);
    } else {
      var before, p := ps[..|ps| - 1], ps[|ps| - 1];
      assert ps == before + [p];
      SharesCountAlike(h, route, n, before, app);
      SharesOne(route, n, before, p);
      var j := route(p.tuple);
      var own := Select(before, RoutedTo(route, j));
      SumUpdate(Shares(route, n, before), j, own + [p], count);
      FlowsAreIndependent(h, before, RoutedTo(route, j));
      assert Lookup(FlowsAfter(h, before), p.tuple) == Lookup(FlowsAfter(h, own), p.tuple);
      CountedForOne(h, before, p, app);
      CountedForOne(h, own, p, app);
    }
  }

  function FpRoute(c: Config): FiveTuple -> nat
    requires ValidConfig(c)
  {
    (t: FiveTuple) => FpOf(c, t)
  }

  lemma RoutesExist(c: Config)
    requires ValidConfig(c)
    ensures forall t :: FpRoute(c)(t) < NumFps(c)
  {
    forall t ensures FpRoute(c)(t) < NumFps(c) {
      RoutesAgree(c, t);
    }
  }

  lemma {:induction false} RoutedToFp(c: Config, ps: seq<Packet>, j: nat)
    requires ValidConfig(c)
    ensures Select(ps, RoutedTo(FpRoute(c), j)) == Select(ps, ToFp(c, j))
  {
    if ps != [] {
      RoutedToFp(c, ps[..|ps| - 1], j);
    }
  }

  /** Drained, the report counts each application as one sequential pass over the packets read would. */
  lemma DrainedCountsAreSequential(c: Config, schedule: seq<Thread>, app: AppType)
    requires ValidConfig(c) && Drained(Run(c, schedule))
    ensures var s := Run(c, schedule); s.stats.apps[app] == CountedFor(c.handler, c.input[..s.next], app)
  {
    var s := Run(c, schedule);
    RunCountsApps(c, schedule);
    RunRefines(c, schedule);
    RoutesExist(c);
    SharesCountAlike(c.handler, FpRoute(c), NumFps(c), c.input[..s.next], app);
    DrainedHandledAreShares(c, s);
    SumOverHandled(c.handler, s.fps, Shares(FpRoute(c), NumFps(c), c.input[..s.next]), app);
  }

  lemma SumOverHandled(h: Handler, fps: seq<FpState>, shares: seq<seq<Packet>>, app: AppType)
    requires |fps| == |shares| && forall j :: 0 <= j < |fps| ==> fps[j].handled == shares[j]
    ensures CountedByAll(h, fps, app) == Sum(shares, (own: seq<Packet>) => CountedFor(h, own, app))
  {
    SumToAlike(fps, shares, |fps|, (fp: FpState) => CountedFor(h, fp.handled, app), (own: seq<Packet>) => CountedFor(h, own, app));
  }

  lemma DrainedHandledAreShares(c: Config, s: State)
    requires ValidConfig(c) && Refines(c, s) && Drained(s)
    ensures forall j :: 0 <= j < |s.fps| ==> s.fps[j].handled == Shares(FpRoute(c), NumFps(c), c.input[..s.next])[j]
  {
    forall j | 0 <= j < |s.fps| ensures s.fps[j].handled == Select(c.input[..s.next], RoutedTo(FpRoute(c), j)) {
      DrainedHandledIsShare(c, s, j);
      RoutedToFp(c, c.input[..s.next], j);
    }
  }

  lemma DrainedHandledIsShare(c: Config, s: State, j: nat)
    requires ValidConfig(c) && Refines(c, s) && Drained(s) && j < |s.fps|
    ensures s.fps[j].handled == Select(c.input[..s.next], ToFp(c, j))
  {
    var i, w := j / c.fpsPerLb, j % c.fpsPerLb;
    WorkerHasBalancer(c, j);
    assert InOrder(c, s, i, FpIndex(c, i, w));
    assert Upstream(s.main, s.lbs[i]) == [] && Received(s.fps[j]) == s.fps[j].handled;
  }

  lemma WorkerHasBalancer(c: Config, j: nat)
    requires ValidConfig(c) && j < NumFps(c)
    ensures j / c.fpsPerLb < c.numLbs && j % c.fpsPerLb < c.fpsPerLb && FpIndex(c, j / c.fpsPerLb, j % c.fpsPerLb) == j
  {
    var i := j / c.fpsPerLb;
    assert i * c.fpsPerLb + j % c.fpsPerLb == j;
    RangesLieApart(c, c.numLbs - 1, i);
    assert (c.numLbs - 1) * c.fpsPerLb + c.fpsPerLb == NumFps(c);
  }

  // ---------------------------------------------------------------- the final report

  function LeftWithLbs(s: State): nat {
    Sum(s.lbs, (lb: LbState) => |lb.queue.items|)
  }

  function LeftWithFps(s: State): nat {
    Sum(s.fps, (fp: FpState) => |fp.queue.items|)
  }

  predicate BooksBalance(c: Config, s: State) {
    && s.stats.total == |c.input|
    && s.stats.total == s.stats.forwarded + s.stats.dropped + LeftWithLbs(s) + LeftWithFps(s)
    && |s.written| == s.stats.forwarded
    && |s.stats.apps| == s.stats.forwarded + s.stats.dropped
  }

  lemma LbsAtRest(c: Config, s: State)
    requires Controlled(c, s) && s.main.Done?
    ensures LbsHave(s.lbs, ONE) == LeftWithLbs(s)
  {
    var f, g := (lb: LbState) => LbHas(lb, ONE), (lb: LbState) => |lb.queue.items|;
    forall i | 0 <= i < |s.lbs| ensures f(s.lbs[i]) == g(s.lbs[i]) {
      assert LbOk(s.main, i, s.lbs[i]);
      assert LbPackets(s.lbs[i]) == s.lbs[i].queue.items;
      SumOfOnes(LbPackets(s.lbs[i]));
    }
    SumToPointwise(s.lbs, |s.lbs|, f, g);
  }

  lemma FpsAtRest(c: Config, s: State)
    requires Controlled(c, s) && s.main.Done?
    ensures FpsHave(c.handler, s.fps, ONE) == LeftWithFps(s) + DroppedBy(c.handler, s.fps) && EmittedBy(s.fps) == 0
  {
    var h := (fp: FpState) => FpHas(c.handler, fp, ONE);
    var f, g := (fp: FpState) => |fp.queue.items|, (fp: FpState) => |Dropped(c.handler, fp.handled)|;
    forall j | 0 <= j < |s.fps| ensures h(s.fps[j]) == f(s.fps[j]) + g(s.fps[j]) && InEmit(s.fps[j].pc) == [] {
      var fp := s.fps[j];
      assert FpOk(s.main, j, fp);
      assert InWork(fp.pc) + fp.queue.items == fp.queue.items;
      SumOfOnes(fp.queue.items);
      SumOfOnes(Dropped(c.handler, fp.handled));
    }
    SumToOfSums(s.fps, |s.fps|, f, g, h);
    SumToIsZero(s.fps, |s.fps|, (fp: FpState) => |InEmit(fp.pc)|);
  }

  /**
   The report balances: when `process` returns, everything forwarded is written, and what is neither
   forwarded nor dropped is exactly what the stopped threads left in their queues.
   */
  lemma FinalReport(c: Config, schedule: seq<Thread>)
    requires ValidConfig(c) && Run(c, schedule).main.Done?
    ensures BooksBalance(c, Run(c, schedule))
    ensures AppsOk(c.handler, Run(c, schedule).stats.apps, Run(c, schedule).fps)
  {
    var s := Run(c, schedule);
    RunCountsApps(c, schedule);
    RunIsControlled(c, schedule);
    RunCounts(c, schedule);
    RunConserves(c, schedule, ONE);
    LbsAtRest(c, s);
    FpsAtRest(c, s);
    assert Output(s) == s.written;
    SumOfOnes(s.written);
    SumOfOnes(c.input[..s.next]);
  }
}
