/**
 The multi-threaded engine as a state machine: main thread (reader, then the stop sequence), load
 balancers, fast paths and writer, joined by bounded queues. A thread's next step is a function of
 the state; a run is any schedule of threads. A scheduled thread that must wait leaves the state as
 it is.
 */
module MtPipeline {
  import opened Types
  import opened MtStreams

  // ---------------------------------------------------------------- configuration

  datatype Config = Config(
    numLbs: nat, fpsPerLb: nat,
    capacity: nat,           // of every queue
    std: StdHash,
    handler: Handler,
    input: seq<Packet>)      // the packets the reader accepts, in order

  /** At least one thread of each kind and one place in each queue; ids are handed out in reading order. */
  predicate ValidConfig(c: Config) {
    && c.numLbs >= 1 && c.fpsPerLb >= 1 && c.capacity >= 1
    && forall i :: 0 <= i < |c.input| ==> c.input[i].id == i
  }

  function NumFps(c: Config): nat {
    c.numLbs * c.fpsPerLb
  }

  /** The reader's choice of load balancer, and that balancer's choice of fast path. */
  function LbOf(c: Config, t: FiveTuple): nat
    requires c.numLbs >= 1
  {
    Hash(c.std, t) % c.numLbs
  }

  function FpWithin(c: Config, t: FiveTuple): nat
    requires c.fpsPerLb >= 1
  {
    Hash(c.std, t) % c.fpsPerLb
  }

  /** Balancer `lb` serves the fast paths numbered from `lb * fpsPerLb`. */
  function FpIndex(c: Config, lb: nat, within: nat): nat {
    lb * c.fpsPerLb + within
  }

  function FpOf(c: Config, t: FiveTuple): nat
    requires c.numLbs >= 1 && c.fpsPerLb >= 1
  {
    FpIndex(c, LbOf(c, t), FpWithin(c, t))
  }

  lemma FpIndexInRange(c: Config, lb: nat, within: nat)
    requires lb < c.numLbs && within < c.fpsPerLb
    ensures FpIndex(c, lb, within) < NumFps(c)
  {
    assert (lb + 1) * c.fpsPerLb <= c.numLbs * c.fpsPerLb;
  }

  /** No two balancers share a fast path. */
  lemma FpIndexIsInjective(c: Config, lb1: nat, within1: nat, lb2: nat, within2: nat)
    requires within1 < c.fpsPerLb && within2 < c.fpsPerLb
    requires FpIndex(c, lb1, within1) == FpIndex(c, lb2, within2)
    ensures lb1 == lb2 && within1 == within2
  {
    RangesLieApart(c, lb1, lb2);
    RangesLieApart(c, lb2, lb1);
  }

  lemma RangesLieApart(c: Config, lb1: nat, lb2: nat)
    ensures lb1 < lb2 ==> lb1 * c.fpsPerLb + c.fpsPerLb <= lb2 * c.fpsPerLb
  {
    if lb1 < lb2 {
      assert lb2 * c.fpsPerLb >= (lb1 + 1) * c.fpsPerLb;
    }
  }

  lemma RoutesAgree(c: Config, t: FiveTuple)
    requires c.numLbs >= 1 && c.fpsPerLb >= 1
    ensures LbOf(c, t) == LbOf(c, t.Canonical()) < c.numLbs
    ensures FpOf(c, t) == FpOf(c, t.Canonical()) < NumFps(c)
  {
    HashIsSymmetric(c.std, t);
    FpIndexInRange(c, LbOf(c, t), FpWithin(c, t));
  }

  // ---------------------------------------------------------------- queues

  datatype Queue = Queue(items: seq<Packet>, shut: bool) {
    /** A push goes through when there is room, and also, without effect, on a queue that was shut down. */
    predicate PushReturns(capacity: nat) {
      |items| < capacity || shut
    }

    function Push(p: Packet): Queue {
      if shut then this else this.(items := items + [p])
    }

    function Pop(): Queue
      requires items != []
    {
      this.(items := items[1..])
    }
  }

  const EMPTY_QUEUE := Queue([], false)

  // ---------------------------------------------------------------- threads and state

  /** The polling loop of a balancer: look at the flag, pop, push on. */
  datatype LbPc = LbCheck | LbPop | LbHold(packet: Packet) | LbExited

  datatype LbState = LbState(running: bool, queue: Queue, pc: LbPc)

  /** A fast path: look at the flag, pop, work on the packet, push it out when it passes. */
  datatype FpPc = FpCheck | FpPop | FpWork(packet: Packet) | FpEmit(packet: Packet) | FpExited

  /** `handled` records what the thread has worked through; the program itself only counts it. */
  datatype FpState = FpState(running: bool, queue: Queue, pc: FpPc, flows: Flows, handled: seq<Packet>)

  /** The writer: the flag, then the queue's size, decide whether to pop once more. */
  datatype WriterPc = CheckFlag | CheckSize | WriterPop | Writing(packet: Packet) | WriterExited

  /** `stop`: clear the running flag, shut the queue down, join the thread. */
  datatype StopStage = Clear | Shut | Join

  datatype MainPc =
    | Reading
    | Pushing(packet: Packet)
    | StopLb(lb: nat, stage: StopStage)
    | StopFp(fp: nat, stage: StopStage)
    | StopWriter(stage: StopStage)
    | Done

  /** `app_counts` as a multiset: the count of an application is its multiplicity. */
  datatype Stats = Stats(total: nat, forwarded: nat, dropped: nat, apps: multiset<AppType>)

  datatype State = State(
    main: MainPc, next: nat,
    lbs: seq<LbState>, fps: seq<FpState>,
    out: Queue, outRunning: bool, writer: WriterPc, written: seq<Packet>,
    stats: Stats)

  predicate Shaped(c: Config, s: State) {
    && |s.lbs| == c.numLbs
    && |s.fps| == NumFps(c)
    && s.next <= |c.input|
  }

  function Init(c: Config): State {
    State(Reading, 0,
      seq(c.numLbs, _ => LbState(true, EMPTY_QUEUE, LbCheck)),
      seq(NumFps(c), _ => FpState(true, EMPTY_QUEUE, FpCheck, map[], [])),
      EMPTY_QUEUE, true, CheckFlag, [], Stats(0, 0, 0, multiset{}))
  }

  // ---------------------------------------------------------------- steps

  datatype Thread = Main | Lb(lb: nat) | Fp(fp: nat) | Writer

  function ReadStep(c: Config, s: State): (s': State)
    requires Shaped(c, s)
    ensures Shaped(c, s')
  {
    if s.next < |c.input| then
      s.(main := Pushing(c.input[s.next]), next := s.next + 1, stats := s.stats.(total := s.stats.total + 1))
    else s.(main := StopLb(0, Clear))
  }

  function DispatchStep(c: Config, s: State, p: Packet): (s': State)
    requires ValidConfig(c) && Shaped(c, s)
    ensures Shaped(c, s')
  {
    RoutesAgree(c, p.tuple);
    var i := LbOf(c, p.tuple);
    var lb := s.lbs[i];
    if lb.queue.PushReturns(c.capacity) then s.(main := Reading, lbs := s.lbs[i := lb.(queue := lb.queue.Push(p))]) else s
  }

  function StopLbStep(c: Config, s: State, i: nat, stage: StopStage): (s': State)
    requires Shaped(c, s)
    ensures Shaped(c, s')
  {
    if i >= |s.lbs| then s.(main := StopFp(0, Clear))
    else
      var lb := s.lbs[i];
      match stage
      case Clear => s.(main := StopLb(i, Shut), lbs := s.lbs[i := lb.(running := false)])
      case Shut => s.(main := StopLb(i, Join), lbs := s.lbs[i := lb.(queue := lb.queue.(shut := true))])
      case Join => if lb.pc.LbExited? then s.(main := StopLb(i + 1, Clear)) else s
  }

  function StopFpStep(c: Config, s: State, j: nat, stage: StopStage): (s': State)
    requires Shaped(c, s)
    ensures Shaped(c, s')
  {
    if j >= |s.fps| then s.(main := StopWriter(Clear))
    else
      var fp := s.fps[j];
      match stage
      case Clear => s.(main := StopFp(j, Shut), fps := s.fps[j := fp.(running := false)])
      case Shut => s.(main := StopFp(j, Join), fps := s.fps[j := fp.(queue := fp.queue.(shut := true))])
      case Join => if fp.pc.FpExited? then s.(main := StopFp(j + 1, Clear)) else s
  }

  function StopWriterStep(s: State, stage: StopStage): State {
    match stage
    case Clear => s.(main := StopWriter(Shut), outRunning := false)
    case Shut => s.(main := StopWriter(Join), out := s.out.(shut := true))
    case Join => if s.writer.WriterExited? then s.(main := Done) else s
  }

  function MainStep(c: Config, s: State): (s': State)
    requires ValidConfig(c) && Shaped(c, s)
    ensures Shaped(c, s')
  {
    match s.main
    case Reading => ReadStep(c, s)
    case Pushing(p) => DispatchStep(c, s, p)
    case StopLb(i, stage) => StopLbStep(c, s, i, stage)
    case StopFp(j, stage) => StopFpStep(c, s, j, stage)
    case StopWriter(stage) => StopWriterStep(s, stage)
    case Done => s
  }

  /** A balancer's own moves: look at the flag, pop. */
  function LbNext(lb: LbState): LbState {
    match lb.pc
    case LbCheck => lb.(pc := if lb.running then LbPop else LbExited)
    case LbPop =>
      if lb.queue.items == [] then lb.(pc := LbCheck)
      else lb.(pc := LbHold(lb.queue.items[0]), queue := lb.queue.Pop())
    case _ => lb
  }

  function LbPushStep(c: Config, s: State, i: nat, p: Packet): (s': State)
    requires ValidConfig(c) && Shaped(c, s) && i < |s.lbs|
    ensures Shaped(c, s')
  {
    FpIndexInRange(c, i, FpWithin(c, p.tuple));
    var j := FpIndex(c, i, FpWithin(c, p.tuple));
    var fp := s.fps[j];
    if fp.queue.PushReturns(c.capacity) then
      s.(lbs := s.lbs[i := s.lbs[i].(pc := LbCheck)], fps := s.fps[j := fp.(queue := fp.queue.Push(p))])
    else s
  }

  function LbStep(c: Config, s: State, i: nat): (s': State)
    requires ValidConfig(c) && Shaped(c, s) && i < |s.lbs|
    ensures Shaped(c, s')
  {
    match s.lbs[i].pc
    case LbHold(p) => LbPushStep(c, s, i, p)
    case _ => s.(lbs := s.lbs[i := LbNext(s.lbs[i])])
  }

  /** A fast path's own moves; the push at the end waits for room in the output queue. */
  function FpNext(c: Config, fp: FpState, out: Queue): FpState {
    match fp.pc
    case FpCheck => fp.(pc := if fp.running then FpPop else FpExited)
    case FpPop =>
      if fp.queue.items == [] then fp.(pc := FpCheck)
      else fp.(pc := FpWork(fp.queue.items[0]), queue := fp.queue.Pop())
    case FpWork(p) =>
      var entry := Handled(c.handler, fp.flows, p);
      fp.(pc := if entry.blocked then FpCheck else FpEmit(p), flows := fp.flows[p.tuple := entry], handled := fp.handled + [p])
    case FpEmit(p) => if out.PushReturns(c.capacity) then fp.(pc := FpCheck) else fp
    case FpExited => fp
  }

  function OutNext(c: Config, pc: FpPc, out: Queue): Queue {
    if pc.FpEmit? && out.PushReturns(c.capacity) then out.Push(pc.packet) else out
  }

  function StatsNext(c: Config, fp: FpState, stats: Stats): Stats {
    if !fp.pc.FpWork? then stats
    else
      var entry := Handled(c.handler, fp.flows, fp.pc.packet);
      var counted := stats.(apps := stats.apps + multiset{entry.app});
      if entry.blocked then counted.(dropped := stats.dropped + 1) else counted.(forwarded := stats.forwarded + 1)
  }

  function FpStep(c: Config, s: State, j: nat): (s': State)
    requires ValidConfig(c) && Shaped(c, s) && j < |s.fps|
    ensures Shaped(c, s')
  {
    s.(fps := s.fps[j := FpNext(c, s.fps[j], s.out)],
       out := OutNext(c, s.fps[j].pc, s.out),
       stats := StatsNext(c, s.fps[j], s.stats))
  }

  function WriterStep(s: State): State {
    match s.writer
    case CheckFlag => s.(writer := if s.outRunning then WriterPop else CheckSize)
    case CheckSize => s.(writer := if s.out.items != [] then WriterPop else WriterExited)
    case WriterPop =>
      if s.out.items == [] then s.(writer := CheckFlag)
      else s.(writer := Writing(s.out.items[0]), out := s.out.Pop())
    case Writing(p) => s.(writer := CheckFlag, written := s.written + [p])
    case WriterExited => s
  }

  function Exec(c: Config, s: State, t: Thread): (s': State)
    requires ValidConfig(c) && Shaped(c, s)
    ensures Shaped(c, s')
  {
    match t
    case Main => MainStep(c, s)
    case Lb(i) => if i < |s.lbs| then LbStep(c, s, i) else s
    case Fp(j) => if j < |s.fps| then FpStep(c, s, j) else s
    case Writer => WriterStep(s)
  }

  /** The state after any finite schedule of threads. */
  function Run(c: Config, schedule: seq<Thread>): (s: State)
    requires ValidConfig(c)
    ensures Shaped(c, s)
  {
    if schedule == [] then Init(c)
    else Exec(c, Run(c, schedule[..|schedule| - 1]), schedule[|schedule| - 1])
  }
}
