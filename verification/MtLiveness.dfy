/**
 Progress: no step ever increases the distance to the end, some thread can always decrease it within
 three of its own turns, and so every fair run stops with all threads joined.
 */
module MtLiveness {
  import opened Types
  import opened Sums
  import opened MtStreams
  import opened MtPipeline
  import opened MtControl
  import opened MtConservation
  import Routing

  // ---------------------------------------------------------------- the distance to the end

  /** Each packet is 9 steps from being written when unread, and 1 step less at each stage. */
  function LbRank(lb: LbState): nat {
    7 * |lb.queue.items| + if lb.pc.LbHold? then 7 else if lb.pc.LbExited? then 0 else 1
  }

  function FpRank(fp: FpState): nat {
    5 * |fp.queue.items| + (match fp.pc
      case FpWork(_) => 5
      case FpEmit(_) => 4
      case FpExited => 0
      case _ => 1)
  }

  function WriterRank(w: WriterPc): nat {
    match w
    case Writing(_) => 2
    case WriterExited => 0
    case _ => 1
  }

  function StageRank(stage: StopStage): nat {
    match stage
    case Clear => 2
    case Shut => 1
    case Join => 0
  }

  /** Three steps for each thread that is still to be stopped. */
  function MainRank(c: Config, m: MainPc): nat {
    match m
    case Done => 0
    case StopWriter(stage) => 1 + StageRank(stage)
    case StopFp(j, stage) => if j >= NumFps(c) then 4 else 2 + 3 * (NumFps(c) - j) + StageRank(stage)
    case StopLb(i, stage) => 3 * NumFps(c) + if i >= c.numLbs then 5 else 3 + 3 * (c.numLbs - i) + StageRank(stage)
    case Reading => 3 * NumFps(c) + 3 * c.numLbs + 6
    case Pushing(_) => 3 * NumFps(c) + 3 * c.numLbs + 14
  }

  function LbsRank(lbs: seq<LbState>): nat {
    Sum(lbs, (lb: LbState) => LbRank(lb))
  }

  function FpsRank(fps: seq<FpState>): nat {
    Sum(fps, (fp: FpState) => FpRank(fp))
  }

  function Distance(c: Config, s: State): nat
    requires Shaped(c, s)
  {
    9 * (|c.input| - s.next) + MainRank(c, s.main) + LbsRank(s.lbs) + FpsRank(s.fps) + 2 * |s.out.items| + WriterRank(s.writer)
  }

  lemma LbsRankUpdate(lbs: seq<LbState>, i: nat, lb: LbState)
    requires i < |lbs|
    ensures LbsRank(lbs[i := lb]) + LbRank(lbs[i]) == LbsRank(lbs) + LbRank(lb)
  {
    SumUpdate(lbs, i, lb, (lb: LbState) => LbRank(lb));
  }

  lemma FpsRankUpdate(fps: seq<FpState>, j: nat, fp: FpState)
    requires j < |fps|
    ensures FpsRank(fps[j := fp]) + FpRank(fps[j]) == FpsRank(fps) + FpRank(fp)
  {
    SumUpdate(fps, j, fp, (fp: FpState) => FpRank(fp));
  }

  // ---------------------------------------------------------------- what a step does to the distance

  /** The two states differ at most in where an idle balancer, fast path or writer stands in its polling loop. */
  predicate LbIdle(a: LbState, b: LbState) {
    a == b || (a == b.(pc := a.pc) && (a.pc.LbCheck? || a.pc.LbPop?) && (b.pc.LbCheck? || b.pc.LbPop?))
  }

  predicate FpIdle(a: FpState, b: FpState) {
    a == b || (a == b.(pc := a.pc) && (a.pc.FpCheck? || a.pc.FpPop?) && (b.pc.FpCheck? || b.pc.FpPop?))
  }

  predicate WriterIdles(w: WriterPc) {
    w.CheckFlag? || w.CheckSize? || w.WriterPop?
  }

  lemma MainStepAdvances(c: Config, s: State)
    requires ValidConfig(c) && Controlled(c, s)
    ensures MainStep(c, s) == s || Distance(c, MainStep(c, s)) < Distance(c, s)
  {
    match s.main
    case Pushing(p) =>
      var i := LbOf(c, p.tuple);
      RoutesAgree(c, p.tuple);
      assert LbOk(s.main, i, s.lbs[i]);
      LbsRankUpdate(s.lbs, i, s.lbs[i].(queue := s.lbs[i].queue.Push(p)));
    case StopLb(i, stage) => StopLbAdvances(c, s, i, stage);
    case StopFp(j, stage) => StopFpAdvances(c, s, j, stage);
    case _ =>
  }

  lemma StopLbAdvances(c: Config, s: State, i: nat, stage: StopStage)
    requires ValidConfig(c) && Controlled(c, s) && s.main == StopLb(i, stage)
    ensures StopLbStep(c, s, i, stage) == s || Distance(c, StopLbStep(c, s, i, stage)) < Distance(c, s)
  {
    if i < |s.lbs| {
      var lb := s.lbs[i];
      LbsRankUpdate(s.lbs, i, lb.(running := false));
      LbsRankUpdate(s.lbs, i, lb.(queue := lb.queue.(shut := true)));
    }
  }

  lemma StopFpAdvances(c: Config, s: State, j: nat, stage: StopStage)
    requires ValidConfig(c) && Controlled(c, s) && s.main == StopFp(j, stage)
    ensures StopFpStep(c, s, j, stage) == s || Distance(c, StopFpStep(c, s, j, stage)) < Distance(c, s)
  {
    if j < |s.fps| {
      var fp := s.fps[j];
      FpsRankUpdate(s.fps, j, fp.(running := false));
      FpsRankUpdate(s.fps, j, fp.(queue := fp.queue.(shut := true)));
    }
  }

  lemma LbStepAdvances(c: Config, s: State, i: nat)
    requires ValidConfig(c) && Controlled(c, s) && i < |s.lbs|
    ensures var s' := LbStep(c, s, i);
      || Distance(c, s') < Distance(c, s)
      || (s' == s.(lbs := s.lbs[i := s'.lbs[i]]) && LbIdle(s'.lbs[i], s.lbs[i]) && Distance(c, s') == Distance(c, s))
  {
    match s.lbs[i].pc
    case LbHold(p) => LbPushAdvances(c, s, i, p);
    case _ => LbsRankUpdate(s.lbs, i, LbNext(s.lbs[i]));
  }

  lemma LbPushAdvances(c: Config, s: State, i: nat, p: Packet)
    requires ValidConfig(c) && Controlled(c, s) && i < |s.lbs| && s.lbs[i].pc == LbHold(p)
    ensures LbPushStep(c, s, i, p) == s || Distance(c, LbPushStep(c, s, i, p)) < Distance(c, s)
  {
    FpIndexInRange(c, i, FpWithin(c, p.tuple));
    var j := FpIndex(c, i, FpWithin(c, p.tuple));
    LbsRankUpdate(s.lbs, i, s.lbs[i].(pc := LbCheck));
    FpsRankUpdate(s.fps, j, s.fps[j].(queue := s.fps[j].queue.Push(p)));
  }

  lemma FpStepAdvances(c: Config, s: State, j: nat)
    requires ValidConfig(c) && Controlled(c, s) && j < |s.fps|
    ensures var s' := FpStep(c, s, j);
      || Distance(c, s') < Distance(c, s)
      || (s' == s.(fps := s.fps[j := s'.fps[j]]) && FpIdle(s'.fps[j], s.fps[j]) && Distance(c, s') == Distance(c, s))
  {
    FpsRankUpdate(s.fps, j, FpNext(c, s.fps[j], s.out));
  }

  lemma WriterStepAdvances(c: Config, s: State)
    requires Shaped(c, s)
    ensures var s' := WriterStep(s);
      || Distance(c, s') < Distance(c, s)
      || s' == s
      || (s' == s.(writer := s'.writer) && WriterIdles(s.writer) && WriterIdles(s'.writer) && Distance(c, s') == Distance(c, s))
  {
  }

  /** No step of any thread ever increases the distance. */
  lemma DistanceNeverGrows(c: Config, s: State, t: Thread)
    requires ValidConfig(c) && Controlled(c, s)
    ensures Distance(c, Exec(c, s, t)) <= Distance(c, s)
  {
    match t
    case Main => MainStepAdvances(c, s);
    case Lb(i) => if i < |s.lbs| { LbStepAdvances(c, s, i); }
    case Fp(j) => if j < |s.fps| { FpStepAdvances(c, s, j); }
    case Writer => WriterStepAdvances(c, s);
  }

  // ---------------------------------------------------------------- some thread can always help

  predicate ValidThread(c: Config, t: Thread) {
    match t
    case Lb(i) => i < c.numLbs
    case Fp(j) => j < NumFps(c)
    case _ => true
  }

  /** The main thread's next step is not a wait. */
  predicate MainReady(c: Config, s: State)
    requires ValidConfig(c) && Shaped(c, s)
  {
    match s.main
    case Reading => true
    case Pushing(p) => RoutesAgree(c, p.tuple); s.lbs[LbOf(c, p.tuple)].queue.PushReturns(c.capacity)
    case StopLb(i, stage) => stage == Join && i < |s.lbs| ==> s.lbs[i].pc.LbExited?
    case StopFp(j, stage) => stage == Join && j < |s.fps| ==> s.fps[j].pc.FpExited?
    case StopWriter(stage) => stage == Join ==> s.writer.WriterExited?
    case Done => false
  }

  function LbTurns(c: Config, s: State, i: nat): nat
    requires ValidConfig(c) && Shaped(c, s) && i < |s.lbs|
  {
    var lb := s.lbs[i];
    match lb.pc
    case LbHold(p) =>
      FpIndexInRange(c, i, FpWithin(c, p.tuple));
      if s.fps[FpIndex(c, i, FpWithin(c, p.tuple))].queue.PushReturns(c.capacity) then 1 else 0
    case LbPop => if lb.queue.items != [] then 1 else if lb.running then 0 else 2
    case LbCheck => if !lb.running then 1 else if lb.queue.items != [] then 2 else 0
    case LbExited => 0
  }

  function FpTurns(c: Config, fp: FpState, out: Queue): nat {
    match fp.pc
    case FpWork(_) => 1
    case FpEmit(_) => if out.PushReturns(c.capacity) then 1 else 0
    case FpPop => if fp.queue.items != [] then 1 else if fp.running then 0 else 2
    case FpCheck => if !fp.running then 1 else if fp.queue.items != [] then 2 else 0
    case FpExited => 0
  }

  function WriterTurns(w: WriterPc, items: seq<Packet>, running: bool): nat {
    match w
    case Writing(_) => 1
    case WriterPop => if items != [] then 1 else if running then 0 else 3
    case CheckFlag => if items != [] then (if running then 2 else 3) else if running then 0 else 2
    case CheckSize => if items != [] then 2 else 1
    case WriterExited => 0
  }

  /** In how many of its own turns, undisturbed, the thread comes to decrease the distance; 0 if it may not. */
  function Turns(c: Config, s: State, t: Thread): nat
    requires ValidConfig(c) && Shaped(c, s)
  {
    match t
    case Main => if MainReady(c, s) then 1 else 0
    case Lb(i) => if i < |s.lbs| then LbTurns(c, s, i) else 0
    case Fp(j) => if j < |s.fps| then FpTurns(c, s.fps[j], s.out) else 0
    case Writer => WriterTurns(s.writer, s.out.items, s.outRunning)
  }

  /** The distance has dropped, or it is the same and the thread has fewer of its turns to go. */
  predicate Closer(c: Config, s: State, s': State, t: Thread)
    requires ValidConfig(c) && Shaped(c, s) && Shaped(c, s')
  {
    || Distance(c, s') < Distance(c, s)
    || (Distance(c, s') == Distance(c, s) && 0 < Turns(c, s', t) < Turns(c, s, t))
  }

  lemma OwnLbTurnHelps(c: Config, s: State, i: nat)
    requires ValidConfig(c) && Controlled(c, s) && i < |s.lbs| && LbTurns(c, s, i) > 0
    ensures Closer(c, s, LbStep(c, s, i), Lb(i))
  {
    var lb := s.lbs[i];
    if lb.pc.LbHold? {
      FpIndexInRange(c, i, FpWithin(c, lb.pc.packet.tuple));
      LbPushAdvances(c, s, i, lb.pc.packet);
      assert LbPushStep(c, s, i, lb.pc.packet).lbs == s.lbs[i := lb.(pc := LbCheck)];
    } else {
      LbsRankUpdate(s.lbs, i, LbNext(lb));
    }
  }

  lemma OwnFpTurnHelps(c: Config, s: State, j: nat)
    requires ValidConfig(c) && Controlled(c, s) && j < |s.fps| && FpTurns(c, s.fps[j], s.out) > 0
    ensures Closer(c, s, FpStep(c, s, j), Fp(j))
  {
    FpsRankUpdate(s.fps, j, FpNext(c, s.fps[j], s.out));
  }

  lemma OwnMainTurnHelps(c: Config, s: State)
    requires ValidConfig(c) && Controlled(c, s) && MainReady(c, s)
    ensures Distance(c, MainStep(c, s)) < Distance(c, s)
  {
    MainStepAdvances(c, s);
    match s.main
    case Pushing(p) => RoutesAgree(c, p.tuple); assert MainStep(c, s).main == Reading;
    case _ =>
  }

  lemma OwnWriterTurnHelps(c: Config, s: State)
    requires ValidConfig(c) && Controlled(c, s) && Turns(c, s, Writer) > 0
    ensures Closer(c, s, WriterStep(s), Writer)
  {
  }

  lemma OwnTurnHelps(c: Config, s: State, t: Thread)
    requires ValidConfig(c) && Controlled(c, s) && Turns(c, s, t) > 0
    ensures Closer(c, s, Exec(c, s, t), t)
  {
    match t
    case Main => OwnMainTurnHelps(c, s);
    case Lb(i) => OwnLbTurnHelps(c, s, i);
    case Fp(j) => OwnFpTurnHelps(c, s, j);
    case Writer => OwnWriterTurnHelps(c, s);
  }

  lemma IdleLbDoesNotHurt(c: Config, s: State, i: nat, lb: LbState, t: Thread)
    requires ValidConfig(c) && Shaped(c, s) && i < |s.lbs| && LbIdle(lb, s.lbs[i]) && t != Lb(i)
    ensures Turns(c, s.(lbs := s.lbs[i := lb]), t) == Turns(c, s, t)
  {
  }

  lemma IdleFpDoesNotHurt(c: Config, s: State, j: nat, fp: FpState, t: Thread)
    requires ValidConfig(c) && Shaped(c, s) && j < |s.fps| && FpIdle(fp, s.fps[j]) && t != Fp(j)
    ensures Turns(c, s.(fps := s.fps[j := fp]), t) == Turns(c, s, t)
  {
    var s' := s.(fps := s.fps[j := fp]);
    match t
    case Main => assert MainReady(c, s') == MainReady(c, s);
    case Lb(i) => if i < |s.lbs| { IdleFpLeavesPushes(c, s, j, fp, i); }
    case Fp(k) => if k < |s.fps| { assert s'.fps[k] == s.fps[k]; }
    case Writer =>
  }

  lemma IdleFpLeavesPushes(c: Config, s: State, j: nat, fp: FpState, i: nat)
    requires ValidConfig(c) && Shaped(c, s) && j < |s.fps| && FpIdle(fp, s.fps[j]) && i < |s.lbs|
    ensures LbTurns(c, s.(fps := s.fps[j := fp]), i) == LbTurns(c, s, i)
  {
    if s.lbs[i].pc.LbHold? {
      var within := FpWithin(c, s.lbs[i].pc.packet.tuple);
      FpIndexInRange(c, i, within);
      assert s.fps[j := fp][FpIndex(c, i, within)].queue == s.fps[FpIndex(c, i, within)].queue;
    }
  }

  lemma IdleWriterDoesNotHurt(c: Config, s: State, w: WriterPc, t: Thread)
    requires ValidConfig(c) && Shaped(c, s) && WriterIdles(w) && WriterIdles(s.writer) && t != Writer
    ensures Turns(c, s.(writer := w), t) == Turns(c, s, t)
  {
  }

  /** Another thread's step takes nothing away from what a thread can do. */
  lemma OtherTurnsDoNotHurt(c: Config, s: State, t: Thread, other: Thread)
    requires ValidConfig(c) && Controlled(c, s) && t != other
    ensures Distance(c, Exec(c, s, other)) < Distance(c, s)
      || (Distance(c, Exec(c, s, other)) == Distance(c, s) && Turns(c, Exec(c, s, other), t) == Turns(c, s, t))
  {
    match other
    case Main => MainStepAdvances(c, s);
    case Lb(i) => if i < |s.lbs| { OtherLbDoesNotHurt(c, s, t, i); }
    case Fp(j) => if j < |s.fps| { OtherFpDoesNotHurt(c, s, t, j); }
    case Writer => OtherWriterDoesNotHurt(c, s, t);
  }

  lemma OtherLbDoesNotHurt(c: Config, s: State, t: Thread, i: nat)
    requires ValidConfig(c) && Controlled(c, s) && i < |s.lbs| && t != Lb(i)
    ensures var s' := LbStep(c, s, i);
      Distance(c, s') < Distance(c, s) || (Distance(c, s') == Distance(c, s) && Turns(c, s', t) == Turns(c, s, t))
  {
    var s' := LbStep(c, s, i);
    LbStepAdvances(c, s, i);
    if Distance(c, s') >= Distance(c, s) {
      IdleLbDoesNotHurt(c, s, i, s'.lbs[i], t);
    }
  }

  lemma OtherFpDoesNotHurt(c: Config, s: State, t: Thread, j: nat)
    requires ValidConfig(c) && Controlled(c, s) && j < |s.fps| && t != Fp(j)
    ensures var s' := FpStep(c, s, j);
      Distance(c, s') < Distance(c, s) || (Distance(c, s') == Distance(c, s) && Turns(c, s', t) == Turns(c, s, t))
  {
    var s' := FpStep(c, s, j);
    FpStepAdvances(c, s, j);
    if Distance(c, s') >= Distance(c, s) {
      IdleFpDoesNotHurt(c, s, j, s'.fps[j], t);
    }
  }

  lemma OtherWriterDoesNotHurt(c: Config, s: State, t: Thread)
    requires ValidConfig(c) && Controlled(c, s) && t != Writer
    ensures var s' := WriterStep(s);
      Distance(c, s') < Distance(c, s) || (Distance(c, s') == Distance(c, s) && Turns(c, s', t) == Turns(c, s, t))
  {
    var s' := WriterStep(s);
    WriterStepAdvances(c, s);
    if Distance(c, s') >= Distance(c, s) && s' != s {
      IdleWriterDoesNotHurt(c, s, s'.writer, t);
    }
  }

  /** Behind the output queue: a writer that is alive, or else nothing left for it. */
  lemma OutputMoves(c: Config, s: State) returns (t: Thread)
    requires ValidConfig(c) && Controlled(c, s)
    requires s.out.items != [] || s.writer.Writing?
    ensures ValidThread(c, t) && !t.Main? && Turns(c, s, t) > 0
  {
    t := Writer;
  }

  /** A fast path that has a packet or was told to stop can move it, or the writer can. */
  lemma FpMoves(c: Config, s: State, j: nat) returns (t: Thread)
    requires ValidConfig(c) && Controlled(c, s) && j < |s.fps|
    requires !s.fps[j].pc.FpExited?
    requires s.fps[j].queue.items != [] || !s.fps[j].running || s.fps[j].pc.FpWork? || s.fps[j].pc.FpEmit?
    ensures ValidThread(c, t) && !t.Main? && Turns(c, s, t) > 0
  {
    if s.fps[j].pc.FpEmit? && !s.out.PushReturns(c.capacity) {
      t := OutputMoves(c, s);
    } else {
      t := Fp(j);
    }
  }

  lemma LbMoves(c: Config, s: State, i: nat) returns (t: Thread)
    requires ValidConfig(c) && Controlled(c, s) && i < |s.lbs|
    requires !s.lbs[i].pc.LbExited?
    requires s.lbs[i].queue.items != [] || !s.lbs[i].running || s.lbs[i].pc.LbHold?
    ensures ValidThread(c, t) && !t.Main? && Turns(c, s, t) > 0
  {
    t := Lb(i);
    if s.lbs[i].pc.LbHold? {
      var within := FpWithin(c, s.lbs[i].pc.packet.tuple);
      var j := FpIndex(c, i, within);
      FpIndexInRange(c, i, within);
      assert LbOk(s.main, i, s.lbs[i]) && FpOk(s.main, j, s.fps[j]);
      if !s.fps[j].queue.PushReturns(c.capacity) {
        t := FpMoves(c, s, j);
      }
    }
  }

  /** No deadlock: until the main thread is done, some thread is on its way to a step that counts. */
  lemma SomeoneHelps(c: Config, s: State) returns (t: Thread)
    requires ValidConfig(c) && Controlled(c, s) && !s.main.Done?
    ensures ValidThread(c, t) && Turns(c, s, t) > 0
  {
    t := Main;
    if !MainReady(c, s) {
      match s.main
      case Pushing(p) =>
        var i := LbOf(c, p.tuple);
        RoutesAgree(c, p.tuple);
        assert LbOk(s.main, i, s.lbs[i]);
        t := LbMoves(c, s, i);
      case StopLb(i, _) =>
        assert LbOk(s.main, i, s.lbs[i]);
        t := LbMoves(c, s, i);
      case StopFp(j, _) =>
        assert FpOk(s.main, j, s.fps[j]);
        t := FpMoves(c, s, j);
      case StopWriter(_) => t := Writer;
    }
  }

  /** While the reader is still at work, packets inside the pipeline can be moved on without its help. */
  lemma PacketsInTheWayCanMove(c: Config, s: State) returns (t: Thread)
    requires ValidConfig(c) && Controlled(c, s)
    requires s.main.Reading? || s.main.Pushing?
    requires
      || s.main.Pushing? || s.writer.Writing? || s.out.items != []
      || (exists i :: 0 <= i < |s.lbs| && (s.lbs[i].pc.LbHold? || s.lbs[i].queue.items != []))
      || (exists j :: 0 <= j < |s.fps| && (s.fps[j].pc.FpWork? || s.fps[j].pc.FpEmit? || s.fps[j].queue.items != []))
    ensures ValidThread(c, t) && Turns(c, s, t) > 0
    ensures s.main.Reading? ==> t != Main
  {
    if s.main.Pushing? {
      t := SomeoneHelps(c, s);
    } else if s.writer.Writing? || s.out.items != [] {
      t := Writer;
    } else if j :| 0 <= j < |s.fps| && (s.fps[j].pc.FpWork? || s.fps[j].pc.FpEmit? || s.fps[j].queue.items != []) {
      assert FpOk(s.main, j, s.fps[j]);
      t := FpMoves(c, s, j);
    } else {
      var i :| 0 <= i < |s.lbs| && (s.lbs[i].pc.LbHold? || s.lbs[i].queue.items != []);
      assert LbOk(s.main, i, s.lbs[i]);
      t := LbMoves(c, s, i);
    }
  }

  // ---------------------------------------------------------------- fair infinite schedules

  function StateAt(c: Config, sigma: nat -> Thread, n: nat): (s: State)
    requires ValidConfig(c)
    ensures Shaped(c, s)
  {
    if n == 0 then Init(c) else Exec(c, StateAt(c, sigma, n - 1), sigma(n - 1))
  }

  function Schedule(sigma: nat -> Thread, n: nat): seq<Thread> {
    seq(n, i requires 0 <= i < n => sigma(i))
  }

  /** A point of an infinite run is the end of a finite one, so everything proved of runs holds there. */
  lemma {:induction false} StateAtIsRun(c: Config, sigma: nat -> Thread, n: nat)
    requires ValidConfig(c)
    ensures StateAt(c, sigma, n) == Run(c, Schedule(sigma, n))
    ensures Controlled(c, StateAt(c, sigma, n))
  {
    if n > 0 {
      StateAtIsRun(c, sigma, n - 1);
      assert Schedule(sigma, n)[..n - 1] == Schedule(sigma, n - 1);
    }
    RunIsControlled(c, Schedule(sigma, n));
  }

  ghost predicate ScheduledFrom(sigma: nat -> Thread, t: Thread, n: nat) {
    exists m: nat :: n <= m && sigma(m) == t
  }

  /** Every thread gets the processor again and again. */
  ghost predicate Fair(c: Config, sigma: nat -> Thread) {
    forall t, n: nat :: ValidThread(c, t) ==> ScheduledFrom(sigma, t, n)
  }

  /** All threads in a row, over and over. */
  function RoundRobin(c: Config): nat -> Thread {
    (n: nat) => InTurn(c, n % (2 + c.numLbs + NumFps(c)))
  }

  function InTurn(c: Config, i: nat): Thread {
    if i == 0 then Main else if i == 1 then Writer else if i < 2 + c.numLbs then Lb(i - 2) else Fp(i - 2 - c.numLbs)
  }

  lemma LaterAtSamePlace(n: nat, i: nat, size: nat)
    requires i < size
    ensures n <= size * n + i && (size * n + i) % size == i
  {
    assert n <= size * n;
    Routing.RemainderIs(size * n + i, size, n, i);
  }

  /** So fair schedules exist, for any number of threads. */
  lemma RoundRobinIsFair(c: Config)
    ensures Fair(c, RoundRobin(c))
  {
    var size := 2 + c.numLbs + NumFps(c);
    forall t, n: nat | ValidThread(c, t) ensures ScheduledFrom(RoundRobin(c), t, n) {
      var i := match t case Main => 0 case Writer => 1 case Lb(lb) => 2 + lb case Fp(fp) => 2 + c.numLbs + fp;
      LaterAtSamePlace(n, i, size);
      assert RoundRobin(c)(size * n + i) == t;
    }
  }

  function DistanceAt(c: Config, sigma: nat -> Thread): nat -> nat
    requires ValidConfig(c)
  {
    (n: nat) => Distance(c, StateAt(c, sigma, n))
  }

  function TurnsAt(c: Config, sigma: nat -> Thread, t: Thread): nat -> nat
    requires ValidConfig(c)
  {
    (n: nat) => Turns(c, StateAt(c, sigma, n), t)
  }

  /** One instant of a countdown: the distance drops, or a turn brings the turns down, or all stays. */
  predicate Counts(distance: nat, distance': nat, turns: nat, turns': nat, turn: bool) {
    || turns == 0
    || distance' < distance
    || (distance' == distance && 0 < turns' && if turn then turns' < turns else turns' == turns)
  }

  predicate CountsAt(distance: nat -> nat, turns: nat -> nat, turn: bool, n: nat) {
    Counts(distance(n), distance(n + 1), turns(n), turns(n + 1), turn)
  }

  lemma {:induction false} CountdownAdvances(distance: nat -> nat, turns: nat -> nat, sigma: nat -> Thread, t: Thread, n: nat, m: nat) returns (k: nat)
    requires forall i: nat :: CountsAt(distance, turns, sigma(i) == t, i)
    requires n <= m && sigma(m) == t && turns(n) > 0
    ensures distance(k) < distance(n) || (distance(k) == distance(n) && 0 < turns(k) < turns(n))
    decreases m - n
  {
    k := n + 1;
    assert CountsAt(distance, turns, sigma(n) == t, n);
    if distance(k) == distance(n) && turns(k) == turns(n) {
      k := CountdownAdvances(distance, turns, sigma, t, n + 1, m);
    }
  }

  lemma {:induction false} CountdownEnds(distance: nat -> nat, turns: nat -> nat, sigma: nat -> Thread, t: Thread, n: nat) returns (k: nat)
    requires forall i: nat :: CountsAt(distance, turns, sigma(i) == t, i)
    requires forall i: nat :: ScheduledFrom(sigma, t, i)
    requires turns(n) > 0
    ensures distance(k) < distance(n)
    decreases turns(n)
  {
    assert ScheduledFrom(sigma, t, n);
    var m: nat :| n <= m && sigma(m) == t;
    k := CountdownAdvances(distance, turns, sigma, t, n, m);
    if distance(k) == distance(n) {
      k := CountdownEnds(distance, turns, sigma, t, k);
    }
  }

  lemma StepCountsDown(c: Config, s: State, t: Thread, next: Thread)
    requires ValidConfig(c) && Controlled(c, s)
    ensures var s' := Exec(c, s, next);
      Counts(Distance(c, s), Distance(c, s'), Turns(c, s, t), Turns(c, s', t), next == t)
  {
    if Turns(c, s, t) > 0 {
      if next == t {
        OwnTurnHelps(c, s, t);
      } else {
        OtherTurnsDoNotHurt(c, s, t, next);
      }
    }
  }

  lemma RunCountsDown(c: Config, sigma: nat -> Thread, t: Thread, n: nat)
    requires ValidConfig(c)
    ensures CountsAt(DistanceAt(c, sigma), TurnsAt(c, sigma, t), sigma(n) == t, n)
  {
    StateAtIsRun(c, sigma, n);
    StepCountsDown(c, StateAt(c, sigma, n), t, sigma(n));
  }

  lemma DistanceDrops(c: Config, sigma: nat -> Thread, n: nat, t: Thread) returns (k: nat)
    requires ValidConfig(c) && Fair(c, sigma) && ValidThread(c, t)
    requires TurnsAt(c, sigma, t)(n) > 0
    ensures DistanceAt(c, sigma)(k) < DistanceAt(c, sigma)(n)
  {
    forall i: nat ensures CountsAt(DistanceAt(c, sigma), TurnsAt(c, sigma, t), sigma(i) == t, i) {
      RunCountsDown(c, sigma, t, i);
    }
    k := CountdownEnds(DistanceAt(c, sigma), TurnsAt(c, sigma, t), sigma, t, n);
  }

  lemma {:induction false} ComesToRest(c: Config, sigma: nat -> Thread, n: nat) returns (k: nat)
    requires ValidConfig(c) && Fair(c, sigma)
    ensures StateAt(c, sigma, k).main.Done?
    decreases Distance(c, StateAt(c, sigma, n))
  {
    k := n;
    if !StateAt(c, sigma, n).main.Done? {
      StateAtIsRun(c, sigma, n);
      var t := SomeoneHelps(c, StateAt(c, sigma, n));
      k := DistanceDrops(c, sigma, n, t);
      k := ComesToRest(c, sigma, k);
    }
  }

  predicate AllJoined(s: State) {
    && s.main.Done? && s.writer.WriterExited? && s.out.items == []
    && (forall i :: 0 <= i < |s.lbs| ==> s.lbs[i].pc.LbExited?)
    && (forall j :: 0 <= j < |s.fps| ==> s.fps[j].pc.FpExited?)
  }

  /**
   Every fair run ends with every thread joined and the report balanced, whatever the thread counts
   and queue capacities.
   */
  lemma FairRunsTerminate(c: Config, sigma: nat -> Thread)
    requires ValidConfig(c) && Fair(c, sigma)
    ensures exists n: nat :: AllJoined(StateAt(c, sigma, n)) && BooksBalance(c, StateAt(c, sigma, n))
  {
    var n := ComesToRest(c, sigma, 0);
    StateAtIsRun(c, sigma, n);
    DoneMeansJoined(c, StateAt(c, sigma, n));
    FinalReport(c, Schedule(sigma, n));
    assert AllJoined(StateAt(c, sigma, n));
  }

  lemma DoneMeansJoined(c: Config, s: State)
    requires Controlled(c, s) && s.main.Done?
    ensures AllJoined(s)
  {
  }
}
