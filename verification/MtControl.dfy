/** The stop sequence: what the main thread's position says of every flag, queue and thread, in every run. */
module MtControl {
  import opened Types
  import opened MtStreams
  import opened MtPipeline

  // ---------------------------------------------------------------- how far `stop` has come

  predicate LbCleared(m: MainPc, i: nat) {
    match m
    case Reading => false
    case Pushing(_) => false
    case StopLb(k, stage) => i < k || (i == k && stage != Clear)
    case _ => true
  }

  predicate LbShut(m: MainPc, i: nat) {
    match m
    case Reading => false
    case Pushing(_) => false
    case StopLb(k, stage) => i < k || (i == k && stage == Join)
    case _ => true
  }

  predicate LbJoined(m: MainPc, i: nat) {
    match m
    case Reading => false
    case Pushing(_) => false
    case StopLb(k, _) => i < k
    case _ => true
  }

  predicate FpCleared(m: MainPc, j: nat) {
    match m
    case StopFp(k, stage) => j < k || (j == k && stage != Clear)
    case StopWriter(_) => true
    case Done => true
    case _ => false
  }

  predicate FpShut(m: MainPc, j: nat) {
    match m
    case StopFp(k, stage) => j < k || (j == k && stage == Join)
    case StopWriter(_) => true
    case Done => true
    case _ => false
  }

  predicate FpJoined(m: MainPc, j: nat) {
    match m
    case StopFp(k, _) => j < k
    case StopWriter(_) => true
    case Done => true
    case _ => false
  }

  predicate WriterCleared(m: MainPc) {
    m.Done? || (m.StopWriter? && m.stage != Clear)
  }

  predicate WriterShut(m: MainPc) {
    m.Done? || (m.StopWriter? && m.stage == Join)
  }

  // ---------------------------------------------------------------- the invariant

  predicate MainOk(c: Config, s: State) {
    match s.main
    case Reading => true
    case Pushing(_) => s.next >= 1
    case StopLb(k, stage) => s.next == |c.input| && k <= c.numLbs && (stage != Clear ==> k < c.numLbs)
    case StopFp(k, stage) => s.next == |c.input| && k <= NumFps(c) && (stage != Clear ==> k < NumFps(c))
    case StopWriter(_) => s.next == |c.input|
    case Done => s.next == |c.input|
  }

  predicate LbOk(m: MainPc, i: nat, lb: LbState) {
    && lb.running == !LbCleared(m, i)
    && lb.queue.shut == LbShut(m, i)
    && (LbJoined(m, i) ==> lb.pc.LbExited?)
    && (lb.pc.LbExited? ==> !lb.running)
  }

  predicate FpOk(m: MainPc, j: nat, fp: FpState) {
    && fp.running == !FpCleared(m, j)
    && fp.queue.shut == FpShut(m, j)
    && (FpJoined(m, j) ==> fp.pc.FpExited?)
    && (fp.pc.FpExited? ==> !fp.running)
  }

  predicate WriterOk(s: State) {
    && s.outRunning == !WriterCleared(s.main)
    && s.out.shut == WriterShut(s.main)
    && (s.writer.CheckSize? || s.writer.WriterExited? ==> !s.outRunning)
    && (s.writer.WriterExited? ==> s.out.items == [])
    && (s.main.Done? ==> s.writer.WriterExited?)
  }

  predicate LbsOk(s: State) {
    forall i :: 0 <= i < |s.lbs| ==> LbOk(s.main, i, s.lbs[i])
  }

  predicate FpsOk(s: State) {
    forall j :: 0 <= j < |s.fps| ==> FpOk(s.main, j, s.fps[j])
  }

  predicate Controlled(c: Config, s: State) {
    Shaped(c, s) && MainOk(c, s) && LbsOk(s) && FpsOk(s) && WriterOk(s)
  }

  lemma MainKeepsLbs(c: Config, s: State)
    requires ValidConfig(c) && Controlled(c, s)
    ensures LbsOk(MainStep(c, s))
  {
    var s' := MainStep(c, s);
    forall i | 0 <= i < |s'.lbs| ensures LbOk(s'.main, i, s'.lbs[i]) {
      assert LbOk(s.main, i, s.lbs[i]);
    }
  }

  lemma MainKeepsFps(c: Config, s: State)
    requires ValidConfig(c) && Controlled(c, s)
    ensures FpsOk(MainStep(c, s))
  {
    var s' := MainStep(c, s);
    forall j | 0 <= j < |s'.fps| ensures FpOk(s'.main, j, s'.fps[j]) {
      assert FpOk(s.main, j, s.fps[j]);
    }
  }

  lemma MainKeepsControl(c: Config, s: State)
    requires ValidConfig(c) && Controlled(c, s)
    ensures Controlled(c, MainStep(c, s))
  {
    MainKeepsLbs(c, s);
    MainKeepsFps(c, s);
  }

  lemma LbKeepsControl(c: Config, s: State, i: nat)
    requires ValidConfig(c) && Controlled(c, s) && i < |s.lbs|
    ensures Controlled(c, LbStep(c, s, i))
  {
  }

  /** A fast path that still runs finds the output queue open, so what it pushes is kept. */
  lemma LiveFpMeansOpenOutput(c: Config, s: State, j: nat)
    requires Controlled(c, s) && j < |s.fps| && !s.fps[j].pc.FpExited?
    ensures !s.out.shut && s.outRunning && !s.writer.WriterExited?
  {
  }

  lemma FpKeepsControl(c: Config, s: State, j: nat)
    requires ValidConfig(c) && Controlled(c, s) && j < |s.fps|
    ensures Controlled(c, FpStep(c, s, j))
  {
  }

  lemma InitIsControlled(c: Config)
    requires ValidConfig(c)
    ensures Controlled(c, Init(c))
  {
  }

  lemma StepKeepsControl(c: Config, s: State, t: Thread)
    requires ValidConfig(c) && Controlled(c, s)
    ensures Controlled(c, Exec(c, s, t))
  {
    match t
    case Main => MainKeepsControl(c, s);
    case Lb(i) => if i < |s.lbs| { LbKeepsControl(c, s, i); }
    case Fp(j) => if j < |s.fps| { FpKeepsControl(c, s, j); }
    case Writer =>
  }

  lemma {:induction false} RunIsControlled(c: Config, schedule: seq<Thread>)
    requires ValidConfig(c)
    ensures Controlled(c, Run(c, schedule))
  {
    if schedule == [] {
      InitIsControlled(c);
    } else {
      var before := schedule[..|schedule| - 1];
      RunIsControlled(c, before);
      StepKeepsControl(c, Run(c, before), schedule[|schedule| - 1]);
    }
  }

  // ---------------------------------------------------------------- no packet is pushed into a closed queue

  /** The queue a thread is about to push into, when it holds a packet for one. */
  function PushTarget(c: Config, s: State, t: Thread): Option<Queue>
    requires ValidConfig(c) && Shaped(c, s)
  {
    match t
    case Main =>
      if s.main.Pushing? then
        RoutesAgree(c, s.main.packet.tuple);
        Some(s.lbs[LbOf(c, s.main.packet.tuple)].queue)
      else None
    case Lb(i) =>
      if i < |s.lbs| && s.lbs[i].pc.LbHold? then
        FpIndexInRange(c, i, FpWithin(c, s.lbs[i].pc.packet.tuple));
        Some(s.fps[FpIndex(c, i, FpWithin(c, s.lbs[i].pc.packet.tuple))].queue)
      else None
    case Fp(j) => if j < |s.fps| && s.fps[j].pc.FpEmit? then Some(s.out) else None
    case Writer => None
  }

  lemma PushTargetsAreOpen(c: Config, s: State, t: Thread)
    requires ValidConfig(c) && Controlled(c, s)
    ensures PushTarget(c, s, t).Some? ==> !PushTarget(c, s, t).value.shut
  {
    match t
    case Main =>
      if s.main.Pushing? {
        var i := LbOf(c, s.main.packet.tuple);
        RoutesAgree(c, s.main.packet.tuple);
        assert LbOk(s.main, i, s.lbs[i]);
      }
    case Lb(i) =>
      if i < |s.lbs| && s.lbs[i].pc.LbHold? {
        var j := FpIndex(c, i, FpWithin(c, s.lbs[i].pc.packet.tuple));
        FpIndexInRange(c, i, FpWithin(c, s.lbs[i].pc.packet.tuple));
        assert LbOk(s.main, i, s.lbs[i]) && FpOk(s.main, j, s.fps[j]);
      }
    case Fp(j) =>
      if j < |s.fps| && s.fps[j].pc.FpEmit? {
        LiveFpMeansOpenOutput(c, s, j);
      }
    case Writer =>
  }

  /** In every run, no thread ever comes to push a packet into a queue that was shut down. */
  lemma NoPushIntoShutQueue(c: Config, schedule: seq<Thread>, t: Thread)
    requires ValidConfig(c)
    ensures PushTarget(c, Run(c, schedule), t).Some? ==> !PushTarget(c, Run(c, schedule), t).value.shut
  {
    RunIsControlled(c, schedule);
    PushTargetsAreOpen(c, Run(c, schedule), t);
  }
}
