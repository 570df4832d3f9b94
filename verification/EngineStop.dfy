/**
 The modular engine's output side while it stops. Its flag is cleared before the fast paths are
 joined, so its output thread may leave while they still forward; what that costs is counted here.
 */
module EngineStop {
  import opened Types
  import opened MtStreams
  import opened MtPipeline
  import opened Sums

  /** `stop`: clear the flag, join the fast paths one by one, shut the queue down, join the output thread. */
  datatype StopPc = Working | Joining(worker: nat) | JoinOutput | Stopped

  /**
   Each worker has the packets that it will forward before it ends; balancers and the fast paths' own
   queues lie before that. `late` counts the pushes that come after the output thread has left.
   */
  datatype Engine = Engine(
    main: StopPc, running: bool, workers: seq<seq<Packet>>, out: Queue, writer: WriterPc,
    written: seq<Packet>, forwarded: seq<Packet>, late: nat)

  datatype Turn = MainTurn | WorkerTurn(worker: nat) | WriterTurn

  function Start(workers: seq<seq<Packet>>): Engine {
    Engine(Working, true, workers, EMPTY_QUEUE, CheckFlag, [], [], 0)
  }

  function MainStep(e: Engine): Engine {
    match e.main
    case Working => e.(main := Joining(0), running := false)
    case Joining(j) =>
      if j >= |e.workers| then e.(main := JoinOutput, out := e.out.(shut := true))
      else if e.workers[j] == [] then e.(main := Joining(j + 1))
      else e
    case JoinOutput => if e.writer.WriterExited? then e.(main := Stopped) else e
    case Stopped => e
  }

  /** `handleOutput` with a packet to forward: it waits while the queue is full. */
  function WorkerStep(capacity: nat, e: Engine, j: nat): Engine
    requires j < |e.workers|
  {
    if e.workers[j] == [] || !e.out.PushReturns(capacity) then e
    else
      var p := e.workers[j][0];
      e.(workers := e.workers[j := e.workers[j][1..]], out := e.out.Push(p), forwarded := e.forwarded + [p],
         late := e.late + if e.writer.WriterExited? then 1 else 0)
  }

  /** `outputThreadFunc`: on as long as the flag is up or the queue is not empty. */
  function WriterStep(e: Engine): Engine {
    match e.writer
    case CheckFlag => e.(writer := if e.running then WriterPop else CheckSize)
    case CheckSize => e.(writer := if e.out.items != [] then WriterPop else WriterExited)
    case WriterPop =>
      if e.out.items == [] then e.(writer := CheckFlag)
      else e.(writer := Writing(e.out.items[0]), out := e.out.Pop())
    case Writing(p) => e.(writer := CheckFlag, written := e.written + [p])
    case WriterExited => e
  }

  function Step(capacity: nat, e: Engine, t: Turn): Engine {
    match t
    case MainTurn => MainStep(e)
    case WorkerTurn(j) => if j < |e.workers| then WorkerStep(capacity, e, j) else e
    case WriterTurn => WriterStep(e)
  }

  function Play(capacity: nat, e: Engine, turns: seq<Turn>): Engine {
    if turns == [] then e else Step(capacity, Play(capacity, e, turns[..|turns| - 1]), turns[|turns| - 1])
  }

  // ---------------------------------------------------------------- what every run keeps

  function InHand(w: WriterPc): seq<Packet> {
    if w.Writing? then [w.packet] else []
  }

  /** Main has joined the workers up to here. */
  function Joined(m: StopPc, workers: nat): nat {
    match m
    case Working => 0
    case Joining(j) => j
    case _ => workers
  }

  ghost predicate Accounted(e: Engine) {
    && e.forwarded == e.written + InHand(e.writer) + e.out.items
    && (if e.writer.WriterExited? then |e.out.items| == e.late else e.late == 0)
    && (e.out.shut ==> e.main.JoinOutput? || e.main.Stopped?)
    && (e.running <==> e.main.Working?) && (e.running ==> !e.writer.CheckSize? && !e.writer.WriterExited?)
    && (e.main.Stopped? ==> e.writer.WriterExited?)
    && Joined(e.main, |e.workers|) <= |e.workers|
    && forall j :: 0 <= j < Joined(e.main, |e.workers|) ==> e.workers[j] == []
  }

  lemma StepKeepsAccount(capacity: nat, e: Engine, t: Turn)
    requires Accounted(e)
    ensures Accounted(Step(capacity, e, t))
  {
  }

  lemma {:induction false} PlayKeepsAccount(capacity: nat, e: Engine, turns: seq<Turn>)
    requires Accounted(e)
    ensures Accounted(Play(capacity, e, turns))
  {
    if turns != [] {
      PlayKeepsAccount(capacity, e, turns[..|turns| - 1]);
      StepKeepsAccount(capacity, Play(capacity, e, turns[..|turns| - 1]), turns[|turns| - 1]);
    }
  }

  lemma PlayIsAccounted(capacity: nat, workers: seq<seq<Packet>>, turns: seq<Turn>)
    ensures Accounted(Play(capacity, Start(workers), turns))
  {
    PlayKeepsAccount(capacity, Start(workers), turns);
  }

  /** How many packets the workers have left to forward. */
  function Backlog(workers: seq<seq<Packet>>): nat {
    Sum(workers, (w: seq<Packet>) => |w|)
  }

  lemma ForwardingShrinksBacklog(workers: seq<seq<Packet>>, j: nat)
    requires j < |workers| && workers[j] != []
    ensures Backlog(workers[j := workers[j][1..]]) == Backlog(workers) - 1
  {
    SumUpdate(workers, j, workers[j][1..], (w: seq<Packet>) => |w|);
  }

  lemma SomeoneHasBacklog(workers: seq<seq<Packet>>)
    ensures Backlog(workers) > 0 <==> exists j :: 0 <= j < |workers| && workers[j] != []
  {
    if j :| 0 <= j < |workers| && workers[j] != [] {
      ForwardingShrinksBacklog(workers, j);
    } else {
      SumToIsZero(workers, |workers|, (w: seq<Packet>) => |w|);
    }
  }

  /** From `e` to `f` no packet was lost on the way to the queue, and each late one was forwarded in between. */
  predicate SameTotal(e: Engine, f: Engine) {
    Backlog(f.workers) + |f.forwarded| == Backlog(e.workers) + |e.forwarded| && |f.forwarded| - f.late >= |e.forwarded| - e.late
  }

  lemma StepKeepsTotal(capacity: nat, e: Engine, t: Turn)
    ensures SameTotal(e, Step(capacity, e, t))
  {
    if t.WorkerTurn? && t.worker < |e.workers| && e.workers[t.worker] != [] {
      ForwardingShrinksBacklog(e.workers, t.worker);
    }
  }

  lemma {:induction false} PlayKeepsTotal(capacity: nat, e: Engine, turns: seq<Turn>)
    ensures SameTotal(e, Play(capacity, e, turns))
  {
    if turns != [] {
      PlayKeepsTotal(capacity, e, turns[..|turns| - 1]);
      StepKeepsTotal(capacity, Play(capacity, e, turns[..|turns| - 1]), turns[|turns| - 1]);
    }
  }

  /**
   When the engine has stopped, what was written is the beginning of what was forwarded, and it falls
   short by exactly the packets that were pushed after the output thread left.
   */
  lemma LatePacketsAreLost(capacity: nat, workers: seq<seq<Packet>>, turns: seq<Turn>)
    requires Play(capacity, Start(workers), turns).main.Stopped?
    ensures var e := Play(capacity, Start(workers), turns);
      && e.written <= e.forwarded && |e.forwarded| == |e.written| + e.late
      && (e.written == e.forwarded <==> e.late == 0)
  {
    PlayIsAccounted(capacity, workers, turns);
  }

  // ---------------------------------------------------------------- what goes wrong

  /** Nobody can move any more, and the engine has not stopped. */
  ghost predicate Stuck(capacity: nat, e: Engine) {
    !e.main.Stopped? && forall t :: Step(capacity, e, t) == e
  }

  /** The engine has stopped, and some forwarded packet was not written. */
  predicate Lossy(e: Engine) {
    e.main.Stopped? && e.written != e.forwarded
  }

  ghost predicate CanHang(capacity: nat, e: Engine) {
    exists turns :: Stuck(capacity, Play(capacity, e, turns))
  }

  ghost predicate CanLose(capacity: nat, e: Engine) {
    exists turns :: Lossy(Play(capacity, e, turns))
  }

  /** In a stuck engine the output thread has left, its queue is full, and some worker waits for room that nobody makes. */
  lemma StuckMeansFull(capacity: nat, e: Engine)
    requires Accounted(e) && Stuck(capacity, e)
    ensures e.writer.WriterExited? && |e.out.items| >= capacity && Backlog(e.workers) > 0
  {
    assert Step(capacity, e, WriterTurn) == e && Step(capacity, e, MainTurn) == e;
    assert e.main.Joining? && e.main.worker < |e.workers| && e.workers[e.main.worker] != [];
    assert Step(capacity, e, WorkerTurn(e.main.worker)) == e;
    SomeoneHasBacklog(e.workers);
  }

  predicate NoBacklog(e: Engine) {
    forall j :: 0 <= j < |e.workers| ==> e.workers[j] == []
  }

  /** Nothing more can be forwarded beyond `all`, and nothing came late. */
  ghost predicate Settled(capacity: nat, e: Engine, all: seq<Packet>) {
    Accounted(e) && (capacity == 0 || NoBacklog(e)) && e.late == 0 && e.forwarded == all
  }

  lemma SettledStep(capacity: nat, e: Engine, all: seq<Packet>, t: Turn)
    requires Settled(capacity, e, all)
    ensures Settled(capacity, Step(capacity, e, t), all)
  {
    StepKeepsAccount(capacity, e, t);
  }

  lemma {:induction false} StaysSettled(capacity: nat, e: Engine, all: seq<Packet>, turns: seq<Turn>)
    requires Settled(capacity, e, all)
    ensures Settled(capacity, Play(capacity, e, turns), all)
  {
    if turns != [] {
      StaysSettled(capacity, e, all, turns[..|turns| - 1]);
      SettledStep(capacity, Play(capacity, e, turns[..|turns| - 1]), all, turns[|turns| - 1]);
    }
  }

  /**
   What the two pauses before `stop` are for: if by then no worker has anything left to forward, every
   way of stopping writes all that was forwarded, and nobody is ever stuck.
   */
  lemma DrainedStopLosesNothing(capacity: nat, e: Engine, turns: seq<Turn>)
    requires Accounted(e) && e.late == 0 && NoBacklog(e)
    ensures var f := Play(capacity, e, turns);
      (f.main.Stopped? ==> f.written == e.forwarded) && !Stuck(capacity, f)
  {
    SomeoneHasBacklog(e.workers);
    StaysSettled(capacity, e, e.forwarded, turns);
    PlayKeepsTotal(capacity, e, turns);
    if Stuck(capacity, Play(capacity, e, turns)) {
      StuckMeansFull(capacity, Play(capacity, e, turns));
    }
  }

  // ---------------------------------------------------------------- how it comes about

  /** Some schedule leads from `start` to `e`. */
  ghost predicate Reaches(capacity: nat, start: Engine, e: Engine) {
    Accounted(e) && exists turns :: Play(capacity, start, turns) == e
  }

  lemma ReachesItself(capacity: nat, e: Engine)
    requires Accounted(e)
    ensures Reaches(capacity, e, e)
  {
    assert Play(capacity, e, []) == e;
  }

  lemma ReachesNext(capacity: nat, start: Engine, e: Engine, t: Turn)
    requires Reaches(capacity, start, e)
    ensures Reaches(capacity, start, Step(capacity, e, t))
  {
    var turns :| Play(capacity, start, turns) == e;
    assert (turns + [t])[..|turns|] == turns;
    assert Play(capacity, start, turns + [t]) == Step(capacity, e, t);
    StepKeepsAccount(capacity, e, t);
  }

  /** Before `stop` is called, the output thread rests and nothing is queued. */
  predicate Calm(e: Engine) {
    e.main.Working? && e.writer.CheckFlag? && e.out == EMPTY_QUEUE
  }

  /** While the flag is up, the output thread can take in all that is queued. */
  lemma {:induction false} WriterDrains(capacity: nat, start: Engine, e: Engine) returns (f: Engine)
    requires Reaches(capacity, start, e) && e.main.Working?
    ensures Reaches(capacity, start, f) && Calm(f) && f.workers == e.workers
    decreases |e.out.items|, if Calm(e) then 0 else if e.writer.Writing? then 3 else if e.writer.CheckFlag? then 2 else 1
  {
    if Calm(e) {
      f := e;
    } else {
      ReachesNext(capacity, start, e, WriterTurn);
      f := WriterDrains(capacity, start, Step(capacity, e, WriterTurn));
    }
  }

  /** And the workers can forward all but `left` packets meanwhile. */
  lemma {:induction false} AllButSome(capacity: nat, start: Engine, e: Engine, left: nat) returns (f: Engine)
    requires Reaches(capacity, start, e) && e.main.Working? && capacity >= 1 && left <= Backlog(e.workers)
    ensures Reaches(capacity, start, f) && Calm(f) && Backlog(f.workers) == left
    decreases Backlog(e.workers)
  {
    f := WriterDrains(capacity, start, e);
    if left < Backlog(f.workers) {
      SomeoneHasBacklog(f.workers);
      var j :| 0 <= j < |f.workers| && f.workers[j] != [];
      ReachesNext(capacity, start, f, WorkerTurn(j));
      ForwardingShrinksBacklog(f.workers, j);
      f := AllButSome(capacity, start, Step(capacity, f, WorkerTurn(j)), left);
    }
  }

  /** `stop` has begun, and the output thread has left with nothing queued but `late` packets. */
  predicate OutputGone(e: Engine, late: nat) {
    e.main == Joining(0) && e.writer.WriterExited? && e.late == late
  }

  /** The flag is cleared, and the output thread leaves before a worker is scheduled again. */
  lemma OutputLeavesFirst(capacity: nat, start: Engine, e: Engine) returns (f: Engine)
    requires Reaches(capacity, start, e) && Calm(e)
    ensures Reaches(capacity, start, f) && OutputGone(f, 0) && f.workers == e.workers
  {
    ReachesNext(capacity, start, e, MainTurn);
    var stopping := Step(capacity, e, MainTurn);
    ReachesNext(capacity, start, stopping, WriterTurn);
    var leaving := Step(capacity, stopping, WriterTurn);
    ReachesNext(capacity, start, leaving, WriterTurn);
    f := Step(capacity, leaving, WriterTurn);
  }

  /** As many packets can still be pushed as fit into the queue. */
  lemma {:induction false} LatePushes(capacity: nat, start: Engine, e: Engine, n: nat) returns (f: Engine)
    requires Reaches(capacity, start, e) && OutputGone(e, 0) && n <= capacity && n <= Backlog(e.workers)
    ensures Reaches(capacity, start, f) && OutputGone(f, n) && Backlog(f.workers) == Backlog(e.workers) - n
  {
    if n == 0 {
      f := e;
    } else {
      var g := LatePushes(capacity, start, e, n - 1);
      SomeoneHasBacklog(g.workers);
      var j :| 0 <= j < |g.workers| && g.workers[j] != [];
      ReachesNext(capacity, start, g, WorkerTurn(j));
      ForwardingShrinksBacklog(g.workers, j);
      f := Step(capacity, g, WorkerTurn(j));
    }
  }

  /** How many more steps main takes when it never has to wait. */
  function StepsLeft(m: StopPc, workers: nat): int {
    match m
    case Working => 3 + workers
    case Joining(j) => 2 + workers - j
    case JoinOutput => 1
    case Stopped => 0
  }

  /** Main joins one worker after the other, up to one that waits for room, if there is one. */
  lemma {:induction false} MainGoesOn(capacity: nat, start: Engine, e: Engine) returns (f: Engine)
    requires Reaches(capacity, start, e) && e.writer.WriterExited? && !e.main.Working?
    requires Backlog(e.workers) == 0 || |e.out.items| >= capacity
    ensures Reaches(capacity, start, f) && f.late == e.late
    ensures if Backlog(e.workers) == 0 then f.main.Stopped? else Stuck(capacity, f)
    decreases StepsLeft(e.main, |e.workers|)
  {
    SomeoneHasBacklog(e.workers);
    if e.main.Stopped? || (e.main.Joining? && e.main.worker < |e.workers| && e.workers[e.main.worker] != []) {
      f := e;
    } else {
      ReachesNext(capacity, start, e, MainTurn);
      f := MainGoesOn(capacity, start, Step(capacity, e, MainTurn));
    }
  }

  // ---------------------------------------------------------------- exactly when

  /**
   Whatever the engine is doing when `stop` is called, `stop` can hang for good exactly when the workers
   still have more to forward than fits into the output queue.
   */
  lemma StopCanHangIffBacklogOverflows(capacity: nat, e: Engine)
    requires Accounted(e) && e.main.Working?
    ensures CanHang(capacity, e) <==> Backlog(e.workers) > capacity
  {
    if CanHang(capacity, e) {
      var turns :| Stuck(capacity, Play(capacity, e, turns));
      PlayKeepsAccount(capacity, e, turns);
      PlayKeepsTotal(capacity, e, turns);
      StuckMeansFull(capacity, Play(capacity, e, turns));
    }
    if Backlog(e.workers) > capacity {
      ReachesItself(capacity, e);
      var f := WriterDrains(capacity, e, e);
      f := OutputLeavesFirst(capacity, e, f);
      f := LatePushes(capacity, e, f, capacity);
      f := MainGoesOn(capacity, e, f);
      var turns :| Play(capacity, e, turns) == f;
      assert Stuck(capacity, Play(capacity, e, turns));
    }
  }

  /** And it can return without having written all that was forwarded exactly when the workers still have anything to forward. */
  lemma StopCanLoseIffBacklog(capacity: nat, e: Engine)
    requires Accounted(e) && e.main.Working?
    ensures CanLose(capacity, e) <==> capacity >= 1 && exists j :: 0 <= j < |e.workers| && e.workers[j] != []
  {
    SomeoneHasBacklog(e.workers);
    if CanLose(capacity, e) {
      var turns :| Lossy(Play(capacity, e, turns));
      if capacity == 0 || Backlog(e.workers) == 0 {
        StaysSettled(capacity, e, e.forwarded, turns);
      }
    }
    if capacity >= 1 && Backlog(e.workers) > 0 {
      ReachesItself(capacity, e);
      var f := AllButSome(capacity, e, e, 1);
      f := OutputLeavesFirst(capacity, e, f);
      f := LatePushes(capacity, e, f, 1);
      f := MainGoesOn(capacity, e, f);
      var turns :| Play(capacity, e, turns) == f;
      assert Lossy(Play(capacity, e, turns));
    }
  }

  /** In particular from the start, when the backlog is all there is to forward. */
  lemma StartCanHangOrLose(capacity: nat, workers: seq<seq<Packet>>)
    ensures CanHang(capacity, Start(workers)) <==> Backlog(workers) > capacity
    ensures capacity >= 1 ==>
      (CanLose(capacity, Start(workers)) <==> exists j :: 0 <= j < |workers| && workers[j] != [])
  {
    StopCanHangIffBacklogOverflows(capacity, Start(workers));
    StopCanLoseIffBacklog(capacity, Start(workers));
  }
}
