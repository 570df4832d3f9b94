/**
 Each fast path of the modular engine has a table of its own. Because both directions of a flow hash
 alike, the tables together behave like one.
 */
module Sharding {
  import opened Types
  import opened Connections
  import opened ConnTracker
  import opened FastPath
  import Routing

  /** The numbers of balancers and of fast paths behind each, and the hash they are chosen by. */
  datatype Layout = Layout(lbs: nat, fps: nat, std: StdHash)

  predicate ValidLayout(l: Layout) {
    l.lbs > 0 && l.fps > 0
  }

  /** The fast path that a tuple's packets end up at. */
  function ShardOf(l: Layout, t: FiveTuple): (j: nat)
    requires ValidLayout(l)
    ensures j < l.lbs * l.fps
  {
    WorkerInRange(l.lbs, l.fps, Hash(l.std, t));
    Routing.WorkerOf(l.lbs, l.fps, Hash(l.std, t))
  }

  lemma WorkerInRange(lbs: nat, fps: nat, h: nat)
    requires lbs > 0 && fps > 0
    ensures Routing.WorkerOf(lbs, fps, h) < lbs * fps
  {
    assert (h % lbs + 1) * fps <= lbs * fps;
  }

  lemma BothDirectionsShareShard(l: Layout, t: FiveTuple)
    requires ValidLayout(l)
    ensures ShardOf(l, t) == ShardOf(l, t.Canonical()) == ShardOf(l, t.Reverse())
  {
  }

  // ---------------------------------------------------------------- the two systems

  /** A packet reaches its fast path, or a fast path finds nothing to do and cleans up its own table. */
  datatype Move = Arrive(event: Event) | Idle(fp: nat, now: nat)

  type Shards = seq<Table>

  function NoShards(l: Layout): Shards {
    seq(l.lbs * l.fps, _ => map[])
  }

  function ShardsStep(l: Layout, shards: Shards, a: Move): (shards': Shards)
    requires ValidLayout(l) && |shards| == l.lbs * l.fps
    ensures |shards'| == |shards|
  {
    match a
    case Arrive(e) =>
      var j := ShardOf(l, e.job.tuple);
      shards[j := TableStep(shards[j], Packet(e))]
    case Idle(j, now) => if j < |shards| then shards[j := TableStep(shards[j], TimedOut(now))] else shards
  }

  /** One table for all; an idle fast path's cleanup takes only the flows that are its own. */
  function GlobalStep(l: Layout, t: Table, a: Move): Table
    requires ValidLayout(l)
  {
    match a
    case Arrive(e) => TableStep(t, Packet(e))
    case Idle(j, now) => map k | k in t && !(ShardOf(l, k) == j && Expired(t[k], now, IDLE_LIMIT)) :: t[k]
  }

  function GlobalAfter(l: Layout, moves: seq<Move>): Table
    requires ValidLayout(l)
  {
    if moves == [] then map[] else GlobalStep(l, GlobalAfter(l, moves[..|moves| - 1]), moves[|moves| - 1])
  }

  // ---------------------------------------------------------------- the simulation

  /** Every flow is in the table of its own fast path and in no other. */
  predicate OwnKeysOnly(l: Layout, shards: Shards)
    requires ValidLayout(l)
  {
    forall j, k :: 0 <= j < |shards| && k in shards[j] ==> ShardOf(l, k) == j
  }

  function Find(t: Table, k: FiveTuple): Option<Connection> {
    if k in t then Some(t[k]) else None
  }

  /** The one table is the union of the shards, record by record. */
  ghost predicate IsUnion(l: Layout, t: Table, shards: Shards)
    requires ValidLayout(l) && |shards| == l.lbs * l.fps
  {
    forall k :: Find(t, k) == Find(shards[ShardOf(l, k)], k)
  }

  lemma ArriveKeepsUnion(l: Layout, t: Table, shards: Shards, e: Event)
    requires ValidLayout(l) && |shards| == l.lbs * l.fps && OwnKeysOnly(l, shards) && IsUnion(l, t, shards)
    ensures RecordFor(t, e) == RecordFor(shards[ShardOf(l, e.job.tuple)], e)
    ensures IsUnion(l, GlobalStep(l, t, Arrive(e)), ShardsStep(l, shards, Arrive(e)))
  {
    var key, j := e.job.tuple.Canonical(), ShardOf(l, e.job.tuple);
    BothDirectionsShareShard(l, e.job.tuple);
    assert Find(t, key) == Find(shards[j], key);
    var t', shards' := GlobalStep(l, t, Arrive(e)), ShardsStep(l, shards, Arrive(e));
    var c := Processed(e.env, RecordFor(t, e), e.job, e.now);
    assert t' == t[key := c] && shards' == shards[j := shards[j][key := c]];
    UpdateKeepsUnion(l, t, shards, key, c);
  }

  lemma UpdateKeepsUnion(l: Layout, t: Table, shards: Shards, key: FiveTuple, c: Connection)
    requires ValidLayout(l) && |shards| == l.lbs * l.fps && OwnKeysOnly(l, shards) && IsUnion(l, t, shards)
    ensures var j := ShardOf(l, key); IsUnion(l, t[key := c], shards[j := shards[j][key := c]])
  {
  }

  lemma IdleKeepsUnion(l: Layout, t: Table, shards: Shards, j: nat, now: nat)
    requires ValidLayout(l) && |shards| == l.lbs * l.fps && OwnKeysOnly(l, shards) && IsUnion(l, t, shards)
    ensures IsUnion(l, GlobalStep(l, t, Idle(j, now)), ShardsStep(l, shards, Idle(j, now)))
  {
  }

  // ---------------------------------------------------------------- runs with a limit on each table

  /** One move when each fast path's table holds `max` records at most. */
  ghost predicate ShardsMove(l: Layout, max: nat, shards: Shards, a: Move, shards': Shards)
    requires ValidLayout(l) && |shards| == |shards'| == l.lbs * l.fps
  {
    match a
    case Arrive(e) =>
      var j := ShardOf(l, e.job.tuple);
      PollStep(max, shards[j], Packet(e), shards'[j]) && shards' == shards[j := shards'[j]]
    case Idle(j, now) =>
      if j < |shards| then PollStep(max, shards[j], TimedOut(now), shards'[j]) && shards' == shards[j := shards'[j]]
      else shards' == shards
  }

  ghost predicate IsShardsTrace(l: Layout, max: nat, moves: seq<Move>, ss: seq<Shards>)
    requires ValidLayout(l)
  {
    && |ss| == |moves| + 1 && ss[0] == NoShards(l)
    && (forall i :: 0 <= i < |ss| ==> |ss[i]| == l.lbs * l.fps)
    && (forall i :: 0 <= i < |moves| ==> ShardsMove(l, max, ss[i], moves[i], ss[i + 1]))
  }

  /** No fast path has to evict at this move. */
  predicate HasRoom(l: Layout, max: nat, shards: Shards, a: Move)
    requires ValidLayout(l) && |shards| == l.lbs * l.fps
  {
    a.Arrive? ==> |TableStep(shards[ShardOf(l, a.event.job.tuple)], Packet(a.event))| <= max
  }

  lemma PollAddsOwnKey(max: nat, t: Table, p: Poll, t': Table)
    requires PollStep(max, t, p, t')
    ensures forall k :: k in t' ==> k in t || (p.Packet? && k == Key(p.event))
  {
  }

  lemma ReplacingKeepsOwnKeys(l: Layout, shards: Shards, j: nat, t: Table)
    requires ValidLayout(l) && OwnKeysOnly(l, shards) && j < |shards| && forall k :: k in t ==> ShardOf(l, k) == j
    ensures OwnKeysOnly(l, shards[j := t])
  {
  }

  lemma MoveKeepsOwnKeys(l: Layout, max: nat, shards: Shards, a: Move, shards': Shards)
    requires ValidLayout(l) && |shards| == |shards'| == l.lbs * l.fps && ShardsMove(l, max, shards, a, shards')
    requires OwnKeysOnly(l, shards)
    ensures OwnKeysOnly(l, shards')
  {
    match a
    case Arrive(e) =>
      BothDirectionsShareShard(l, e.job.tuple);
      var j := ShardOf(l, e.job.tuple);
      PollAddsOwnKey(max, shards[j], Packet(e), shards'[j]);
      ReplacingKeepsOwnKeys(l, shards, j, shards'[j]);
    case Idle(j, now) =>
      if j < |shards| {
        PollAddsOwnKey(max, shards[j], TimedOut(now), shards'[j]);
        ReplacingKeepsOwnKeys(l, shards, j, shards'[j]);
      }
  }

  lemma {:induction false} ShardsKeepOwnKeys(l: Layout, max: nat, moves: seq<Move>, ss: seq<Shards>, n: nat)
    requires ValidLayout(l) && IsShardsTrace(l, max, moves, ss) && n <= |moves|
    ensures OwnKeysOnly(l, ss[n])
  {
    if n > 0 {
      ShardsKeepOwnKeys(l, max, moves, ss, n - 1);
      MoveKeepsOwnKeys(l, max, ss[n - 1], moves[n - 1], ss[n]);
    }
  }

  lemma MoveWithRoom(l: Layout, max: nat, shards: Shards, a: Move, shards': Shards)
    requires ValidLayout(l) && |shards| == |shards'| == l.lbs * l.fps && ShardsMove(l, max, shards, a, shards')
    requires HasRoom(l, max, shards, a)
    ensures shards' == ShardsStep(l, shards, a)
  {
    if a.Arrive? {
      var j := ShardOf(l, a.event.job.tuple);
      StepWithoutEviction(max, shards[j], Packet(a.event), shards'[j]);
    }
  }

  lemma StepKeepsUnion(l: Layout, t: Table, shards: Shards, a: Move)
    requires ValidLayout(l) && |shards| == l.lbs * l.fps && OwnKeysOnly(l, shards) && IsUnion(l, t, shards)
    ensures IsUnion(l, GlobalStep(l, t, a), ShardsStep(l, shards, a))
  {
    match a
    case Arrive(e) => ArriveKeepsUnion(l, t, shards, e);
    case Idle(j, now) => IdleKeepsUnion(l, t, shards, j, now);
  }

  /**
   For every order in which packets arrive and fast paths fall idle, and as long as none of them has to
   evict, their tables together hold exactly what one table without a limit would hold.
   */
  lemma {:induction false} ShardsActAsOneTable(l: Layout, max: nat, moves: seq<Move>, ss: seq<Shards>, n: nat)
    requires ValidLayout(l) && IsShardsTrace(l, max, moves, ss) && n <= |moves|
    requires forall i :: 0 <= i < n ==> HasRoom(l, max, ss[i], moves[i])
    ensures IsUnion(l, GlobalAfter(l, moves[..n]), ss[n])
  {
    if n > 0 {
      ShardsActAsOneTable(l, max, moves, ss, n - 1);
      ShardsKeepOwnKeys(l, max, moves, ss, n - 1);
      MoveWithRoom(l, max, ss[n - 1], moves[n - 1], ss[n]);
      assert moves[..n][..n - 1] == moves[..n - 1];
      StepKeepsUnion(l, GlobalAfter(l, moves[..n - 1]), ss[n - 1], moves[n - 1]);
    }
  }

  /** So the next packet is forwarded or dropped alike by its shard and by the one table. */
  lemma ShardsJudgeAlike(l: Layout, max: nat, moves: seq<Move>, ss: seq<Shards>, n: nat, e: Event)
    requires ValidLayout(l) && IsShardsTrace(l, max, moves, ss) && n <= |moves|
    requires forall i :: 0 <= i < n ==> HasRoom(l, max, ss[i], moves[i])
    ensures Verdict(ss[n][ShardOf(l, e.job.tuple)], e) == Verdict(GlobalAfter(l, moves[..n]), e)
  {
    ShardsActAsOneTable(l, max, moves, ss, n);
    ShardsKeepOwnKeys(l, max, moves, ss, n);
    ArriveKeepsUnion(l, GlobalAfter(l, moves[..n]), ss[n], e);
  }

  /** No flow is ever tracked twice, with or without eviction. */
  lemma ShardsAreDisjoint(l: Layout, max: nat, moves: seq<Move>, ss: seq<Shards>, n: nat, i: nat, j: nat)
    requires ValidLayout(l) && IsShardsTrace(l, max, moves, ss) && n <= |moves|
    requires i < l.lbs * l.fps && j < l.lbs * l.fps && i != j
    ensures ss[n][i].Keys !! ss[n][j].Keys
  {
    ShardsKeepOwnKeys(l, max, moves, ss, n);
    forall k | k in ss[n][i].Keys ensures k !in ss[n][j].Keys {
      assert k in ss[n][i] && ShardOf(l, k) == i;
    }
  }
}
