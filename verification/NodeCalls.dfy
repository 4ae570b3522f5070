/** The call half of a node's event engine: handleCall and handleCalls (node.go). */
module NodeCalls {
  import opened Types
  import opened Resources
  import opened TaskQueues
  import opened CallQueues
  import opened NodeTasks
  import opened BatchSplits

  /** A new task and the wakeup it is filed under. */
  type Timed = (Task, real)

  /** What handleCall did with a call. */
  datatype Result = Refused | Dropped | Taken(tasks: seq<Timed>)

  /** One task per stage of the app, in order, all for call c, none due before
      now, and only the last one answering. */
  ghost predicate StageTasks(ts: seq<Timed>, c: Call, stages: nat, now: int) {
    && |ts| == stages
    && forall i :: 0 <= i < |ts| ==>
         && ts[i].0.call == c && ts[i].0.stage == i && (ts[i].0.isLast <==> i == stages - 1)
         && ts[i].1 >= now as real
  }

  ghost predicate Distinct(ts: seq<Timed>) {
    forall i, j :: 0 <= i < j < |ts| ==> ts[i].0 != ts[j].0
  }

  ghost predicate NoneIn(ts: seq<Timed>, m: map<Task, real>) {
    forall i :: 0 <= i < |ts| ==> ts[i].0 !in m
  }

  /** Nothing is queued in b but what was queued in a and the tasks ts. */
  ghost predicate Within(b: map<Task, real>, a: map<Task, real>, ts: seq<Timed>) {
    forall t :: t in b ==> t in a || Among(t, ts)
  }

  ghost predicate Among(t: Task, ts: seq<Timed>) {
    exists i :: 0 <= i < |ts| && ts[i].0 == t
  }

  /** The queue m with the tasks ts added. */
  ghost function Queued(m: map<Task, real>, ts: seq<Timed>): map<Task, real> {
    if ts == [] then m else Queued(m, ts[..|ts| - 1])[ts[|ts| - 1].0 := ts[|ts| - 1].1]
  }

  lemma QueuedNone(m: map<Task, real>)
    ensures Queued(m, []) == m && Within(m, m, [])
  {}

  lemma QueuedNext(m: map<Task, real>, ts: seq<Timed>, i: nat)
    requires i < |ts|
    ensures Queued(m, ts[..i + 1]) == Queued(m, ts[..i])[ts[i].0 := ts[i].1]
  {
    assert ts[..i + 1][..i] == ts[..i];
  }

  lemma WithinNext(c: map<Task, real>, b: map<Task, real>, a: map<Task, real>, ts: seq<Timed>, i: nat)
    requires i < |ts| && Within(b, a, ts[..i]) && forall t :: t in c ==> t == ts[i].0 || t in b
    ensures Within(c, a, ts[..i + 1])
  {
    forall t | t in c && t !in a ensures Among(t, ts[..i + 1]) {
      if t == ts[i].0 {
        assert ts[..i + 1][i].0 == t;
      } else {
        var k :| 0 <= k < i && ts[..i][k].0 == t;
        assert ts[..i + 1][k].0 == t;
      }
    }
  }

  lemma {:induction false} QueuedConcat(m: map<Task, real>, a: seq<Timed>, b: seq<Timed>)
    ensures Queued(m, a + b) == Queued(Queued(m, a), b)
  {
    if b == [] {
      assert a + b == a;
    } else {
      QueuedConcat(m, a, b[..|b| - 1]);
      assert (a + b)[..|a + b| - 1] == a + b[..|b| - 1];
    }
  }

  /** The draws for one call: memory for taking it in, and the local work of each
      of its stages. */
  datatype CallCosts = CallCosts(memory: Cost, work: seq<Cost>)

  /** Each task is due when its stage's local work is done. */
  ghost predicate Worked(ts: seq<Timed>, work: seq<Cost>, now: int) {
    |ts| == |work| && forall i :: 0 <= i < |ts| ==> ts[i].1 == now as real + work[i]
  }

  /** Build the tasks of a call. */
  method BuildTasks(c: Call, work: seq<Cost>, now: int) returns (ts: seq<Timed>)
    ensures StageTasks(ts, c, |work|, now) && Worked(ts, work, now) && Distinct(ts)
    ensures forall i :: 0 <= i < |ts| ==> fresh(ts[i].0) && ts[i].0.wakeup == ts[i].1
  {
    ts := [];
    var k := 0;
    while k < |work|
      invariant k == |ts| <= |work| && Distinct(ts)
      invariant forall i :: 0 <= i < k ==> fresh(ts[i].0) && ts[i].0.wakeup == ts[i].1 == now as real + work[i]
      invariant forall i :: 0 <= i < k ==> ts[i].0.call == c && ts[i].0.stage == i
      invariant forall i :: 0 <= i < k ==> (ts[i].0.isLast <==> i == |work| - 1)
    {
      var t := new Task(c, k, k == |work| - 1, now as real + work[k]);
      ts := ts + [(t, t.wakeup)];
      k := k + 1;
    }
  }

  /** A stretch that wiped nothing if nothing could be wiped, and charged nothing. */
  ghost predicate Steady(a: Snapshot, b: Snapshot, cfg: ResourceConfig, now: int) {
    && a.wipes <= b.wipes && Rank(b.phase) <= Rank(a.phase) && (b.levels.isDown ==> a.levels.isDown)
    && (cfg.memoryRecoveryMs > 0.0 && Safe(a, now) ==> Safe(b, now) && b.wipes == a.wipes)
    && Charged(a, b, [], cfg, now)
  }

  lemma SteadyRefl(a: Snapshot, cfg: ResourceConfig, now: int)
    ensures Steady(a, a, cfg, now)
  {
    ChargedNone(a, a, cfg, now);
  }

  lemma SteadyWipes(a: Snapshot, b: Snapshot, cfg: ResourceConfig, now: int)
    requires Steady(a, b, cfg, now)
    ensures a.wipes <= b.wipes
  {}

  lemma SteadyTrans(a: Snapshot, b: Snapshot, c: Snapshot, cfg: ResourceConfig, now: int)
    requires Steady(a, b, cfg, now) && Steady(b, c, cfg, now)
    ensures Steady(a, c, cfg, now)
  {
    hide Charged;
    ChargedThen(a, b, c, [], [], cfg, now);
  }

  method AddTaskLater(n: Node, t: Task, now: int)
    requires n.Valid() && t !in n.tasks.wakeups
    modifies n`phase, n`wipes, n.res, n.tasks, n.calls, n.tasks.heap, n.tasks.heap.Repr, n.calls.heap
    ensures n.Valid() && n.SameOrFresh() && n.CallsKept() && Steady(old(n.Snap()), n.Snap(), n.Cfg(), now)
    ensures n.wipes == old(n.wipes) ==> n.tasks.wakeups == old(n.tasks.wakeups)[t := t.wakeup]
    ensures forall x :: x in n.tasks.wakeups ==> x == t || x in old(n.tasks.wakeups)
  {
    hide TaskQueue.Valid, CallQueue.Valid, Sound, Charged;
    ghost var a := n.Snap();
    n.Interfere(now);
    ghost var b := n.Snap();
    n.tasks.Add(t);
    ChargedNone(b, n.Snap(), n.Cfg(), now);
    ChargedThen(a, b, n.Snap(), [], [], n.Cfg(), now);
  }

  /** Push the tasks one locked section at a time. */
  method AddTasks(n: Node, ts: seq<Timed>, now: int)
    requires n.Valid() && Distinct(ts) && NoneIn(ts, n.tasks.wakeups)
    requires forall i :: 0 <= i < |ts| ==> ts[i].0.wakeup == ts[i].1
    modifies n`phase, n`wipes, n.res, n.tasks, n.calls, n.tasks.heap, n.tasks.heap.Repr, n.calls.heap
    ensures n.Valid() && n.SameOrFresh() && n.CallsKept() && Steady(old(n.Snap()), n.Snap(), n.Cfg(), now)
    ensures n.wipes == old(n.wipes) ==> n.tasks.wakeups == Queued(old(n.tasks.wakeups), ts)
    ensures Within(n.tasks.wakeups, old(n.tasks.wakeups), ts)
  {
    hide TaskQueue.Valid, CallQueue.Valid, Sound, Steady, Queued, Within;
    ghost var a := n.Snap();
    SteadyRefl(a, n.Cfg(), now);
    QueuedNone(a.wakeups);
    var i := 0;
    while i < |ts|
      invariant 0 <= i <= |ts| && n.Valid() && n.SameOrFresh() && n.CallsKept()
      invariant Steady(a, n.Snap(), n.Cfg(), now) && a.wipes <= n.wipes
      invariant n.wipes == old(n.wipes) ==> n.tasks.wakeups == Queued(old(n.tasks.wakeups), ts[..i])
      invariant forall k :: i <= k < |ts| ==> ts[k].0 !in n.tasks.wakeups
      invariant Within(n.tasks.wakeups, old(n.tasks.wakeups), ts[..i])
    {
      QueuedNext(a.wakeups, ts, i);
      ghost var b := n.Snap();
      AddTaskLater(n, ts[i].0, now);
      SteadyTrans(a, b, n.Snap(), n.Cfg(), now);
      SteadyWipes(b, n.Snap(), n.Cfg(), now);
      WithinNext(n.tasks.wakeups, b.wakeups, a.wakeups, ts, i);
      i := i + 1;
    }
    assert ts[..i] == ts;
  }

  /** What one call changes: nothing but the reply of a refusal, the kill of a
      drop, or one new task per stage. */
  ghost predicate CallEffect(a: Snapshot, b: Snapshot, sent: seq<Reply>, c: Call, r: Result, stages: nat, now: int) {
    && a.wipes <= b.wipes
    && sent == (if r.Refused? then [ErrorReply(c)] else [])
    && (b.wipes == a.wipes ==> b.wakeups == Queued(a.wakeups, TasksOf(r)))
    && Within(b.wakeups, a.wakeups, TasksOf(r))
    && (r.Taken? ==> StageTasks(r.tasks, c, stages, now) && Distinct(r.tasks) && NoneIn(r.tasks, a.wakeups))
  }

  function LotOf(r: Result): Lot {
    match r
    case Refused => Refusal
    case Dropped => Loss
    case Taken(_) => Admission
  }

  function LotsOf(rs: seq<Result>): (ls: seq<Lot>)
    ensures |ls| == |rs|
    ensures forall k :: 0 <= k < |rs| ==> ls[k] == LotOf(rs[k])
  {
    if rs == [] then [] else LotsOf(rs[..|rs| - 1]) + [LotOf(rs[|rs| - 1])]
  }

  /** The refresh of the tick came between the two. */
  predicate Came(a: Snapshot, b: Snapshot) {
    a.phase.Waiting? && !b.phase.Waiting?
  }

  /** Between a and b one call with this memory cost had its test and its charge,
      with the refresh before, between or after them if it came. */
  ghost predicate OneDone(a: Snapshot, b: Snapshot, r: Result, cost: Cost, cfg: ResourceConfig, now: int) {
    && (b.phase.Waiting? ==> a.phase.Waiting?)
    && if Came(a, b) then exists j: nat :: j < 3 && OneAt(a, b, r, cost, Some(j), cfg, now)
       else OneAt(a, b, r, cost, None, cfg, now)
  }

  ghost predicate OneAt(a: Snapshot, b: Snapshot, r: Result, cost: Cost, refresh: Option<nat>, cfg: ResourceConfig,
                        now: int)
  {
    var (lot, l) := One(a.levels, cfg, cost, now as real, refresh, 0);
    LotOf(r) == lot && Same(b.levels, l)
  }

  lemma ChargedNothing(x: Snapshot, y: Snapshot, cfg: ResourceConfig, now: int)
    requires Charged(x, y, [], cfg, now)
    ensures Same(y.levels, if Came(x, y) then Refresh(x.levels, cfg, now as real) else x.levels)
  {
    var none: seq<Demand> := [];
    assert none[..0] == none && none[0..] == none;
  }

  /** The call met a node that was down. */
  lemma OneTurnedAway(a: Snapshot, b: Snapshot, cost: Cost, cfg: ResourceConfig, now: int)
    requires Charged(a, b, [], cfg, now) && b.levels.isDown
    ensures OneDone(a, b, Refused, cost, cfg, now)
  {
    ChargedNothing(a, b, cfg, now);
    if Came(a, b) { assert OneAt(a, b, Refused, cost, Some(0), cfg, now); }
  }

  /** It met an up node and was charged: a to b is before the test, b to c before
      the charge, d after it. */
  lemma OneCharged(a: Snapshot, b: Snapshot, c: Snapshot, d: Snapshot, r: Result, cost: Cost, cfg: ResourceConfig,
                   now: int)
    requires Charged(a, b, [], cfg, now) && Charged(b, c, [], cfg, now) && !b.levels.isDown && d.phase == c.phase
    requires d.levels == Charge(c.levels, cfg, Memory, cost, now as real).0
    requires LotOf(r) == if Charge(c.levels, cfg, Memory, cost, now as real).1 == None then Admission else Loss
    ensures OneDone(a, d, r, cost, cfg, now)
  {
    ChargedNothing(a, b, cfg, now);
    ChargedNothing(b, c, cfg, now);
    if Came(a, b) {
      SameSteps(c.levels, Refresh(a.levels, cfg, now as real), cfg, Memory, cost, now as real);
      assert OneAt(a, d, r, cost, Some(0), cfg, now);
    } else if Came(b, c) {
      SameSteps(b.levels, a.levels, cfg, Memory, cost, now as real);
      SameSteps(c.levels, Refresh(a.levels, cfg, now as real), cfg, Memory, cost, now as real);
      assert OneAt(a, d, r, cost, Some(1), cfg, now);
    } else {
      SameSteps(c.levels, a.levels, cfg, Memory, cost, now as real);
    }
  }

  lemma OneLater(a: Snapshot, b: Snapshot, c: Snapshot, r: Result, r': Result, cost: Cost, cfg: ResourceConfig,
                 now: int)
    requires OneDone(a, b, r, cost, cfg, now) && Charged(b, c, [], cfg, now) && LotOf(r') == LotOf(r)
    ensures OneDone(a, c, r', cost, cfg, now)
  {
    ChargedNothing(b, c, cfg, now);
    if Came(b, c) {
      var (lot, l) := One(a.levels, cfg, cost, now as real, None, 0);
      SameSteps(b.levels, l, cfg, Memory, cost, now as real);
      assert OneAt(a, c, r', cost, Some(2), cfg, now);
    } else if Came(a, b) {
      var j: nat :| j < 3 && OneAt(a, b, r, cost, Some(j), cfg, now);
      assert OneAt(a, c, r', cost, Some(j), cfg, now);
    }
  }

  /** Without the refresh, the outcome by the node's memory. */
  lemma OneByMemory(a: Snapshot, b: Snapshot, r: Result, cost: Cost, cfg: ResourceConfig, now: int)
    requires OneDone(a, b, r, cost, cfg, now) && !Came(a, b) && Sound(a.levels, cfg)
    ensures r.Refused? <==> a.levels.isDown
    ensures r.Dropped? <==> !a.levels.isDown && Min(1.0, a.levels.memory + cost) > cfg.memoryLimit
    ensures !r.Refused? ==> b.levels.memory == Min(1.0, a.levels.memory + cost)
    ensures b.levels.isDown <==> !r.Taken?
  {}

  function TasksOf(r: Result): seq<Timed> {
    if r.Taken? then r.tasks else []
  }

  /** The part of handleCall before its tasks: the availability test and the
      memory charge. Taken without tasks means that the call goes on. */
  method Admit(n: Node, c: Call, cost: Cost, now: int) returns (r: Result)
    requires n.Valid()
    modifies n`phase, n`wipes, n`replies, n.res, n.tasks, n.calls, n.tasks.heap, n.calls.heap
    ensures n.Valid() && n.SameOrFresh() && n.CallsKept() && (r.Taken? ==> r.tasks == [])
    ensures n.replies == old(n.replies) + (if r.Refused? then [ErrorReply(c)] else [])
    ensures CallEffect(old(n.Snap()), n.Snap(), if r.Refused? then [ErrorReply(c)] else [], c, r, 0, now)
    ensures Keeps(old(n.Snap()), n.Snap(), n.Cfg(), now)
    ensures if n.res == null then r.Taken? else OneDone(old(n.Snap()), n.Snap(), r, cost, n.Cfg(), now)
    ensures (r.Refused? ==> old(n.Levels().isDown)) && (r.Dropped? ==> n.Levels().isDown)
    ensures r.Taken? ==> !n.Levels().isDown && (n.phase == old(n.phase) ==> !old(n.Levels().isDown))
    ensures n.phase == old(n.phase) && old(n.Levels().isDown) ==> r.Refused?
  {
    hide TaskQueue.Valid, CallQueue.Valid, Sound, Charged, OneDone, Charge;
    ghost var a := n.Snap();
    if n.res != null {
      n.Interfere(now);
      ghost var b := n.Snap();
      if !n.res.IsAvailable() {
        OneTurnedAway(a, b, cost, n.Cfg(), now);
        n.replies := n.replies + [ErrorReply(c)];
        return Refused;
      }
      n.Interfere(now);
      ghost var s := n.Snap();
      var err := n.Consume(Memory, cost, now);
      OneCharged(a, b, s, n.Snap(), if err == None then Taken([]) else Dropped, cost, n.Cfg(), now);
      if err != None {
        return Dropped;
      }
    }
    r := Taken([]);
  }

  /** What a call or a batch leaves alone. */
  ghost predicate Keeps(a: Snapshot, b: Snapshot, cfg: ResourceConfig, now: int) {
    && Rank(b.phase) <= Rank(a.phase)
    && (cfg.memoryRecoveryMs > 0.0 && Safe(a, now) ==> Safe(b, now) && b.wipes == a.wipes)
  }

  lemma TasksAdded(a: Snapshot, b: Snapshot, c: Snapshot, call: Call, ts: seq<Timed>, cfg: ResourceConfig,
                   stages: nat, now: int)
    requires CallEffect(a, b, [], call, Taken([]), 0, now) && Keeps(a, b, cfg, now)
    requires Steady(b, c, cfg, now) && Within(c.wakeups, b.wakeups, ts)
    requires c.wipes == b.wipes ==> c.wakeups == Queued(b.wakeups, ts)
    requires StageTasks(ts, call, stages, now) && Distinct(ts) && NoneIn(ts, a.wakeups)
    ensures CallEffect(a, c, [], call, Taken(ts), stages, now) && Keeps(a, c, cfg, now)
    ensures Rank(c.phase) <= Rank(b.phase) && (c.levels.isDown ==> b.levels.isDown) && Charged(b, c, [], cfg, now)
  {
    hide Queued, StageTasks, Distinct, NoneIn, Safe, Within, Charged;
    QueuedNone(a.wakeups);
    WithinConcat(a.wakeups, b.wakeups, c.wakeups, [], ts);
    assert [] + ts == ts;
  }

  lemma AnyStages(a: Snapshot, b: Snapshot, sent: seq<Reply>, c: Call, r: Result, stages: nat, now: int)
    requires CallEffect(a, b, sent, c, r, 0, now) && !r.Taken?
    ensures CallEffect(a, b, sent, c, r, stages, now) && Distinct(TasksOf(r))
  {}

  method HandleCall(n: Node, c: Call, cost: CallCosts, now: int) returns (r: Result)
    requires n.Valid()
    modifies n`phase, n`wipes, n`replies, n.res, n.tasks, n.calls, n.tasks.heap, n.tasks.heap.Repr, n.calls.heap
    ensures n.Valid() && n.SameOrFresh() && n.CallsKept()
    ensures old(n.replies) <= n.replies
    ensures CallEffect(old(n.Snap()), n.Snap(), n.replies[|old(n.replies)|..], c, r, |cost.work|, now)
    ensures r.Taken? ==> Worked(r.tasks, cost.work, now)
    ensures (r.Refused? ==> old(n.Levels().isDown)) && (r.Dropped? ==> n.Levels().isDown)
    ensures r.Taken? ==> !n.Levels().isDown
    ensures n.phase == old(n.phase) && old(n.Levels().isDown) ==> r.Refused?
    ensures Keeps(old(n.Snap()), n.Snap(), n.Cfg(), now)
    ensures if n.res == null then r.Taken? else OneDone(old(n.Snap()), n.Snap(), r, cost.memory, n.Cfg(), now)
    ensures n.res != null && !Came(old(n.Snap()), n.Snap()) ==>
              && (r.Refused? <==> old(n.Levels().isDown))
              && (r.Dropped? <==> !old(n.Levels().isDown)
                                  && Min(1.0, old(n.Levels().memory) + cost.memory) > n.Cfg().memoryLimit)
              && (!r.Refused? ==> n.Levels().memory == Min(1.0, old(n.Levels().memory) + cost.memory))
    ensures Distinct(TasksOf(r)) && forall i :: 0 <= i < |TasksOf(r)| ==> fresh(TasksOf(r)[i].0)
  {
    hide TaskQueue.Valid, CallQueue.Valid, Sound, StageTasks, CallEffect, Keeps, Steady, Within, Queued, Distinct;
    hide OneDone, Charged, Worked;
    ghost var a := n.Snap();
    r := Admit(n, c, cost.memory, now);
    ghost var b := n.Snap();
    if r.Taken? {
      var ts := BuildTasks(c, cost.work, now);
      AddTasks(n, ts, now);
      TasksAdded(a, b, n.Snap(), c, ts, n.Cfg(), |cost.work|, now);
      if n.res != null { OneLater(a, b, n.Snap(), r, Taken(ts), cost.memory, n.Cfg(), now); }
      r := Taken(ts);
    } else {
      AnyStages(a, n.Snap(), n.replies[|old(n.replies)|..], c, r, |cost.work|, now);
    }
    if n.res != null && !Came(a, n.Snap()) { OneByMemory(a, n.Snap(), r, cost.memory, n.Cfg(), now); }
  }

  // ----- A whole batch -----

  function AllTasks(rs: seq<Result>): seq<Timed> {
    if rs == [] then [] else AllTasks(rs[..|rs| - 1]) + TasksOf(rs[|rs| - 1])
  }

  lemma TasksLast(rs: seq<Result>, r: Result)
    ensures AllTasks(rs + [r]) == AllTasks(rs) + TasksOf(r)
  {
    assert (rs + [r])[..|rs|] == rs;
  }

  lemma AllTasksNone()
    ensures AllTasks([]) == []
  {}

  function Refusals(batch: seq<Call>, rs: seq<Result>): seq<Reply>
    requires |rs| <= |batch|
  {
    if rs == [] then []
    else Refusals(batch, rs[..|rs| - 1]) + (if rs[|rs| - 1].Refused? then [ErrorReply(batch[|rs| - 1])] else [])
  }

  /** Each taken call has exactly one task per stage. */
  ghost predicate Staged(batch: seq<Call>, rs: seq<Result>, stages: nat, now: int)
    requires |rs| <= |batch|
  {
    forall k :: 0 <= k < |rs| && rs[k].Taken? ==> StageTasks(rs[k].tasks, batch[k], stages, now)
  }

  /** ... due by the local work drawn for it. */
  ghost predicate AllWorked(rs: seq<Result>, draws: nat -> CallCosts, now: int) {
    forall k :: 0 <= k < |rs| && rs[k].Taken? ==> Worked(rs[k].tasks, draws(k).work, now)
  }

  /** The memory costs of the first n calls. */
  function MemoryCosts(draws: nat -> CallCosts, n: nat): (costs: seq<Cost>)
    ensures |costs| == n && forall k :: 0 <= k < n ==> costs[k] == draws(k).memory
  {
    if n == 0 then [] else MemoryCosts(draws, n - 1) + [draws(n - 1).memory]
  }

  lemma MemoryCostsStep(draws: nat -> CallCosts, n: nat)
    ensures MemoryCosts(draws, 0) == [] && MemoryCosts(draws, n + 1) == MemoryCosts(draws, n) + [draws(n).memory]
  {}

  /** The state of the loop over a batch: rs are the results so far. */
  ghost predicate BatchDone(a: Snapshot, b: Snapshot, sent: seq<Reply>, batch: seq<Call>, rs: seq<Result>,
                            cfg: ResourceConfig, stages: nat, now: int)
    requires |rs| <= |batch|
  {
    && a.wipes <= b.wipes
    && sent == Refusals(batch, rs)
    && Staged(batch, rs, stages, now)
    && (b.wipes == a.wipes ==> b.wakeups == Queued(a.wakeups, AllTasks(rs)))
    && Within(b.wakeups, a.wakeups, AllTasks(rs))
    && Keeps(a, b, cfg, now)
  }

  /** The results and the levels are those of these memory costs, with the refresh
      somewhere in the batch if it came. */
  ghost predicate Fated(a: Snapshot, b: Snapshot, rs: seq<Result>, costs: seq<Cost>, cfg: ResourceConfig, now: int) {
    && (b.phase.Waiting? ==> a.phase.Waiting?) && |rs| == |costs|
    && if Came(a, b) then exists i: nat :: i < 3 * |costs| && FatedAt(a, b, rs, costs, Some(i), cfg, now)
       else FatedAt(a, b, rs, costs, None, cfg, now)
  }

  ghost predicate FatedAt(a: Snapshot, b: Snapshot, rs: seq<Result>, costs: seq<Cost>, refresh: Option<nat>,
                          cfg: ResourceConfig, now: int)
  {
    && LotsOf(rs) == Lots(a.levels, cfg, costs, now as real, refresh, 0)
    && Same(b.levels, After(a.levels, cfg, costs, now as real, refresh, 0))
  }

  lemma FatedStart(a: Snapshot, cfg: ResourceConfig, now: int)
    ensures Fated(a, a, [], [], cfg, now)
  {}

  lemma FatedOnce(a: Snapshot, b: Snapshot, c: Snapshot, rs: seq<Result>, r: Result, costs: seq<Cost>, cost: Cost,
                  refresh: Option<nat>, here: Option<nat>, cfg: ResourceConfig, now: int)
    requires FatedAt(a, b, rs, costs, refresh, cfg, now) && |rs| == |costs|
    requires OneAt(b, c, r, cost, here, cfg, now)
    requires One(b.levels, cfg, cost, now as real, here, 0) == One(b.levels, cfg, cost, now as real, refresh, |costs|)
    ensures FatedAt(a, c, rs + [r], costs + [cost], refresh, cfg, now)
  {
    hide One;
    LotsNext(a.levels, cfg, costs, cost, now as real, refresh, 0);
    SameOne(b.levels, After(a.levels, cfg, costs, now as real, refresh, 0), cfg, cost, now as real, refresh, |costs|);
    assert (rs + [r])[..|rs|] == rs;
  }

  lemma FatedNext(a: Snapshot, b: Snapshot, c: Snapshot, rs: seq<Result>, r: Result, costs: seq<Cost>, cost: Cost,
                  cfg: ResourceConfig, now: int)
    requires Fated(a, b, rs, costs, cfg, now) && OneDone(b, c, r, cost, cfg, now)
    ensures Fated(a, c, rs + [r], costs + [cost], cfg, now)
  {
    hide FatedAt, OneAt;
    var n := |costs|;
    if Came(a, b) {
      var i: nat :| i < 3 * n && FatedAt(a, b, rs, costs, Some(i), cfg, now);
      OneElsewhere(b.levels, cfg, cost, now as real, Some(i), n);
      FatedOnce(a, b, c, rs, r, costs, cost, Some(i), None, cfg, now);
    } else if Came(b, c) {
      var j: nat :| j < 3 && OneAt(b, c, r, cost, Some(j), cfg, now);
      FatedBefore(a, b, rs, costs, 3 * n + j, cfg, now);
      OneHere(b.levels, cfg, cost, now as real, j, n);
      FatedOnce(a, b, c, rs, r, costs, cost, Some(3 * n + j), Some(j), cfg, now);
    } else {
      OneElsewhere(b.levels, cfg, cost, now as real, None, n);
      FatedOnce(a, b, c, rs, r, costs, cost, None, None, cfg, now);
    }
  }

  lemma FatedBefore(a: Snapshot, b: Snapshot, rs: seq<Result>, costs: seq<Cost>, i: nat, cfg: ResourceConfig, now: int)
    requires FatedAt(a, b, rs, costs, None, cfg, now) && i >= 3 * |costs|
    ensures FatedAt(a, b, rs, costs, Some(i), cfg, now)
  {
    LaterRefresh(a.levels, cfg, costs, now as real, i, 0);
  }

  /** So a batch has the shape that its costs and the refresh give it. */
  lemma FatedShape(a: Snapshot, b: Snapshot, rs: seq<Result>, costs: seq<Cost>, cfg: ResourceConfig, now: int)
    returns (split: nat)
    requires Fated(a, b, rs, costs, cfg, now) && Sound(a.levels, cfg)
    ensures Shape(a, b, rs, split, cfg, now)
  {
    hide FatedAt;
    var refresh: Option<nat> := None;
    if Came(a, b) {
      var i: nat :| i < 3 * |costs| && FatedAt(a, b, rs, costs, Some(i), cfg, now);
      refresh := Some(i);
    }
    split := ShapeAt(a, b, rs, costs, refresh, cfg, now);
  }

  lemma ShapeAt(a: Snapshot, b: Snapshot, rs: seq<Result>, costs: seq<Cost>, refresh: Option<nat>,
                cfg: ResourceConfig, now: int)
    returns (split: nat)
    requires FatedAt(a, b, rs, costs, refresh, cfg, now) && Sound(a.levels, cfg) && |rs| == |costs|
    requires refresh.Some? ==> a.phase.Waiting?
    ensures Shape(a, b, rs, split, cfg, now)
  {
    var s, t := a.levels, now as real;
    split := 0;
    if s.isDown {
      DownThenSplits(s, cfg, costs, t, refresh, 0);
      if Fixed(a, cfg, now) { DownRefuses(s, cfg, costs, t, refresh, 0); }
    } else if Fixed(a, cfg, now) {
      UpSplits(s, cfg, costs, t, refresh, 0);
      split :| SplitAt(LotsOf(rs), split);
      assert Loss in LotsOf(rs) <==> split < |rs| by { if split < |rs| { assert LotsOf(rs)[split] == Loss; } }
    }
  }

  /** A node that starts up and that no refresh can revive takes calls up to the
      split, loses the one that kills it and refuses the rest; one that starts
      down and stays down refuses them all; one that is revived splits after a
      refused prefix. */
  ghost predicate Shape(a: Snapshot, b: Snapshot, rs: seq<Result>, split: nat, cfg: ResourceConfig, now: int) {
    && (Fixed(a, cfg, now) && !a.levels.isDown ==>
          SplitAt(LotsOf(rs), split) && (b.levels.isDown <==> split < |rs|))
    && (Fixed(a, cfg, now) && a.levels.isDown ==> AllRefused(LotsOf(rs)) && b.levels.isDown)
    && (a.levels.isDown ==> RefusedThenSplits(LotsOf(rs)))
  }

  lemma ShapeTaken(a: Snapshot, b: Snapshot, rs: seq<Result>, cfg: ResourceConfig, now: int)
    requires !a.levels.isDown && !b.levels.isDown && forall k :: 0 <= k < |rs| ==> rs[k].Taken?
    ensures Shape(a, b, rs, |rs|, cfg, now)
  {}

  lemma BatchStart(a: Snapshot, batch: seq<Call>, cfg: ResourceConfig, stages: nat, now: int)
    ensures BatchDone(a, a, [], batch, [], cfg, stages, now)
  {}

  lemma WithinConcat(a: map<Task, real>, b: map<Task, real>, c: map<Task, real>, ts: seq<Timed>, us: seq<Timed>)
    requires Within(b, a, ts) && Within(c, b, us)
    ensures Within(c, a, ts + us)
  {
    forall t | t in c && t !in a ensures Among(t, ts + us) {
      if t in b {
        var i :| 0 <= i < |ts| && ts[i].0 == t;
        assert (ts + us)[i].0 == t;
      } else {
        var i :| 0 <= i < |us| && us[i].0 == t;
        assert (ts + us)[|ts| + i].0 == t;
      }
    }
  }

  lemma BatchNext(a: Snapshot, b: Snapshot, c: Snapshot, sent: seq<Reply>, more: seq<Reply>, batch: seq<Call>,
                  rs: seq<Result>, r: Result, cfg: ResourceConfig, stages: nat, now: int)
    requires |rs| < |batch| && BatchDone(a, b, sent, batch, rs, cfg, stages, now)
    requires CallEffect(b, c, more, batch[|rs|], r, stages, now) && Keeps(b, c, cfg, now)
    ensures BatchDone(a, c, sent + more, batch, rs + [r], cfg, stages, now)
  {
    hide StageTasks, Safe, Within, Queued, Distinct, NoneIn;
    assert (rs + [r])[..|rs|] == rs;
    QueuedConcat(a.wakeups, AllTasks(rs), TasksOf(r));
    WithinConcat(a.wakeups, b.wakeups, c.wakeups, AllTasks(rs), TasksOf(r));
  }

  /** The loop of handleCalls over an extracted batch. `split` is the number of
      calls taken before the node died, if it did. */
  method HandleBatch(n: Node, batch: seq<Call>, stages: nat, draws: nat -> CallCosts, now: int)
    returns (rs: seq<Result>, ghost split: nat)
    requires n.Valid() && forall k :: |draws(k).work| == stages
    modifies n`phase, n`wipes, n`replies, n.res, n.tasks, n.calls, n.tasks.heap, n.tasks.heap.Repr, n.calls.heap
    ensures n.Valid() && n.SameOrFresh() && n.CallsKept() && |rs| == |batch| && old(n.replies) <= n.replies
    ensures BatchDone(old(n.Snap()), n.Snap(), n.replies[|old(n.replies)|..], batch, rs, n.Cfg(), stages, now)
    ensures AllWorked(rs, draws, now)
    ensures n.res != null ==> Fated(old(n.Snap()), n.Snap(), rs, MemoryCosts(draws, |batch|), n.Cfg(), now)
    ensures n.res == null ==> forall k :: 0 <= k < |rs| ==> rs[k].Taken?
    ensures Shape(old(n.Snap()), n.Snap(), rs, split, n.Cfg(), now)
    ensures Distinct(AllTasks(rs)) && forall i :: 0 <= i < |AllTasks(rs)| ==> fresh(AllTasks(rs)[i].0)
  {
    hide TaskQueue.Valid, CallQueue.Valid, Sound, Fated, Shape, Charged, BatchDone;
    ghost var a := n.Snap();
    rs := RunBatch(n, batch, stages, draws, now);
    if n.res != null {
      split := FatedShape(a, n.Snap(), rs, MemoryCosts(draws, |batch|), n.Cfg(), now);
    } else {
      split := |rs|;
      ShapeTaken(a, n.Snap(), rs, n.Cfg(), now);
    }
  }

  method RunBatch(n: Node, batch: seq<Call>, stages: nat, draws: nat -> CallCosts, now: int) returns (rs: seq<Result>)
    requires n.Valid() && forall k :: |draws(k).work| == stages
    modifies n`phase, n`wipes, n`replies, n.res, n.tasks, n.calls, n.tasks.heap, n.tasks.heap.Repr, n.calls.heap
    ensures n.Valid() && n.SameOrFresh() && n.CallsKept() && |rs| == |batch| && old(n.replies) <= n.replies
    ensures BatchDone(old(n.Snap()), n.Snap(), n.replies[|old(n.replies)|..], batch, rs, n.Cfg(), stages, now)
    ensures AllWorked(rs, draws, now)
    ensures n.res != null ==> Fated(old(n.Snap()), n.Snap(), rs, MemoryCosts(draws, |batch|), n.Cfg(), now)
    ensures n.res == null ==> forall k :: 0 <= k < |rs| ==> rs[k].Taken?
    ensures Distinct(AllTasks(rs)) && forall i :: 0 <= i < |AllTasks(rs)| ==> fresh(AllTasks(rs)[i].0)
  {
    hide TaskQueue.Valid, CallQueue.Valid, Sound, BatchDone, CallEffect, Keeps, AllTasks, OneDone, Fated, Worked;
    hide MemoryCosts, Refusals;
    MemoryCostsStep(draws, 0);
    AllTasksNone();
    rs := [];
    ghost var a, sent, all := n.Snap(), [], [];
    BatchStart(a, batch, n.Cfg(), stages, now);
    FatedStart(a, n.Cfg(), now);
    var i := 0;
    while i < |batch|
      invariant 0 <= i <= |batch| && |rs| == i && n.Valid() && n.SameOrFresh() && n.CallsKept()
      invariant n.replies == old(n.replies) + sent
      invariant BatchDone(a, n.Snap(), sent, batch, rs, n.Cfg(), stages, now) && AllWorked(rs, draws, now)
      invariant n.res != null ==> Fated(a, n.Snap(), rs, MemoryCosts(draws, i), n.Cfg(), now)
      invariant n.res == null ==> forall k :: 0 <= k < |rs| ==> rs[k].Taken?
      invariant all == AllTasks(rs) && Distinct(all) && forall k :: 0 <= k < |all| ==> fresh(all[k].0)
    {
      ghost var before, had := n.Snap(), n.replies;
      var r := HandleCall(n, batch[i], draws(i), now);
      ghost var more := n.replies[|had|..];
      BatchNext(a, before, n.Snap(), sent, more, batch, rs, r, n.Cfg(), stages, now);
      if n.res != null {
        FatedNext(a, before, n.Snap(), rs, r, MemoryCosts(draws, i), draws(i).memory, n.Cfg(), now);
      }
      MemoryCostsStep(draws, i);
      TasksLast(rs, r);
      all := all + TasksOf(r);
      rs, sent := rs + [r], sent + more;
      i := i + 1;
    }
  }

  /** handleCalls of an app node: extract what is ready, then process it. Call k
      of the batch uses the draws draws(k). */
  method HandleCalls(n: Node, stages: nat, draws: nat -> CallCosts, now: int)
    returns (batch: seq<Call>, rs: seq<Result>, ghost split: nat)
    requires n.Valid() && now > 0 && forall k :: |draws(k).work| == stages
    modifies n`phase, n`wipes, n`replies, n.res, n.tasks, n.calls, n.tasks.heap, n.tasks.heap.Repr, n.calls.heap
    modifies n.calls.heap.Repr
    ensures n.Valid() && n.SameOrFresh() && |rs| == |batch| && old(n.replies) <= n.replies
    ensures SortedByPriority(batch)
    ensures exists rest :: SplitByReady(old(n.calls.content), multiset(batch), rest, now)
                           && (n.calls.content == rest
                               || (n.calls.content == multiset{}
                                   && !NoCallWipe(old(n.phase), old(n.wipes), n.phase, n.wipes)))
    ensures Onward(old(n.phase), old(n.wipes), n.phase, n.wipes)
    ensures BatchDone(old(n.Snap()), n.Snap(), n.replies[|old(n.replies)|..], batch, rs, n.Cfg(), stages, now)
    ensures AllWorked(rs, draws, now)
    ensures n.res != null ==> Fated(old(n.Snap()), n.Snap(), rs, MemoryCosts(draws, |batch|), n.Cfg(), now)
    ensures n.res == null ==> forall k :: 0 <= k < |rs| ==> rs[k].Taken?
    ensures Shape(old(n.Snap()), n.Snap(), rs, split, n.Cfg(), now)
    ensures Distinct(AllTasks(rs)) && forall i :: 0 <= i < |AllTasks(rs)| ==> fresh(AllTasks(rs)[i].0)
  {
    hide TaskQueue.Valid, CallQueue.Valid, Sound, BatchDone, SplitByReady, SortedByPriority, Fated, Shape;
    batch := n.calls.ExtractReady(now);
    ghost var rest := n.calls.content;
    rs, split := HandleBatch(n, batch, stages, draws, now);
  }
}
