/** The task half of a node's event engine: addTask (node.go) and handleTasks,
    HandleTask, handleTaskCPU (task.go), with the lock-to-lock interference of
    the goroutines that run beside the runner in the same tick. */
module NodeTasks {
  import opened Types
  import opened Lists
  import opened PQueues
  import opened TaskQueues
  import opened CallQueues
  import opened Resources

  /** Where the node's own nextMillisecond goroutine is in this tick: its
      refresh still to come, or recovered with the tasks and then the calls
      still to be wiped, or done. */
  datatype Phase = Waiting | WipingTasks | WipingCalls | Done

  function Rank(p: Phase): nat {
    match p
    case Waiting => 3
    case WipingTasks => 2
    case WipingCalls => 1
    case Done => 0
  }

  /** The steps of nextMillisecond, and the count of its wipes of the tasks, only
      go on; the calls are wiped after the tasks. */
  predicate Onward(p: Phase, wipes: nat, p': Phase, wipes': nat) {
    Rank(p') <= Rank(p) && wipes <= wipes' && (p'.WipingCalls? && !p.WipingCalls? ==> wipes < wipes')
  }

  /** Between these, the calls cannot have been wiped. */
  predicate NoCallWipe(p: Phase, wipes: nat, p': Phase, wipes': nat) {
    p' == p || (wipes' == wipes && !p.WipingCalls?)
  }

  /** How a task left the node. */
  datatype Fate = Completed | ReplyDropped | Rejected | Parked

  /** ... and why: the levels read at the locked section that decided it, and
      the network charge of its reply. */
  datatype Closing = Closing(task: Task, fate: Fate, seen: Levels, charge: Cost)

  /** The draws for one look at a task: cpu for its local work, memory if it is
      queued again, memory for each remote call that has to be queued, network
      for the reply. */
  datatype Costs = Costs(cpu: Cost, queued: Cost, remote: seq<Cost>, reply: Cost)

  /** One look at a task: its wakeup then, how it ended (not at all if it went
      back in the queue) and what it cost. */
  datatype Look = Look(task: Task, at: real, ended: seq<Closing>, cost: Costs)

  function Memories(cs: seq<Cost>): seq<Demand> {
    if cs == [] then [] else Memories(cs[..|cs| - 1]) + [Demand(Memory, cs[|cs| - 1])]
  }

  /** The cpu and memory charges of one look, in order. */
  function BillFor(ended: seq<Closing>, cost: Costs): seq<Demand> {
    if ended == [] then [Demand(Cpu, cost.cpu), Demand(Memory, cost.queued)]
    else match ended[0].fate
      case Parked => []
      case Rejected => [Demand(Cpu, cost.cpu)]
      case _ => [Demand(Cpu, cost.cpu)] + Memories(cost.remote)
  }

  function Bill(looks: seq<Look>): seq<Demand> {
    if looks == [] then []
    else Bill(looks[..|looks| - 1]) + BillFor(looks[|looks| - 1].ended, looks[|looks| - 1].cost)
  }

  /** The cpu cost of the looks at an up node. */
  function CpuCost(looks: seq<Look>): real {
    if looks == [] then 0.0
    else
      var l := looks[|looks| - 1];
      CpuCost(looks[..|looks| - 1]) + (if l.ended != [] && l.ended[0].fate.Parked? then 0.0 else l.cost.cpu)
  }

  function SumOf(cs: seq<Cost>): real {
    if cs == [] then 0.0 else SumOf(cs[..|cs| - 1]) + cs[|cs| - 1]
  }

  /** The memory cost of the looks: for tasks put back, their place in the queue;
      for tasks that ran, their queued remote calls. */
  function MemoryCost(looks: seq<Look>): real {
    if looks == [] then 0.0
    else
      var l := looks[|looks| - 1];
      MemoryCost(looks[..|looks| - 1])
      + (if l.ended == [] then l.cost.queued
         else if l.ended[0].fate.Completed? || l.ended[0].fate.ReplyDropped? then SumOf(l.cost.remote)
         else 0.0)
  }

  lemma {:induction false} MemoriesOnly(cs: seq<Cost>)
    ensures NoNetwork(Memories(cs)) && Total(Memories(cs), Cpu) == 0.0 && Total(Memories(cs), Memory) == SumOf(cs)
  {
    if cs != [] {
      var d := Demand(Memory, cs[|cs| - 1]);
      MemoriesOnly(cs[..|cs| - 1]);
      TotalConcat(Memories(cs[..|cs| - 1]), [d], Cpu);
      TotalConcat(Memories(cs[..|cs| - 1]), [d], Memory);
      TotalOne(d, Cpu);
      TotalOne(d, Memory);
    }
  }

  lemma BillForTotal(ended: seq<Closing>, cost: Costs)
    ensures NoNetwork(BillFor(ended, cost))
    ensures Total(BillFor(ended, cost), Cpu) == if ended != [] && ended[0].fate.Parked? then 0.0 else cost.cpu
    ensures Total(BillFor(ended, cost), Memory)
         == if ended == [] then cost.queued
            else if ended[0].fate.Completed? || ended[0].fate.ReplyDropped? then SumOf(cost.remote)
            else 0.0
  {
    BillForKind(ended, cost, Cpu);
    BillForKind(ended, cost, Memory);
    MemoriesOnly(cost.remote);
  }

  lemma BillForKind(ended: seq<Closing>, cost: Costs, kind: ResourceType)
    ensures Total(BillFor(ended, cost), kind)
         == (if kind.Cpu? && !(ended != [] && ended[0].fate.Parked?) then cost.cpu else 0.0)
          + (if ended == [] then (if kind.Memory? then cost.queued else 0.0)
             else if ended[0].fate.Completed? || ended[0].fate.ReplyDropped? then Total(Memories(cost.remote), kind)
             else 0.0)
  {
    TotalOne(Demand(Cpu, cost.cpu), kind);
    TotalOne(Demand(Memory, cost.queued), kind);
    TotalConcat([Demand(Cpu, cost.cpu)], Memories(cost.remote), kind);
    TotalConcat([Demand(Cpu, cost.cpu)], [Demand(Memory, cost.queued)], kind);
    assert [Demand(Cpu, cost.cpu)] + [Demand(Memory, cost.queued)]
        == [Demand(Cpu, cost.cpu), Demand(Memory, cost.queued)];
  }

  lemma {:induction false} BillTotals(looks: seq<Look>)
    ensures Total(Bill(looks), Cpu) == CpuCost(looks) && Total(Bill(looks), Memory) == MemoryCost(looks)
  {
    if looks != [] {
      var n := |looks| - 1;
      BillTotals(looks[..n]);
      BillForTotal(looks[n].ended, looks[n].cost);
      TotalConcat(Bill(looks[..n]), BillFor(looks[n].ended, looks[n].cost), Cpu);
      TotalConcat(Bill(looks[..n]), BillFor(looks[n].ended, looks[n].cost), Memory);
    }
  }

  lemma MemoriesNone()
    ensures Memories([]) == []
  {}

  lemma MemoriesNext(cs: seq<Cost>, i: nat)
    requires i < |cs|
    ensures Memories(cs[..i + 1]) == Memories(cs[..i]) + [Demand(Memory, cs[i])]
  {
    assert cs[..i + 1][..i] == cs[..i];
  }

  function EndedIn(looks: seq<Look>): seq<Closing> {
    if looks == [] then [] else EndedIn(looks[..|looks| - 1]) + looks[|looks| - 1].ended
  }

  /** How often the task went back in the queue. */
  function Delays(looks: seq<Look>, t: Task): nat {
    if looks == [] then 0
    else
      var l := looks[|looks| - 1];
      Delays(looks[..|looks| - 1], t) + (if l.task == t && l.ended == [] then 1 else 0)
  }

  /** The earlier of two looks is at a truncated wakeup that is no later. */
  ghost predicate InOrder(looks: seq<Look>) {
    forall i, j :: 0 <= i < j < |looks| ==> Trunc(looks[i].at) <= Trunc(looks[j].at)
  }

  /** The draws were used in turn. */
  ghost predicate Drawn(looks: seq<Look>, draws: nat -> Costs) {
    forall k :: 0 <= k < |looks| ==> looks[k].cost == draws(k)
  }

  lemma DrawnNone(draws: nat -> Costs)
    ensures Drawn([], draws)
  {}

  lemma DrawnNext(looks: seq<Look>, l: Look, draws: nat -> Costs)
    requires Drawn(looks, draws) && l.cost == draws(|looks|)
    ensures Drawn(looks + [l], draws)
  {}

  predicate RejectedAt(s: Levels, cfg: ResourceConfig) {
    cfg.cpuRejectLimit > 0.0 && s.cpu >= cfg.cpuRejectLimit
  }

  /** Neither cpu test stops a task. */
  predicate PassesCpu(s: Levels, cfg: ResourceConfig) {
    !RejectedAt(s, cfg) && CpuDelay(s, cfg) <= 0.0
  }

  /** The fate is the one its levels call for. */
  ghost predicate Caused(c: Closing, cfg: ResourceConfig) {
    && Sound(c.seen, cfg)
    && match c.fate
       case Parked => c.seen.isDown
       case Rejected => RejectedAt(c.seen, cfg)
       case ReplyDropped =>
         && c.task.isLast && PassesCpu(c.seen, cfg)
         && (c.seen.isDown || c.seen.network + c.charge > cfg.networkLimit)
       case Completed => PassesCpu(c.seen, cfg) && (c.task.isLast ==> !c.seen.isDown)
  }

  /** The level postpones a task. */
  ghost predicate Saturated(s: Levels, cfg: ResourceConfig) {
    Sound(s, cfg) && !RejectedAt(s, cfg) && CpuDelay(s, cfg) > 0.0
  }

  /** One round with a task: it ended as its levels call for, or its wakeup went
      from w0 to w1 by the delay they impose. */
  ghost predicate Explained(t: Task, ended: seq<Closing>, seen: Levels, w0: real, w1: real, cfg: ResourceConfig) {
    if ended == [] then
      Saturated(seen, cfg) && w1 == w0 + CpuDelay(seen, cfg)
    else
      |ended| == 1 && ended[0].task == t && ended[0].seen == seen && Caused(ended[0], cfg) && w1 == w0
  }

  /** In the levels' own terms: a task that an up node looked at was rejected
      exactly when the cpu level had reached a positive reject limit, and put back
      exactly when it had not and was over a limit that a positive factor punishes. */
  lemma FateByCpu(t: Task, ended: seq<Closing>, seen: Levels, w0: real, w1: real, cfg: ResourceConfig)
    requires Explained(t, ended, seen, w0, w1, cfg) && (ended != [] ==> !ended[0].fate.Parked?)
    ensures ended != [] && ended[0].fate.Rejected? <==> 0.0 < cfg.cpuRejectLimit <= seen.cpu
    ensures ended == []
       <==> !(0.0 < cfg.cpuRejectLimit <= seen.cpu) && seen.cpu > cfg.cpuLimit && cfg.cpuDelayFactor > 0.0
    ensures ended == [] ==> w1 - w0 == (seen.cpu - cfg.cpuLimit) * cfg.cpuDelayFactor
  {
    SaturationSign(seen.cpu, cfg.cpuLimit, cfg.cpuDelayFactor);
    SaturationLinear(cfg.cpuLimit, Max(cfg.cpuLimit, seen.cpu), cfg.cpuLimit, cfg.cpuDelayFactor);
  }

  lemma PassesBelow(a: Levels, b: Levels, cfg: ResourceConfig)
    requires PassesCpu(a, cfg) && b.cpu <= a.cpu
    ensures PassesCpu(b, cfg)
  {
    SaturationSign(a.cpu, cfg.cpuLimit, cfg.cpuDelayFactor);
    SaturationSign(b.cpu, cfg.cpuLimit, cfg.cpuDelayFactor);
  }

  // ----- Traces: the levels a resource record has had -----

  /** The record was at s at some moment since its trace was `before`. */
  ghost predicate Met(before: seq<Levels>, after: seq<Levels>, s: Levels) {
    exists k :: |before| - 1 <= k < |after| && k >= 0 && after[k] == s
  }

  lemma MetNow(before: seq<Levels>, after: seq<Levels>)
    requires before <= after && after != []
    ensures Met(before, after, after[|after| - 1])
  {}

  lemma MetKept(before: seq<Levels>, from: seq<Levels>, mid: seq<Levels>, after: seq<Levels>, s: Levels)
    requires before <= from && Met(from, mid, s) && mid <= after
    ensures Met(before, after, s)
  {
    var k :| |from| - 1 <= k < |mid| && k >= 0 && mid[k] == s;
    assert after[k] == s;
  }

  /** All of them closed for a cause met since the trace was `before`. */
  ghost predicate AllCaused(cs: seq<Closing>, before: seq<Levels>, after: seq<Levels>, cfg: ResourceConfig) {
    forall k :: 0 <= k < |cs| ==> Caused(cs[k], cfg) && Met(before, after, cs[k].seen)
  }

  lemma AllCausedNext(cs: seq<Closing>, ended: seq<Closing>, before: seq<Levels>, mid: seq<Levels>,
                      after: seq<Levels>, cfg: ResourceConfig)
    requires before <= mid <= after && AllCaused(cs, before, mid, cfg) && AllCaused(ended, mid, after, cfg)
    ensures AllCaused(cs + ended, before, after, cfg)
  {
    forall k | 0 <= k < |cs + ended|
      ensures Caused((cs + ended)[k], cfg) && Met(before, after, (cs + ended)[k].seen)
    {
      if k < |cs| {
        MetKept(before, before, mid, after, cs[k].seen);
      } else {
        MetKept(before, mid, after, after, ended[k - |cs|].seen);
      }
    }
  }

  function TotalDelay(ss: seq<Levels>, cfg: ResourceConfig): real {
    if ss == [] then 0.0 else TotalDelay(ss[..|ss| - 1], cfg) + CpuDelay(ss[|ss| - 1], cfg)
  }

  /** The wakeup went from w0 to w1 by exactly the delays that n saturated levels,
      met since the trace was `before`, imposed; not at all if n is 0. */
  ghost predicate Imposed(w0: real, w1: real, before: seq<Levels>, after: seq<Levels>, cfg: ResourceConfig,
                          n: nat)
  {
    exists ss: seq<Levels> ::
      && |ss| == n && w1 == w0 + TotalDelay(ss, cfg)
      && forall k :: 0 <= k < |ss| ==> Saturated(ss[k], cfg) && Met(before, after, ss[k])
  }

  lemma ImposedNone(w: real, before: seq<Levels>, after: seq<Levels>, cfg: ResourceConfig)
    ensures Imposed(w, w, before, after, cfg, 0)
  {
    assert TotalDelay([], cfg) == 0.0;
  }

  lemma ImposedLater(w0: real, w1: real, before: seq<Levels>, mid: seq<Levels>, after: seq<Levels>, cfg: ResourceConfig,
                     n: nat)
    requires Imposed(w0, w1, before, mid, cfg, n) && mid <= after
    ensures Imposed(w0, w1, before, after, cfg, n)
  {
    var ss :| |ss| == n && w1 == w0 + TotalDelay(ss, cfg)
              && forall k :: 0 <= k < |ss| ==> Saturated(ss[k], cfg) && Met(before, mid, ss[k]);
    forall k | 0 <= k < |ss| ensures Met(before, after, ss[k]) { MetKept(before, before, mid, after, ss[k]); }
  }

  lemma ImposedOnce(w0: real, w1: real, before: seq<Levels>, mid: seq<Levels>, after: seq<Levels>, cfg: ResourceConfig,
                    s: Levels, n: nat)
    requires Imposed(w0, w1, before, mid, cfg, n) && before <= mid <= after
    requires Saturated(s, cfg) && Met(mid, after, s)
    ensures Imposed(w0, w1 + CpuDelay(s, cfg), before, after, cfg, n + 1)
  {
    hide Saturated, Met, CpuDelay;
    var ss :| |ss| == n && w1 == w0 + TotalDelay(ss, cfg)
              && forall k :: 0 <= k < |ss| ==> Saturated(ss[k], cfg) && Met(before, mid, ss[k]);
    var more := ss + [s];
    assert more[..|more| - 1] == ss;
    forall k | 0 <= k < |more| ensures Saturated(more[k], cfg) && Met(before, after, more[k]) {
      if k < |ss| {
        MetKept(before, before, mid, after, ss[k]);
      } else {
        MetKept(before, mid, after, after, s);
      }
    }
  }

  /** Every queued wakeup moved by imposed delays alone, one for each look that
      put its task back. */
  ghost predicate AllImposed(d: map<Task, real>, m: map<Task, real>, before: seq<Levels>, after: seq<Levels>,
                             cfg: ResourceConfig, looks: seq<Look>)
  {
    forall x :: x in m ==> x in d && Imposed(d[x], m[x], before, after, cfg, Delays(looks, x))
  }

  // ----- What the closings send and run -----

  function RepliesFor(cs: seq<Closing>): seq<Reply> {
    if cs == [] then []
    else
      var c := cs[|cs| - 1];
      RepliesFor(cs[..|cs| - 1]) + ReplyOf(c)
  }

  function ReplyOf(c: Closing): seq<Reply> {
    if c.fate.Rejected? then [ErrorReply(c.task.call)]
    else if c.fate.Completed? && c.task.isLast then [OkReply(c.task)]
    else []
  }

  function OkReply(t: Task): Reply {
    Reply(t.call.reqID, STATUS_OK, t.call)
  }

  /** The closures run: by the tasks that got past the cpu tests. */
  function ClosuresFor(cs: seq<Closing>): seq<Task> {
    if cs == [] then []
    else
      var c := cs[|cs| - 1];
      ClosuresFor(cs[..|cs| - 1]) + (if c.fate.Completed? || c.fate.ReplyDropped? then [c.task] else [])
  }

  // ----- Snapshots of what the task loop depends on -----

  datatype Snapshot = Snapshot(phase: Phase, levels: Levels, wakeups: map<Task, real>, wipes: nat, trace: seq<Levels>)

  /** No refresh of the tick at time now can start a wipe of the tasks. */
  ghost predicate Safe(s: Snapshot, now: int) {
    (s.phase.Waiting? || s.phase.Done?) && (s.levels.isDown ==> s.levels.downUntil > now as real)
  }

  /** No refresh still to come in the tick at time now can revive the node: the
      tick's refresh is over, or no outage can end in this tick, or the node is
      up and its memory limit rules an outage out. */
  ghost predicate Fixed(s: Snapshot, cfg: ResourceConfig, now: int) {
    || !s.phase.Waiting?
    || (cfg.memoryRecoveryMs > 0.0 && Safe(s, now))
    || (cfg.memoryLimit >= 1.0 && !s.levels.isDown)
  }

  /** A stretch in which the runner itself queues no task and uses no cpu.
      Unless nextMillisecond moved on, the cpu level stands still, a node that
      is down stays down, and the queue is untouched. */
  ghost predicate Drift(a: Snapshot, b: Snapshot, cfg: ResourceConfig, now: int) {
    Rise(a, b, cfg, now) && b.levels.cpu <= a.levels.cpu && (b.phase == a.phase ==> b.levels.cpu == a.levels.cpu)
  }

  /** The same, but for cpu use. */
  ghost predicate Rise(a: Snapshot, b: Snapshot, cfg: ResourceConfig, now: int) {
    && Rank(b.phase) <= Rank(a.phase)
    && a.wipes <= b.wipes
    && (b.phase == a.phase ==>
          b.wipes == a.wipes && a.levels.cpu <= b.levels.cpu && (a.levels.isDown ==> b.levels.isDown))
    && b.wakeups == (if b.wipes == a.wipes then a.wakeups else map[])
    && (cfg.memoryRecoveryMs > 0.0 && Safe(a, now) ==>
          Safe(b, now) && b.wipes == a.wipes && (a.levels.isDown ==> b.levels.isDown))
    && (!a.phase.Waiting? ==> (a.levels.isDown ==> b.levels.isDown))
    && (cfg.memoryLimit >= 1.0 && !a.levels.isDown ==> !b.levels.isDown)
    && a.trace <= b.trace
  }

  /** From a to b the node was charged this bill and nothing else, but for the
      network and, if its time came in between, the tick's refresh. */
  ghost predicate Charged(a: Snapshot, b: Snapshot, bill: seq<Demand>, cfg: ResourceConfig, now: int) {
    && (b.phase.Waiting? ==> a.phase.Waiting?) && NoNetwork(bill)
    && Paid(a.levels, b.levels, a.phase.Waiting? && !b.phase.Waiting?, bill, cfg, now as real)
  }

  lemma ChargedThen(a: Snapshot, b: Snapshot, c: Snapshot, b1: seq<Demand>, b2: seq<Demand>, cfg: ResourceConfig,
                    now: int)
    requires Charged(a, b, b1, cfg, now) && Charged(b, c, b2, cfg, now)
    ensures Charged(a, c, b1 + b2, cfg, now)
    ensures b2 == [] ==> Charged(a, c, b1, cfg, now)
    ensures b1 == [] ==> Charged(a, c, b2, cfg, now)
  {
    PaidConcat(a.levels, b.levels, c.levels, a.phase.Waiting? && !b.phase.Waiting?,
               b.phase.Waiting? && !c.phase.Waiting?, b1, b2, cfg, now as real);
    assert b1 + [] == b1 && [] + b2 == b2;
  }

  lemma ChargedBoth(a: Snapshot, b: Snapshot, c: Snapshot, cost: Costs, cfg: ResourceConfig, now: int)
    requires Charged(a, b, [Demand(Cpu, cost.cpu)], cfg, now) && Charged(b, c, [Demand(Memory, cost.queued)], cfg, now)
    ensures Charged(a, c, BillFor([], cost), cfg, now)
  {
    ChargedThen(a, b, c, [Demand(Cpu, cost.cpu)], [Demand(Memory, cost.queued)], cfg, now);
    assert [Demand(Cpu, cost.cpu)] + [Demand(Memory, cost.queued)] == BillFor([], cost);
  }

  lemma ChargedOne(a: Snapshot, kind: ResourceType, amount: Cost, cfg: ResourceConfig, now: int)
    requires Sound(a.levels, cfg)
    ensures var l := Charge(a.levels, cfg, kind, amount, now as real).0;
            forall b: Snapshot :: b.phase == a.phase && b.levels == l ==>
              Charged(a, b, if kind.Network? then [] else [Demand(kind, amount)], cfg, now)
  {
    PaidOne(a.levels, cfg, kind, amount, now as real);
  }

  lemma ChargedNone(a: Snapshot, b: Snapshot, cfg: ResourceConfig, now: int)
    requires b.levels == a.levels && (b.phase.Waiting? <==> a.phase.Waiting?)
    ensures Charged(a, b, [], cfg, now)
  {}

  lemma ChargedRefresh(a: Snapshot, b: Snapshot, cfg: ResourceConfig, now: int)
    requires a.phase.Waiting? && !b.phase.Waiting? && b.levels == Refresh(a.levels, cfg, now as real)
    ensures Charged(a, b, [], cfg, now)
  {
    PaidRefresh(a.levels, cfg, now as real);
  }

  lemma DriftTrans(a: Snapshot, b: Snapshot, c: Snapshot, cfg: ResourceConfig, now: int)
    requires Rise(a, b, cfg, now) && Rise(b, c, cfg, now)
    ensures Rise(a, c, cfg, now)
    ensures Drift(a, b, cfg, now) && Drift(b, c, cfg, now) ==> Drift(a, c, cfg, now)
  {}

  lemma DriftBoth(a: Snapshot, b: Snapshot, c: Snapshot, cfg: ResourceConfig, now: int)
    requires Drift(a, b, cfg, now) && Drift(b, c, cfg, now)
    ensures Drift(a, c, cfg, now)
  {
    DriftTrans(a, b, c, cfg, now);
  }

  lemma ChargeDrifts(a: Snapshot, cfg: ResourceConfig, kind: ResourceType, amount: Cost, now: int)
    requires Sound(a.levels, cfg)
    ensures var l := Charge(a.levels, cfg, kind, amount, now as real).0;
            var b := a.(levels := l, trace := a.trace + [l]);
            Rise(a, b, cfg, now) && (!kind.Cpu? ==> Drift(a, b, cfg, now))
  {}

  lemma RefreshDrifts(a: Snapshot, cfg: ResourceConfig, now: int)
    requires a.phase.Waiting? && Sound(a.levels, cfg)
    ensures var l := Refresh(a.levels, cfg, now as real);
            var p := if a.levels.isDown && !l.isDown then WipingTasks else Done;
            Drift(a, a.(levels := l, phase := p, trace := a.trace + [l]), cfg, now)
  {}

  /** What handling one popped task does, when its wakeup went from w0 to w1. */
  ghost predicate Handled(a: Snapshot, b: Snapshot, cfg: ResourceConfig, t: Task, w0: real, w1: real,
                          postponed: bool, now: int)
  {
    && Rank(b.phase) <= Rank(a.phase)
    && a.wipes <= b.wipes
    && (b.phase == a.phase ==>
          && b.wipes == a.wipes && a.levels.cpu <= b.levels.cpu && (a.levels.isDown ==> b.levels.isDown)
          && (postponed ==> w1 == w0 + CpuDelay(b.levels, cfg)))
    && (b.wipes == a.wipes ==> b.wakeups == if postponed then a.wakeups[t := w1] else a.wakeups)
    && (b.wipes > a.wipes ==> b.wakeups == map[] || (postponed && b.wakeups == map[t := w1]))
    && (if postponed then w1 > w0 else w1 == w0)
    && (cfg.memoryRecoveryMs > 0.0 && Safe(a, now) ==> Safe(b, now) && b.wipes == a.wipes)
    && a.trace <= b.trace
  }

  lemma RiseHandled(a: Snapshot, b: Snapshot, cfg: ResourceConfig, t: Task, w: real, now: int)
    requires Rise(a, b, cfg, now)
    ensures Handled(a, b, cfg, t, w, w, false, now)
  {}

  lemma DriftHandled(a: Snapshot, b: Snapshot, c: Snapshot, cfg: ResourceConfig, t: Task, w0: real, w1: real,
                     postponed: bool, now: int)
    requires Handled(a, b, cfg, t, w0, w1, postponed, now) && Drift(b, c, cfg, now)
    ensures Handled(a, c, cfg, t, w0, w1, postponed, now)
  {}

  lemma SameCpuSameDelay(a: Levels, b: Levels, cfg: ResourceConfig)
    requires a.cpu == b.cpu
    ensures CpuDelay(a, cfg) == CpuDelay(b, cfg)
  {}

  lemma AddHandled(a: Snapshot, b: Snapshot, c: Snapshot, cfg: ResourceConfig, t: Task, w0: real, delay: real, now: int)
    requires Rise(a, b, cfg, now) && Drift(b, c, cfg, now)
    requires delay > 0.0 && delay == CpuDelay(b.levels, cfg)
    ensures Handled(a, c.(wakeups := c.wakeups[t := w0 + delay]), cfg, t, w0, w0 + delay, true, now)
  {
    if c.phase == a.phase {
      assert b.phase == a.phase && c.levels.cpu == b.levels.cpu;
      SameCpuSameDelay(b.levels, c.levels, cfg);
    }
  }

  lemma HandledAfterDrift(a: Snapshot, b: Snapshot, c: Snapshot, cfg: ResourceConfig, t: Task, w0: real, w1: real,
                          postponed: bool, now: int)
    requires Drift(a, b, cfg, now) && Handled(b, c, cfg, t, w0, w1, postponed, now)
    ensures Handled(a, c, cfg, t, w0, w1, postponed, now)
  {}

  /** The cpu level stood still, unless nextMillisecond moved on. */
  ghost predicate Flat(a: Snapshot, b: Snapshot) {
    && Rank(b.phase) <= Rank(a.phase) && a.trace <= b.trace
    && (b.phase == a.phase ==> b.levels.cpu == a.levels.cpu)
  }

  lemma DriftFlat(a: Snapshot, b: Snapshot, cfg: ResourceConfig, now: int)
    requires Drift(a, b, cfg, now)
    ensures Flat(a, b) && b.levels.cpu <= a.levels.cpu
  {}

  lemma DriftDown(a: Snapshot, b: Snapshot, cfg: ResourceConfig, now: int)
    requires Drift(a, b, cfg, now) && (b.phase == a.phase || Fixed(a, cfg, now)) && a.levels.isDown
    ensures b.levels.isDown
  {}

  lemma RiseRank(a: Snapshot, b: Snapshot, cfg: ResourceConfig, now: int)
    requires Rise(a, b, cfg, now)
    ensures Rank(b.phase) <= Rank(a.phase) && a.trace <= b.trace
  {}

  lemma HandledRank(a: Snapshot, b: Snapshot, cfg: ResourceConfig, t: Task, w0: real, w1: real,
                    postponed: bool, now: int)
    requires Handled(a, b, cfg, t, w0, w1, postponed, now)
    ensures Rank(b.phase) <= Rank(a.phase) && a.trace <= b.trace
  {}

  lemma FreshPasses()
    ensures PassesCpu(FRESH, NO_LIMITS) && Sound(FRESH, NO_LIMITS)
  {}

  lemma RiseRefl(a: Snapshot, cfg: ResourceConfig, now: int)
    ensures Rise(a, a, cfg, now)
  {}

  // ----- Why the loop ends -----

  /** Rounds a task can still take part in: one, plus, once delays are known to
      be at least delta, the delays needed to move it past the tick. */
  ghost function Rounds(w: real, now: int, delta: real): nat {
    if w >= (now + 1) as real then 0
    else if delta <= 0.0 then 1
    else 1 + CeilQuotient((now + 1) as real - w, delta)
  }

  ghost function CeilQuotient(x: real, d: real): (n: nat)
    requires x > 0.0 && d > 0.0
    ensures n as real * d >= x
  {
    var n := Ceil(x / d);
    Quotient(x, d, n as real);
    n
  }

  lemma Quotient(x: real, d: real, n: real)
    requires x > 0.0 && d > 0.0
    ensures n >= x / d <==> n * d >= x
    ensures x / d > 0.0
  {
    var q := x / d;
    assert q * d == x;
    if n >= q { Scale(q, n, d); } else { Scale(n, q, d); assert (q - n) * d > 0.0; }
  }

  lemma RoundsShrink(w: real, w1: real, now: int, delta: real)
    requires delta > 0.0 && w < (now + 1) as real && w1 >= w + delta
    ensures Rounds(w1, now, delta) < Rounds(w, now, delta)
  {
    var x, x1 := (now + 1) as real - w, (now + 1) as real - w1;
    if x1 > 0.0 {
      var n := CeilQuotient(x, delta);
      Quotient(x, delta, n as real);
      assert (n - 1) as real * delta == n as real * delta - delta;
      Quotient(x1, delta, (n - 1) as real);
      assert Ceil(x1 / delta) <= n - 1;
    }
  }

  ghost function Work(m: map<Task, real>, now: int, delta: real): nat
    decreases |m|
  {
    if m == map[] then 0
    else
      var t :| t in m;
      Rounds(m[t], now, delta) + Work(m - {t}, now, delta)
  }

  lemma {:induction false} WorkSplit(m: map<Task, real>, t: Task, now: int, delta: real)
    requires t in m
    ensures Work(m, now, delta) == Rounds(m[t], now, delta) + Work(m - {t}, now, delta)
    decreases |m|
  {
    var x :| x in m && Work(m, now, delta) == Rounds(m[x], now, delta) + Work(m - {x}, now, delta);
    if x != t {
      WorkSplit(m - {x}, t, now, delta);
      WorkSplit(m - {t}, x, now, delta);
      assert m - {x} - {t} == m - {t} - {x};
    }
  }

  /** One round shrinks the remaining work: a due task left for good, or it was
      delayed by at least the known least delay. */
  lemma WorkShrinks(m: map<Task, real>, t: Task, w1: real, postponed: bool, now: int, delta: real)
    requires t in m && m[t] < (now + 1) as real
    requires postponed ==> delta > 0.0 && w1 >= m[t] + delta
    ensures Work(if postponed then (m - {t})[t := w1] else m - {t}, now, delta) < Work(m, now, delta)
  {
    WorkSplit(m, t, now, delta);
    if postponed {
      var m' := (m - {t})[t := w1];
      WorkSplit(m', t, now, delta);
      assert m' - {t} == m - {t};
      RoundsShrink(m[t], w1, now, delta);
    }
  }

  lemma DelayMonotone(a: Levels, b: Levels, cfg: ResourceConfig)
    requires a.cpu <= b.cpu && CpuDelay(a, cfg) > 0.0
    ensures CpuDelay(b, cfg) >= CpuDelay(a, cfg)
  {
    SaturationSign(a.cpu, cfg.cpuLimit, cfg.cpuDelayFactor);
    SaturationGrows(a.cpu, b.cpu, cfg.cpuLimit, cfg.cpuDelayFactor);
  }

  lemma DueTest(now: int)
    ensures (forall w: real :: Trunc(w) <= now <==> w < (now + 1) as real) <==> now >= 0
  {
    var w := now as real + 0.5;
    assert now < 0 ==> (-w).Floor == -now - 1 && Trunc(w) == now + 1 && w < (now + 1) as real;
  }

  lemma NoneDue(m: map<Task, real>, now: int)
    requires now >= 0 && forall x :: x in m ==> Trunc(m[x]) > now
    ensures forall x :: x in m ==> m[x] >= (now + 1) as real
  {}

  // ----- What the loop achieves -----

  /** From the queue d at entry to the queue m now, with the tasks closed so far:
      nothing appears, nothing not due is touched, no wakeup moves back, each
      task closes at most once, only due tasks close, and unless the cleanup
      wiped the queue every task is still queued or has closed. */
  ghost predicate Settled(d: map<Task, real>, m: map<Task, real>, cs: seq<Closing>, wiped: bool, now: int) {
    && (forall x :: x in m ==> x in d && d[x] <= m[x] && (d[x] >= (now + 1) as real ==> m[x] == d[x]))
    && (forall k :: 0 <= k < |cs| ==> cs[k].task in d && d[cs[k].task] < (now + 1) as real && cs[k].task !in m)
    && (forall i, j :: 0 <= i < j < |cs| ==> cs[i].task != cs[j].task)
    && (!wiped ==> forall x :: x in d ==> x in m || exists k :: 0 <= k < |cs| && cs[k].task == x)
  }

  lemma SettleRefl(d: map<Task, real>, now: int)
    ensures Settled(d, d, [], false, now)
  {}

  lemma SettleWipe(d: map<Task, real>, m: map<Task, real>, cs: seq<Closing>, wiped: bool, now: int)
    requires Settled(d, m, cs, wiped, now)
    ensures Settled(d, map[], cs, true, now)
  {}

  lemma SettleRound(d: map<Task, real>, m: map<Task, real>, cs: seq<Closing>, wiped: bool, now: int,
                    t: Task, w1: real, ended: seq<Closing>, m': map<Task, real>, wiped': bool)
    requires Settled(d, m, cs, wiped, now) && t in m && m[t] < (now + 1) as real && (wiped ==> wiped')
    requires if ended == [] then w1 > m[t] else |ended| == 1 && ended[0].task == t
    requires (wiped == wiped' && m' == if ended == [] then (m - {t})[t := w1] else m - {t})
          || (wiped' && (m' == map[] || (ended == [] && m' == map[t := w1])))
    ensures Settled(d, m', cs + ended, wiped', now)
  {
    var cs' := cs + ended;
    if !wiped' {
      forall x | x in d && x !in m' ensures exists k :: 0 <= k < |cs'| && cs'[k].task == x {
        if x in m {
          assert cs'[|cs|].task == x;
        } else {
          var k :| 0 <= k < |cs| && cs[k].task == x;
          assert cs'[k].task == x;
        }
      }
    }
  }

  /** The looks were in order, and no queued task is due before the last of them. */
  ghost predicate Ahead(looks: seq<Look>, m: map<Task, real>) {
    && InOrder(looks)
    && (looks != [] ==> forall x :: x in m ==> Trunc(looks[|looks| - 1].at) <= Trunc(m[x]))
  }

  lemma AheadNext(looks: seq<Look>, m: map<Task, real>, l: Look, m': map<Task, real>)
    requires Ahead(looks, m) && l.task in m && l.at == m[l.task]
    requires forall x :: x in m ==> Trunc(l.at) <= Trunc(m[x])
    requires forall x :: x in m' ==> x in m && m[x] <= m'[x]
    ensures Ahead(looks + [l], m')
  {
    forall x | x in m' ensures Trunc(l.at) <= Trunc(m'[x]) { TruncMono(m[x], m'[x]); }
  }

  lemma TruncMono(x: real, y: real)
    requires x <= y
    ensures Trunc(x) <= Trunc(y)
  {}

  lemma LooksNext(looks: seq<Look>, l: Look)
    ensures EndedIn(looks + [l]) == EndedIn(looks) + l.ended
    ensures Bill(looks + [l]) == Bill(looks) + BillFor(l.ended, l.cost)
    ensures forall t :: Delays(looks + [l], t) == Delays(looks, t) + (if l.task == t && l.ended == [] then 1 else 0)
  {
    assert (looks + [l])[..|looks|] == looks;
  }

  lemma LooksNone()
    ensures EndedIn([]) == [] && Bill([]) == []
  {}

  /** From the snapshot e at entry to the snapshot s now: the queue's account,
      with the cause of every closing and of every postponement. */
  ghost predicate Progress(e: Snapshot, s: Snapshot, looks: seq<Look>, cfg: ResourceConfig, now: int) {
    && Settled(e.wakeups, s.wakeups, EndedIn(looks), s.wipes > e.wipes, now)
    && AllCaused(EndedIn(looks), e.trace, s.trace, cfg)
    && AllImposed(e.wakeups, s.wakeups, e.trace, s.trace, cfg, looks)
    && Ahead(looks, s.wakeups)
    && e.trace <= s.trace && e.wipes <= s.wipes
    && (cfg.memoryRecoveryMs > 0.0 && Safe(e, now) ==> Safe(s, now) && s.wipes == e.wipes)
  }

  lemma ProgressStart(e: Snapshot, cfg: ResourceConfig, now: int)
    ensures Progress(e, e, [], cfg, now)
  {
    SettleRefl(e.wakeups, now);
    forall x | x in e.wakeups ensures Imposed(e.wakeups[x], e.wakeups[x], e.trace, e.trace, cfg, 0) {
      ImposedNone(e.wakeups[x], e.trace, e.trace, cfg);
    }
  }

  lemma ProgressKeys(e: Snapshot, s: Snapshot, looks: seq<Look>, cfg: ResourceConfig, now: int)
    requires Progress(e, s, looks, cfg, now)
    ensures s.wakeups.Keys <= e.wakeups.Keys
  {}

  lemma ProgressDrift(e: Snapshot, a: Snapshot, b: Snapshot, looks: seq<Look>, cfg: ResourceConfig, now: int)
    requires Progress(e, a, looks, cfg, now) && Drift(a, b, cfg, now)
    ensures Progress(e, b, looks, cfg, now)
  {
    hide Settled, Caused, Met, Imposed, Safe, EndedIn, Delays, InOrder;
    var cs := EndedIn(looks);
    DriftBasics(a, b, cfg, now);
    assert Settled(e.wakeups, b.wakeups, cs, b.wipes > e.wipes, now) by {
      if b.wipes > a.wipes { SettleWipe(e.wakeups, a.wakeups, cs, a.wipes > e.wipes, now); }
    }
    forall k | 0 <= k < |cs| ensures Met(e.trace, b.trace, cs[k].seen) {
      MetKept(e.trace, e.trace, a.trace, b.trace, cs[k].seen);
    }
    forall x | x in b.wakeups ensures Imposed(e.wakeups[x], b.wakeups[x], e.trace, b.trace, cfg, Delays(looks, x)) {
      ImposedLater(e.wakeups[x], a.wakeups[x], e.trace, a.trace, b.trace, cfg, Delays(looks, x));
    }
  }

  lemma ImposedHandled(e: Snapshot, b: Snapshot, c: Snapshot, cfg: ResourceConfig, looks: seq<Look>, l: Look,
                       w1: real, seen: Levels, now: int)
    requires AllImposed(e.wakeups, b.wakeups, e.trace, b.trace, cfg, looks) && e.trace <= b.trace
    requires l.task in b.wakeups && l.at == b.wakeups[l.task]
    requires Handled(b.(wakeups := b.wakeups - {l.task}), c, cfg, l.task, l.at, w1, l.ended == [], now)
    requires Explained(l.task, l.ended, seen, l.at, w1, cfg) && Met(b.trace, c.trace, seen)
    ensures AllImposed(e.wakeups, c.wakeups, e.trace, c.trace, cfg, looks + [l])
  {
    hide Imposed, Met, Saturated, Caused, Safe, Delays;
    LooksNext(looks, l);
    forall x | x in c.wakeups
      ensures x in e.wakeups
      ensures Imposed(e.wakeups[x], c.wakeups[x], e.trace, c.trace, cfg, Delays(looks + [l], x))
    {
      if x == l.task && l.ended == [] {
        ImposedOnce(e.wakeups[x], l.at, e.trace, b.trace, c.trace, cfg, seen, Delays(looks, x));
      } else {
        ImposedLater(e.wakeups[x], b.wakeups[x], e.trace, b.trace, c.trace, cfg, Delays(looks, x));
      }
    }
  }

  lemma SettleHandled(e: Snapshot, b: Snapshot, c: Snapshot, cs: seq<Closing>, cfg: ResourceConfig,
                      t: Task, w1: real, ended: seq<Closing>, seen: Levels, now: int)
    requires Settled(e.wakeups, b.wakeups, cs, b.wipes > e.wipes, now) && e.wipes <= b.wipes
    requires t in b.wakeups && b.wakeups[t] < (now + 1) as real
    requires Handled(b.(wakeups := b.wakeups - {t}), c, cfg, t, b.wakeups[t], w1, ended == [], now)
    requires Explained(t, ended, seen, b.wakeups[t], w1, cfg)
    ensures Settled(e.wakeups, c.wakeups, cs + ended, c.wipes > e.wipes, now)
  {
    hide Settled;
    SettleRound(e.wakeups, b.wakeups, cs, b.wipes > e.wipes, now, t, w1, ended, c.wakeups, c.wipes > e.wipes);
  }

  lemma AllCausedOne(t: Task, ended: seq<Closing>, seen: Levels, w0: real, w1: real, before: seq<Levels>,
                     after: seq<Levels>, cfg: ResourceConfig)
    requires Explained(t, ended, seen, w0, w1, cfg) && Met(before, after, seen)
    ensures AllCaused(ended, before, after, cfg)
  {}

  lemma HandledLater(b: Snapshot, c: Snapshot, cfg: ResourceConfig, t: Task, w1: real, postponed: bool, now: int)
    requires t in b.wakeups
    requires Handled(b.(wakeups := b.wakeups - {t}), c, cfg, t, b.wakeups[t], w1, postponed, now)
    ensures forall x :: x in c.wakeups ==> x in b.wakeups && b.wakeups[x] <= c.wakeups[x]
  {}

  lemma ProgressHandled(e: Snapshot, b: Snapshot, c: Snapshot, looks: seq<Look>, cfg: ResourceConfig, l: Look,
                        w1: real, seen: Levels, now: int)
    requires Progress(e, b, looks, cfg, now)
    requires l.task in b.wakeups && l.at == b.wakeups[l.task] < (now + 1) as real
    requires forall x :: x in b.wakeups ==> Trunc(l.at) <= Trunc(b.wakeups[x])
    requires Handled(b.(wakeups := b.wakeups - {l.task}), c, cfg, l.task, l.at, w1, l.ended == [], now)
    requires Explained(l.task, l.ended, seen, l.at, w1, cfg) && Met(b.trace, c.trace, seen)
    ensures Progress(e, c, looks + [l], cfg, now)
  {
    hide Settled, AllCaused, AllImposed, Explained, Met, Safe, Handled, Ahead, EndedIn, Trunc;
    ImposedHandled(e, b, c, cfg, looks, l, w1, seen, now);
    LooksNext(looks, l);
    SettleHandled(e, b, c, EndedIn(looks), cfg, l.task, w1, l.ended, seen, now);
    AllCausedOne(l.task, l.ended, seen, l.at, w1, b.trace, c.trace, cfg);
    HandledBasics(b, c, cfg, l.task, l.at, w1, l.ended == [], now);
    HandledLater(b, c, cfg, l.task, w1, l.ended == [], now);
    AllCausedNext(EndedIn(looks), l.ended, e.trace, b.trace, c.trace, cfg);
    AheadNext(looks, b.wakeups, l, c.wakeups);
  }

  lemma DriftBasics(a: Snapshot, b: Snapshot, cfg: ResourceConfig, now: int)
    requires Drift(a, b, cfg, now)
    ensures a.wipes <= b.wipes && a.trace <= b.trace
    ensures cfg.memoryRecoveryMs > 0.0 && Safe(a, now) ==> Safe(b, now) && b.wipes == a.wipes
    ensures b.wakeups == a.wakeups || b.wakeups == map[]
  {}

  lemma HandledBasics(b: Snapshot, c: Snapshot, cfg: ResourceConfig, t: Task, w0: real, w1: real,
                      postponed: bool, now: int)
    requires Handled(b.(wakeups := b.wakeups - {t}), c, cfg, t, w0, w1, postponed, now)
    ensures b.wipes <= c.wipes && b.trace <= c.trace
    ensures cfg.memoryRecoveryMs > 0.0 && Safe(b, now) ==> Safe(c, now) && c.wipes == b.wipes
  {}

  lemma SettledKeys(d: map<Task, real>, m: map<Task, real>, cs: seq<Closing>, wiped: bool, now: int)
    requires Settled(d, m, cs, wiped, now)
    ensures m.Keys <= d.Keys
  {}

  lemma KnownNone(s: Snapshot, cfg: ResourceConfig)
    ensures Known(0.0, s, cfg)
  {}

  lemma RepliesLast(cs: seq<Closing>, c: Closing)
    ensures RepliesFor(cs + [c]) == RepliesFor(cs) + ReplyOf(c)
  {
    assert (cs + [c])[..|cs|] == cs;
  }

  lemma {:induction false} RepliesExtend(cs: seq<Closing>, ended: seq<Closing>)
    ensures RepliesFor(cs + ended) == RepliesFor(cs) + RepliesFor(ended)
    decreases |ended|
  {
    if ended == [] {
      assert cs + ended == cs;
    } else {
      var n := |ended| - 1;
      hide RepliesFor, ReplyOf;
      RepliesExtend(cs, ended[..n]);
      assert ended == ended[..n] + [ended[n]];
      Regroup(cs, ended[..n], [ended[n]]);
      RepliesLast(ended[..n], ended[n]);
      RepliesLast(cs + ended[..n], ended[n]);
      Regroup(RepliesFor(cs), RepliesFor(ended[..n]), ReplyOf(ended[n]));
    }
  }

  lemma {:induction false} ClosuresExtend(cs: seq<Closing>, ended: seq<Closing>)
    ensures ClosuresFor(cs + ended) == ClosuresFor(cs) + ClosuresFor(ended)
    decreases |ended|
  {
    if ended == [] {
      assert cs + ended == cs;
    } else {
      var n := |ended| - 1;
      ClosuresExtend(cs, ended[..n]);
      assert (cs + ended)[..|cs| + n] == cs + ended[..n];
    }
  }

  lemma LogsNone()
    ensures RepliesFor([]) == [] && ClosuresFor([]) == []
  {}

  lemma LogsExtend(cs: seq<Closing>, ended: seq<Closing>)
    ensures RepliesFor(cs + ended) == RepliesFor(cs) + RepliesFor(ended)
    ensures ClosuresFor(cs + ended) == ClosuresFor(cs) + ClosuresFor(ended)
  {
    RepliesExtend(cs, ended);
    ClosuresExtend(cs, ended);
  }

  /** The loop's measure went down: nextMillisecond moved on, or a first delay
      was imposed, or, with the least delay as known, less work remains. */
  ghost predicate Closer(a: Snapshot, least: real, c: Snapshot, least': real, now: int) {
    || Rank(c.phase) < Rank(a.phase)
    || (c.phase == a.phase && least <= 0.0 < least')
    || (c.phase == a.phase && least == least' && Work(c.wakeups, now, least) < Work(a.wakeups, now, least))
  }

  /** A positive least delay is one the cpu level now imposes. */
  ghost predicate Known(least: real, s: Snapshot, cfg: ResourceConfig) {
    least > 0.0 ==> CpuDelay(s.levels, cfg) >= least
  }

  ghost function NextLeast(a: Snapshot, least: real, c: Snapshot, cfg: ResourceConfig, postponed: bool): real {
    if c.phase != a.phase then 0.0
    else if postponed && least <= 0.0 then CpuDelay(c.levels, cfg)
    else least
  }

  lemma RoundCloser(a: Snapshot, b: Snapshot, c: Snapshot, cfg: ResourceConfig, least: real,
                    t: Task, w1: real, postponed: bool, now: int)
    requires Drift(a, b, cfg, now) && Known(least, a, cfg)
    requires t in b.wakeups && b.wakeups[t] < (now + 1) as real
    requires Handled(b.(wakeups := b.wakeups - {t}), c, cfg, t, b.wakeups[t], w1, postponed, now)
    ensures var least' := NextLeast(a, least, c, cfg, postponed);
            Closer(a, least, c, least', now) && Known(least', c, cfg)
  {
    if c.phase == a.phase {
      assert b.phase == a.phase;
      if least > 0.0 { DelayMonotone(a.levels, c.levels, cfg); }
      if least > 0.0 || !postponed {
        WorkShrinks(b.wakeups, t, w1, postponed, now, least);
      }
    }
  }

  const NO_LIMITS := ResourceConfig(1.0, 1.0, 1.0, 1.0, 0.0, 0.0, 0.0, 0.0, 0.0)

  class Node {
    const res: NodeResources?   // nil for load balancers and sources
    const tasks: TaskQueue
    const calls: CallQueue
    var phase: Phase
    var replies: seq<Reply>     // pushed to the callers' reply channels, in order
    var ran: seq<Task>          // closures run, in order
    ghost var closed: seq<Closing>
    ghost var wipes: nat

    constructor (res: NodeResources?)
      requires res != null ==> res.Valid()
      ensures Valid() && this.res == res && tasks.wakeups == map[] && phase == Done && wipes == 0
      ensures replies == [] && ran == [] && closed == []
    {
      hide TaskQueue.Valid, CallQueue.Valid;
      this.res := res;
      tasks := new TaskQueue();
      calls := new CallQueue();
      phase := Done;
      replies, ran := [], [];
      closed, wipes := [], 0;
    }

    ghost predicate Valid()
      reads this, res, tasks, tasks.heap, tasks.heap.Repr, tasks.wakeups.Keys, calls, calls.heap, calls.heap.Repr
    {
      tasks.Valid() && calls.Valid() && (if res == null then phase.Done? else res.Valid())
    }

    ghost function Cfg(): ResourceConfig {
      if res == null then NO_LIMITS else res.config
    }

    ghost function Levels(): (l: Levels)
      reads this, res
      ensures res == null || res.Valid() ==> Sound(l, Cfg())
    {
      if res == null then FRESH else res.State()
    }

    ghost function Trace(): (t: seq<Levels>)
      reads this, res
      ensures res == null || res.Valid() ==> t != [] && t[|t| - 1] == Levels()
    {
      if res == null then [FRESH] else res.trace
    }

    ghost function Snap(): Snapshot
      reads this, res, tasks
    {
      Snapshot(phase, Levels(), tasks.wakeups, wipes, Trace())
    }

    /** The heaps hold no items but those they held and new ones. */
    twostate predicate SameOrFresh()
      reads tasks.heap, calls.heap
    {
      && (forall i :: i in tasks.heap.Repr ==> i in old(tasks.heap.Repr) || fresh(i))
      && (forall i :: i in calls.heap.Repr ==> i in old(calls.heap.Repr) || fresh(i))
    }

    /** The queued calls stand, or the cleanup has wiped them. */
    twostate predicate CallsKept()
      reads this, calls
    {
      && Onward(old(phase), old(wipes), phase, wipes)
      && (calls.content == old(calls.content)
          || (calls.content == multiset{} && !NoCallWipe(old(phase), old(wipes), phase, wipes)))
    }

    /** Charge one resource at the locked section of consumeResources. */
    method Consume(kind: ResourceType, amount: Cost, now: int) returns (err: Option<ResourceError>)
      requires Valid() && res != null
      modifies res
      ensures Valid() && Rise(old(Snap()), Snap(), Cfg(), now)
      ensures !kind.Cpu? ==> Drift(old(Snap()), Snap(), Cfg(), now)
      ensures Levels() == Charge(old(Levels()), Cfg(), kind, amount, now as real).0
      ensures err == Charge(old(Levels()), Cfg(), kind, amount, now as real).1
      ensures Charged(old(Snap()), Snap(), if kind.Network? then [] else [Demand(kind, amount)], Cfg(), now)
      ensures kind.Network? ==> NetworkCharged(old(Levels()), Levels(), err, amount)
      ensures kind.Memory? ==> (Levels().isDown <==> err != None)
      ensures kind.Network? ==> res.pendingWork == old(res.pendingWork)
    {
      hide TaskQueue.Valid, CallQueue.Valid, Sound, Rise, Drift, Charged;
      ChargeDrifts(Snap(), res.config, kind, amount, now);
      ChargedOne(Snap(), kind, amount, res.config, now);
      NetworkRefused(Levels(), res.config, amount, now as real);
      err := res.ConsumeResources(kind, amount, now as real);
    }

    /** What a network charge does: it fails on a node that is down or would
        pass the limit, and else adds the amount. */
    ghost predicate NetworkCharged(before: Levels, after: Levels, err: Option<ResourceError>, amount: Cost) {
      && (err != None <==> before.isDown || before.network + amount > Cfg().networkLimit)
      && (if err != None then after == before else after.network == Min(1.0, before.network + amount) && !after.isDown)
      && (after.isDown <==> before.isDown)
    }

    /** One locked section of another goroutine: a call accepted from another
        node charges the network, or nextMillisecond takes its next step. */
    method InterfereOnce(now: int)
      requires Valid() && res != null
      modifies this`phase, this`wipes, res, tasks, calls, tasks.heap, calls.heap
      ensures Valid() && Drift(old(Snap()), Snap(), Cfg(), now) && Charged(old(Snap()), Snap(), [], Cfg(), now)
      ensures SameOrFresh() && (Levels().isDown ==> old(Levels().isDown)) && CallsKept()
      ensures res.pendingWork == old(res.pendingWork)
    {
      hide TaskQueue.Valid, CallQueue.Valid, Sound, Charged;
      var move: bool := *;
      if !move {
        var amount: Cost :| amount >= 0.0;
        var _ := Consume(Network, amount, now);
        return;
      }
      NextMillisecondStep(now);
    }

    /** The next locked section of nextMillisecond: the refresh, then, after a
        recovery, the cleanup of the tasks and of the calls. */
    method NextMillisecondStep(now: int)
      requires Valid() && res != null
      modifies this`phase, this`wipes, res, tasks, calls, tasks.heap, calls.heap
      ensures Valid() && Drift(old(Snap()), Snap(), Cfg(), now) && Charged(old(Snap()), Snap(), [], Cfg(), now)
      ensures SameOrFresh() && (Levels().isDown ==> old(Levels().isDown)) && CallsKept()
      ensures res.pendingWork == old(res.pendingWork)
      ensures old(phase).Waiting? ==>
                && Levels() == Refresh(old(Levels()), Cfg(), now as real)
                && phase == (if old(Levels().isDown) && !Levels().isDown then WipingTasks else Done)
      ensures old(phase).WipingTasks? ==> phase.WipingCalls? && tasks.wakeups == map[] && wipes == old(wipes) + 1
      ensures old(phase).WipingCalls? ==> phase.Done? && calls.content == multiset{}
      ensures old(phase).Done? ==> phase.Done?
      ensures !old(phase).Waiting? ==> Levels() == old(Levels())
      ensures !old(phase).WipingTasks? ==> tasks.wakeups == old(tasks.wakeups) && wipes == old(wipes)
      ensures !old(phase).WipingCalls? ==> calls.content == old(calls.content)
    {
      hide TaskQueue.Valid, CallQueue.Valid, Sound, Charged;
      ghost var a := Snap();
      match phase
      case Waiting =>
        RefreshDrifts(Snap(), res.config, now);
        var needsRecovery := res.UpdateResources(now as real);
        phase := if needsRecovery then WipingTasks else Done;
        ChargedRefresh(a, Snap(), Cfg(), now);
      case WipingTasks =>
        tasks.Wipe();
        wipes := wipes + 1;
        phase := WipingCalls;
        ChargedNone(a, Snap(), Cfg(), now);
      case WipingCalls =>
        calls.Wipe();
        phase := Done;
        ChargedNone(a, Snap(), Cfg(), now);
      case Done =>
        ChargedNone(a, Snap(), Cfg(), now);
    }

    /** Any number of those, between two locked sections of the runner. */
    method Interfere(now: int)
      requires Valid()
      modifies this`phase, this`wipes, res, tasks, calls, tasks.heap, calls.heap
      ensures Valid() && Drift(old(Snap()), Snap(), Cfg(), now) && Charged(old(Snap()), Snap(), [], Cfg(), now)
      ensures SameOrFresh() && (Levels().isDown ==> old(Levels().isDown)) && CallsKept()
      ensures forall t :: t in tasks.wakeups ==> t in old(tasks.wakeups)
      ensures res != null ==> res.pendingWork == old(res.pendingWork)
    {
      hide TaskQueue.Valid, CallQueue.Valid, Sound, Charged;
      ghost var a := Snap();
      ChargedNone(a, Snap(), Cfg(), now);
      if res == null { return; }
      var rounds: nat := *;
      while rounds > 0
        invariant Valid() && Drift(a, Snap(), Cfg(), now) && Charged(a, Snap(), [], Cfg(), now)
        invariant SameOrFresh() && (Levels().isDown ==> old(Levels().isDown)) && CallsKept()
        invariant res.pendingWork == old(res.pendingWork)
      {
        ghost var b := Snap();
        InterfereOnce(now);
        ChargedThen(a, b, Snap(), [], [], Cfg(), now);
        rounds := rounds - 1;
      }
    }

    method Close(t: Task, ghost fate: Fate, ghost seen: Levels, ghost charge: Cost)
      modifies this`closed
      ensures closed == old(closed) + [Closing(t, fate, seen, charge)]
    {
      closed := closed + [Closing(t, fate, seen, charge)];
    }

    /** The delay branch of handleTaskCPU, up to the requeue. */
    method Requeue(t: Task, delay: real, now: int, ghost a: Snapshot)
      requires Valid() && t !in tasks.wakeups && res != null
      requires Rise(a, Snap(), Cfg(), now) && t !in a.wakeups
      requires delay > 0.0 && delay == CpuDelay(Levels(), Cfg())
      modifies this`phase, this`wipes, res, tasks, calls, tasks.heap, calls.heap, tasks.heap.Repr, t`wakeup
      ensures Valid() && SameOrFresh() && CallsKept() && t.wakeup == old(t.wakeup) + delay
      ensures Handled(a, Snap(), Cfg(), t, old(t.wakeup), t.wakeup, true, now) && Flat(old(Snap()), Snap())
      ensures Charged(old(Snap()), Snap(), [], Cfg(), now)
    {
      hide TaskQueue.Valid, CallQueue.Valid, Sound, Handled, Charged;
      ghost var b := Snap();
      t.wakeup := t.wakeup + delay;
      Interfere(now);
      ghost var c := Snap();
      DriftFlat(b, c, Cfg(), now);
      tasks.Add(t);
      ChargedNone(c, Snap(), Cfg(), now);
      ChargedThen(b, c, Snap(), [], [], Cfg(), now);
      AddHandled(a, b, c, Cfg(), t, old(t.wakeup), delay, now);
    }

    method ConsumeMemoryForQueuedCall(cost: Cost, now: int)
      requires Valid() && res != null
      modifies this`phase, this`wipes, res, tasks, calls, tasks.heap, calls.heap
      ensures Valid() && SameOrFresh() && CallsKept() && Drift(old(Snap()), Snap(), Cfg(), now)
      ensures Charged(old(Snap()), Snap(), [Demand(Memory, cost)], Cfg(), now)
    {
      hide TaskQueue.Valid, CallQueue.Valid, Sound, Charged;
      ghost var a := Snap();
      Interfere(now);
      ghost var b := Snap();
      var _ := Consume(Memory, cost, now);
      ChargedThen(a, b, Snap(), [], [Demand(Memory, cost)], Cfg(), now);
    }

    method Postpone(t: Task, delay: real, cost: Cost, now: int, ghost a: Snapshot)
      requires Valid() && t !in tasks.wakeups && res != null
      requires Rise(a, Snap(), Cfg(), now) && t !in a.wakeups
      requires delay > 0.0 && delay == CpuDelay(Levels(), Cfg())
      modifies this`phase, this`wipes, res, tasks, calls, tasks.heap, calls.heap, tasks.heap.Repr, t`wakeup
      ensures Valid() && SameOrFresh() && CallsKept() && t.wakeup == old(t.wakeup) + delay
      ensures Handled(a, Snap(), Cfg(), t, old(t.wakeup), t.wakeup, true, now) && Flat(old(Snap()), Snap())
      ensures Charged(old(Snap()), Snap(), [Demand(Memory, cost)], Cfg(), now)
    {
      hide TaskQueue.Valid, CallQueue.Valid, Sound, Handled, Rise, Charged;
      ghost var b := Snap();
      Requeue(t, delay, now, a);
      ghost var d := Snap();
      ConsumeMemoryForQueuedCall(cost, now);
      ChargedThen(b, d, Snap(), [], [Demand(Memory, cost)], Cfg(), now);
      DriftFlat(d, Snap(), Cfg(), now);
      DriftHandled(a, d, Snap(), Cfg(), t, old(t.wakeup), t.wakeup, true, now);
    }

    method ConsumeCPUForLocalWork(cost: Cost, now: int)
      requires Valid() && res != null
      modifies this`phase, this`wipes, res, tasks, calls, tasks.heap, calls.heap
      ensures Valid() && SameOrFresh() && CallsKept() && Rise(old(Snap()), Snap(), Cfg(), now)
      ensures Charged(old(Snap()), Snap(), [Demand(Cpu, cost)], Cfg(), now)
      ensures forall t :: t in tasks.wakeups ==> t in old(tasks.wakeups)
    {
      hide TaskQueue.Valid, CallQueue.Valid, Sound, Charged;
      ghost var a := Snap();
      Interfere(now);
      ghost var b := Snap();
      var _ := Consume(Cpu, cost, now);
      ghost var c := Snap();
      Interfere(now);
      ChargedThen(a, b, c, [], [Demand(Cpu, cost)], Cfg(), now);
      ChargedThen(a, c, Snap(), [Demand(Cpu, cost)], [], Cfg(), now);
    }

    /** Consumes cpu and applies the reject and delay limits; true if that
        settled the task for this round. `mid` is the snapshot of the levels
        that decided, after the charge. */
    method HandleTaskCPU(t: Task, cost: Costs, now: int)
      returns (handled: bool, ghost postponed: bool, ghost mid: Snapshot)
      requires Valid() && t !in tasks.wakeups && res != null
      modifies this`phase, this`wipes, this`closed, this`replies
      modifies res, tasks, calls, tasks.heap, calls.heap, tasks.heap.Repr, t`wakeup
      ensures Valid() && SameOrFresh() && CallsKept()
      ensures postponed ==> handled
      ensures Handled(old(Snap()), Snap(), Cfg(), t, old(t.wakeup), t.wakeup, postponed, now)
      ensures !handled ==> Rise(old(Snap()), Snap(), Cfg(), now) && PassesCpu(Levels(), Cfg())
      ensures postponed ==> Explained(t, [], mid.levels, old(t.wakeup), t.wakeup, Cfg())
      ensures postponed && phase == old(phase) ==> mid.levels.cpu == Levels().cpu
      ensures !postponed ==> mid == Snap() && t.wakeup == old(t.wakeup)
      ensures Met(old(Trace()), Trace(), mid.levels)
      ensures Charged(old(Snap()), mid, [Demand(Cpu, cost.cpu)], Cfg(), now)
      ensures postponed ==> Charged(mid, Snap(), [Demand(Memory, cost.queued)], Cfg(), now)
      ensures if handled && !postponed
              then RejectedAt(mid.levels, Cfg()) && closed == old(closed) + [Closing(t, Rejected, mid.levels, 0.0)]
                   && replies == old(replies) + [ErrorReply(t.call)]
              else closed == old(closed) && replies == old(replies)
    {
      hide TaskQueue.Valid, CallQueue.Valid, Sound, Handled, Rise, Met, Charged;
      ghost var a := Snap();
      ConsumeCPUForLocalWork(cost.cpu, now);
      ghost var b := Snap();
      var rejected := RejectIfOver(t, now, a);
      mid := Snap();
      ChargedThen(a, b, mid, [Demand(Cpu, cost.cpu)], [], Cfg(), now);
      if rejected {
        RiseRank(a, Snap(), Cfg(), now);
        RiseHandled(a, Snap(), Cfg(), t, t.wakeup, now);
        MetNow(a.trace, Trace());
        return true, false, mid;
      }
      handled := DelayIfSaturated(t, cost.queued, now, a);
      postponed := handled;
    }

    /** The reject test of handleTaskCPU, after the cpu charge. */
    method RejectIfOver(t: Task, now: int, ghost a: Snapshot) returns (rejected: bool)
      requires Valid() && res != null && Rise(a, Snap(), Cfg(), now)
      modifies this`phase, this`wipes, this`closed, this`replies, res, tasks, calls, tasks.heap, calls.heap
      ensures Valid() && SameOrFresh() && CallsKept() && Rise(a, Snap(), Cfg(), now)
      ensures Charged(old(Snap()), Snap(), [], Cfg(), now)
      ensures forall x :: x in tasks.wakeups ==> x in old(tasks.wakeups)
      ensures rejected <==> RejectedAt(Levels(), Cfg())
      ensures if rejected
              then closed == old(closed) + [Closing(t, Rejected, Levels(), 0.0)]
                   && replies == old(replies) + [ErrorReply(t.call)]
              else closed == old(closed) && replies == old(replies)
    {
      hide TaskQueue.Valid, CallQueue.Valid, Sound, Rise, Charged;
      ghost var b := Snap();
      ChargedNone(b, b, Cfg(), now);
      if res.config.cpuRejectLimit > 0.0 {
        if res.cpu.current >= res.config.cpuRejectLimit {
          replies := replies + [ErrorReply(t.call)];
          Close(t, Rejected, b.levels, 0.0);
          return true;
        }
        Interfere(now);
        DriftTrans(a, b, Snap(), Cfg(), now);
        DriftFlat(b, Snap(), Cfg(), now);
      }
      rejected := false;
    }

    /** The delay test of handleTaskCPU, past the reject test. */
    method DelayIfSaturated(t: Task, cost: Cost, now: int, ghost a: Snapshot) returns (postponed: bool)
      requires Valid() && t !in tasks.wakeups && res != null && !RejectedAt(Levels(), Cfg())
      requires Rise(a, Snap(), Cfg(), now) && t !in a.wakeups
      modifies this`phase, this`wipes, res, tasks, calls, tasks.heap, calls.heap, tasks.heap.Repr, t`wakeup
      ensures Valid() && SameOrFresh() && CallsKept()
      ensures Flat(old(Snap()), Snap()) && Met(a.trace, Trace(), old(Levels()))
      ensures Handled(a, Snap(), Cfg(), t, old(t.wakeup), t.wakeup, postponed, now)
      ensures postponed ==> Explained(t, [], old(Levels()), old(t.wakeup), t.wakeup, Cfg())
      ensures !postponed ==> Snap() == old(Snap()) && PassesCpu(Levels(), Cfg()) && t.wakeup == old(t.wakeup)
      ensures postponed ==> Charged(old(Snap()), Snap(), [Demand(Memory, cost)], Cfg(), now)
    {
      hide TaskQueue.Valid, CallQueue.Valid, Sound, Handled, Rise, Met, Charged;
      ghost var b := Snap();
      RiseRank(a, b, Cfg(), now);
      MetNow(a.trace, b.trace);
      var delay := res.CalculateCPUDelay();
      postponed := delay > 0.0;
      if postponed {
        Postpone(t, delay, cost, now, a);
        MetKept(a.trace, a.trace, b.trace, Trace(), b.levels);
      } else {
        RiseHandled(a, b, Cfg(), t, t.wakeup, now);
      }
    }

    /** A stage's closure: each remote call its load balancer does not take at
        once is queued at this node, which charges memory. */
    method RunClosure(t: Task, remote: seq<Cost>, now: int)
      requires Valid()
      modifies this`phase, this`wipes, this`ran, res, tasks, calls, tasks.heap, calls.heap
      ensures Valid() && SameOrFresh() && CallsKept() && Drift(old(Snap()), Snap(), Cfg(), now)
      ensures ran == old(ran) + [t]
      ensures res != null ==> Charged(old(Snap()), Snap(), Memories(remote), Cfg(), now)
    {
      hide TaskQueue.Valid, CallQueue.Valid, Sound, Charged, Memories;
      ran := ran + [t];
      ghost var a := Snap();
      MemoriesNone();
      ChargedNone(a, Snap(), Cfg(), now);
      var i := 0;
      while i < |remote|
        invariant 0 <= i <= |remote|
        invariant Valid() && SameOrFresh() && CallsKept() && Drift(a, Snap(), Cfg(), now)
        invariant res != null ==> Charged(a, Snap(), Memories(remote[..i]), Cfg(), now)
        invariant ran == old(ran) + [t]
      {
        QueueRemote(remote[i], now, a, Memories(remote[..i]));
        MemoriesNext(remote, i);
        i := i + 1;
      }
      assert remote[..i] == remote;
    }

    /** queueOutbound's memory charge for one remote call. */
    method QueueRemote(cost: Cost, now: int, ghost a: Snapshot, ghost bill: seq<Demand>)
      requires Valid() && Drift(a, Snap(), Cfg(), now) && (res != null ==> Charged(a, Snap(), bill, Cfg(), now))
      modifies this`phase, this`wipes, res, tasks, calls, tasks.heap, calls.heap
      ensures Valid() && SameOrFresh() && CallsKept() && Drift(a, Snap(), Cfg(), now)
      ensures res != null ==> Charged(a, Snap(), bill + [Demand(Memory, cost)], Cfg(), now)
    {
      hide TaskQueue.Valid, CallQueue.Valid, Sound, Charged, Drift;
      ghost var b := Snap();
      if res != null {
        var _ := Consume(Memory, cost, now);
        ChargedThen(a, b, Snap(), bill, [Demand(Memory, cost)], Cfg(), now);
        DriftBoth(a, b, Snap(), Cfg(), now);
      }
      ghost var c := Snap();
      Interfere(now);
      DriftBoth(a, c, Snap(), Cfg(), now);
      if res != null { ChargedThen(a, c, Snap(), bill + [Demand(Memory, cost)], [], Cfg(), now); }
    }

    method ConsumeNetworkForReply(cost: Cost, now: int) returns (err: Option<ResourceError>)
      requires Valid() && res != null
      modifies this`phase, this`wipes, res, tasks, calls, tasks.heap, calls.heap
      ensures Valid() && SameOrFresh() && CallsKept() && Drift(old(Snap()), Snap(), Cfg(), now)
      ensures Charged(old(Snap()), Snap(), [], Cfg(), now)
      ensures if err == None then !Levels().isDown && Levels().network >= Min(1.0, cost)
              else Levels().isDown || Levels().network + cost > Cfg().networkLimit
    {
      hide TaskQueue.Valid, CallQueue.Valid, Charged;
      ghost var a := Snap();
      Interfere(now);
      ghost var b := Snap();
      err := Consume(Network, cost, now);
      ChargedThen(a, b, Snap(), [], [], Cfg(), now);
    }

    /** The part of HandleTask after the cpu tests: closure, then the reply if
        this is the call's last stage. */
    method Finish(t: Task, cost: Costs, now: int) returns (ghost end: Closing)
      requires Valid() && PassesCpu(Levels(), Cfg())
      modifies this, res, tasks, calls, tasks.heap, calls.heap
      ensures Valid() && SameOrFresh() && CallsKept() && Drift(old(Snap()), Snap(), Cfg(), now)
      ensures closed == old(closed) + [end] && ran == old(ran) + [t]
      ensures end.task == t && end.seen == Levels() && Caused(end, Cfg())
      ensures end.fate.Completed? || (end.fate.ReplyDropped? && res != null && end.charge == cost.reply)
      ensures end.fate.Completed? && t.isLast && res != null ==> Levels().network >= Min(1.0, cost.reply)
      ensures replies == old(replies) + (if end.fate.Completed? && t.isLast then [OkReply(t)] else [])
      ensures res != null ==> Charged(old(Snap()), Snap(), Memories(cost.remote), Cfg(), now)
    {
      hide TaskQueue.Valid, CallQueue.Valid, Sound, PassesCpu, Drift, Rise, Charged, Memories;
      ghost var a := Snap();
      RunClosure(t, cost.remote, now);
      ghost var b := Snap();
      ghost var fate, charge := SendReply(t, cost.reply, now);
      if res != null { ChargedThen(a, b, Snap(), Memories(cost.remote), [], Cfg(), now); }
      DriftBoth(a, b, Snap(), Cfg(), now);
      DriftFlat(a, Snap(), Cfg(), now);
      PassesBelow(a.levels, Levels(), Cfg());
      end := Closing(t, fate, Levels(), charge);
      Close(t, fate, Levels(), charge);
    }

    /** The last stage's reply, if the network takes it; earlier stages send none. */
    method SendReply(t: Task, cost: Cost, now: int) returns (ghost fate: Fate, ghost charge: Cost)
      requires Valid()
      modifies this`phase, this`wipes, this`replies, res, tasks, calls, tasks.heap, calls.heap
      ensures Valid() && SameOrFresh() && CallsKept() && Drift(old(Snap()), Snap(), Cfg(), now)
      ensures fate.Completed? || (fate.ReplyDropped? && t.isLast && res != null && charge == cost)
      ensures fate.Completed? && t.isLast ==> !Levels().isDown && (res != null ==> Levels().network >= Min(1.0, cost))
      ensures fate.ReplyDropped? ==> Levels().isDown || Levels().network + charge > Cfg().networkLimit
      ensures replies == old(replies) + (if fate.Completed? && t.isLast then [OkReply(t)] else [])
      ensures Charged(old(Snap()), Snap(), [], Cfg(), now)
    {
      hide TaskQueue.Valid, CallQueue.Valid, Sound, Charged;
      fate, charge := Completed, 0.0;
      ghost var a := Snap();
      ChargedNone(a, a, Cfg(), now);
      if !t.isLast { return; }
      if res != null {
        var err := ConsumeNetworkForReply(cost, now);
        if err != None { return ReplyDropped, cost; }
      }
      replies := replies + [OkReply(t)];
    }

    /** HandleTask past its availability test. */
    method HandleAvailable(t: Task, cost: Costs, now: int) returns (ghost ended: seq<Closing>, ghost mid: Snapshot)
      requires Valid() && t !in tasks.wakeups
      modifies this, res, tasks, calls, tasks.heap, calls.heap, tasks.heap.Repr, t`wakeup
      ensures Valid() && SameOrFresh() && CallsKept()
      ensures Handled(old(Snap()), Snap(), Cfg(), t, old(t.wakeup), t.wakeup, ended == [], now)
      ensures Explained(t, ended, mid.levels, old(t.wakeup), t.wakeup, Cfg()) && Met(old(Trace()), Trace(), mid.levels)
      ensures closed == old(closed) + ended
      ensures replies == old(replies) + RepliesFor(ended) && ran == old(ran) + ClosuresFor(ended)
      ensures ended != [] ==> ended[0].fate != Parked && mid == Snap()
      ensures ended == [] && phase == old(phase) ==> mid.levels.cpu == Levels().cpu
      ensures res == null ==> ended != [] && ended[0].fate == Completed
      ensures res != null ==> Billed(old(Snap()), mid, Snap(), ended, cost, now)
    {
      hide TaskQueue.Valid, CallQueue.Valid, Sound, Handled, Rise, Met, PassesCpu, RejectedAt, Charged, Memories;
      ghost var a := Snap();
      if res != null {
        var handled; ghost var postponed;
        handled, postponed, mid := HandleTaskCPU(t, cost, now);
        if handled {
          ended := if postponed then [] else [Closing(t, Rejected, mid.levels, 0.0)];
          if postponed { ChargedBoth(a, mid, Snap(), cost, Cfg(), now); }
          return;
        }
      } else {
        RiseRefl(a, Cfg(), now);
        FreshPasses();
      }
      ghost var b := Snap();
      ghost var end := Finish(t, cost, now);
      DriftTrans(a, b, Snap(), Cfg(), now);
      RiseRank(a, Snap(), Cfg(), now);
      RiseHandled(a, Snap(), Cfg(), t, t.wakeup, now);
      MetNow(a.trace, Trace());
      if res != null { ChargedThen(a, b, Snap(), [Demand(Cpu, cost.cpu)], Memories(cost.remote), Cfg(), now); }
      ended, mid := [end], Snap();
    }

    /** The look's charges, from a to c; if it ended in a postponement, those that
        decided it are seen at mid. The network charge of a reply sent is in the
        level it leaves, and that of a reply dropped in its closing. */
    ghost predicate Billed(a: Snapshot, mid: Snapshot, c: Snapshot, ended: seq<Closing>, cost: Costs, now: int) {
      && Charged(a, c, BillFor(ended, cost), Cfg(), now)
      && (ended == [] ==> Charged(a, mid, [Demand(Cpu, cost.cpu)], Cfg(), now))
      && (ended != [] && ended[0].fate.ReplyDropped? ==> ended[0].charge == cost.reply)
      && (ended != [] && ended[0].fate.Completed? && ended[0].task.isLast ==>
            c.levels.network >= Min(1.0, cost.reply))
    }

    lemma BilledAfter(z: Snapshot, a: Snapshot, mid: Snapshot, c: Snapshot, ended: seq<Closing>, cost: Costs, now: int)
      requires Charged(z, a, [], Cfg(), now) && Billed(a, mid, c, ended, cost, now)
      ensures Billed(z, mid, c, ended, cost, now)
    {
      hide Charged, BillFor;
      ChargedThen(z, a, c, [], BillFor(ended, cost), Cfg(), now);
      if ended == [] { ChargedThen(z, a, mid, [], [Demand(Cpu, cost.cpu)], Cfg(), now); }
    }

    /** HandleTask on a task just popped: it ended, for the cause seen at `mid`, or
        went back in the queue with the delay that `mid` imposes. */
    method HandleTask(t: Task, cost: Costs, now: int) returns (ghost ended: seq<Closing>, ghost mid: Snapshot)
      requires Valid() && t !in tasks.wakeups
      modifies this, res, tasks, calls, tasks.heap, calls.heap, tasks.heap.Repr, t`wakeup
      ensures Valid() && SameOrFresh() && CallsKept()
      ensures Handled(old(Snap()), Snap(), Cfg(), t, old(t.wakeup), t.wakeup, ended == [], now)
      ensures Explained(t, ended, mid.levels, old(t.wakeup), t.wakeup, Cfg()) && Met(old(Trace()), Trace(), mid.levels)
      ensures closed == old(closed) + ended
      ensures replies == old(replies) + RepliesFor(ended) && ran == old(ran) + ClosuresFor(ended)
      ensures ended != [] ==> mid == if ended[0].fate.Parked? then old(Snap()) else Snap()
      ensures ended == [] && phase == old(phase) ==> mid.levels.cpu == Levels().cpu
      ensures ended != [] && ended[0].fate.Parked? ==>
                res != null && res.pendingWork == old(res.pendingWork) + [t.call]
      ensures old(Levels().isDown) && (phase == old(phase) || Fixed(old(Snap()), Cfg(), now)) ==>
                ended != [] && ended[0].fate.Parked?
      ensures res == null ==> ended != [] && ended[0].fate.Completed?
      ensures !(ended != [] && ended[0].fate.Parked?) ==>
                var cpu, limit := mid.levels.cpu, Cfg().cpuRejectLimit;
                && (ended != [] && ended[0].fate.Rejected? <==> 0.0 < limit <= cpu)
                && (ended == [] <==> !(0.0 < limit <= cpu) && cpu > Cfg().cpuLimit && Cfg().cpuDelayFactor > 0.0)
      ensures res != null ==> Billed(old(Snap()), mid, Snap(), ended, cost, now)
    {
      hide TaskQueue.Valid, CallQueue.Valid, Sound, Handled, Rise, Drift, Met, Caused, Fixed, Charged;
      hide Explained, RepliesFor, ClosuresFor, NodeResources.Valid, Node.Billed;
      ghost var a := Snap();
      Interfere(now);
      ghost var b := Snap();
      DriftFlat(a, b, Cfg(), now);
      if a.levels.isDown && (b.phase == a.phase || Fixed(a, Cfg(), now)) { DriftDown(a, b, Cfg(), now); }
      if res != null && !res.IsAvailable() {
        ended := Park(t, cost, now, a);
        return ended, a;
      }
      ended, mid := HandleUp(t, cost, now, a);
      FateByCpu(t, ended, mid.levels, old(t.wakeup), t.wakeup, Cfg());
    }

    /** `a` is the snapshot before the availability test found the node up. */
    method HandleUp(t: Task, cost: Costs, now: int, ghost a: Snapshot)
      returns (ghost ended: seq<Closing>, ghost mid: Snapshot)
      requires Valid() && t !in tasks.wakeups && Drift(a, Snap(), Cfg(), now) && Charged(a, Snap(), [], Cfg(), now)
      modifies this, res, tasks, calls, tasks.heap, calls.heap, tasks.heap.Repr, t`wakeup
      ensures Valid() && SameOrFresh() && CallsKept() && Rank(phase) <= Rank(old(phase)) <= Rank(a.phase)
      ensures Handled(a, Snap(), Cfg(), t, old(t.wakeup), t.wakeup, ended == [], now)
      ensures Explained(t, ended, mid.levels, old(t.wakeup), t.wakeup, Cfg()) && Met(a.trace, Trace(), mid.levels)
      ensures closed == old(closed) + ended
      ensures replies == old(replies) + RepliesFor(ended) && ran == old(ran) + ClosuresFor(ended)
      ensures ended != [] ==> ended[0].fate != Parked && mid == Snap()
      ensures ended == [] && phase == old(phase) ==> mid.levels.cpu == Levels().cpu
      ensures res == null ==> ended != [] && ended[0].fate == Completed
      ensures res != null ==> Billed(a, mid, Snap(), ended, cost, now)
    {
      hide TaskQueue.Valid, CallQueue.Valid, Sound, Handled, Rise, Drift, Met, Caused, Charged;
      hide Explained, RepliesFor, ClosuresFor, NodeResources.Valid, Node.Billed;
      ghost var b := Snap();
      DriftFlat(a, b, Cfg(), now);
      ended, mid := HandleAvailable(t, cost, now);
      MetKept(a.trace, b.trace, Trace(), Trace(), mid.levels);
      HandledRank(b, Snap(), Cfg(), t, old(t.wakeup), t.wakeup, ended == [], now);
      HandledAfterDrift(a, b, Snap(), Cfg(), t, old(t.wakeup), t.wakeup, ended == [], now);
      if res != null { BilledAfter(a, b, mid, Snap(), ended, cost, now); }
    }

    /** `a` is the snapshot before the availability test found the node down. */
    method Park(t: Task, cost: Costs, now: int, ghost a: Snapshot) returns (ghost ended: seq<Closing>)
      requires Valid() && res != null && Drift(a, Snap(), Cfg(), now) && a.levels.isDown && Sound(a.levels, Cfg())
      requires a.trace != [] && a.trace[|a.trace| - 1] == a.levels && Charged(a, Snap(), [], Cfg(), now)
      modifies this, res, tasks, calls, tasks.heap, calls.heap
      ensures Valid() && SameOrFresh() && CallsKept() && Met(a.trace, Trace(), a.levels)
      ensures Handled(a, Snap(), Cfg(), t, t.wakeup, t.wakeup, false, now)
      ensures ended == [Closing(t, Parked, a.levels, 0.0)]
      ensures Explained(t, ended, a.levels, t.wakeup, t.wakeup, Cfg())
      ensures closed == old(closed) + ended && replies == old(replies) && ran == old(ran)
      ensures RepliesFor(ended) == [] && ClosuresFor(ended) == []
      ensures res.pendingWork == old(res.pendingWork) + [t.call]
      ensures Billed(a, a, Snap(), ended, cost, now)
    {
      hide TaskQueue.Valid, CallQueue.Valid, Sound, Handled, Rise, Met, Charged;
      ghost var b := Snap();
      Interfere(now);
      DriftTrans(a, b, Snap(), Cfg(), now);
      ChargedThen(a, b, Snap(), [], [], Cfg(), now);
      res.pendingWork := res.pendingWork + [t.call];
      Close(t, Parked, a.levels, 0.0);
      RiseRank(a, Snap(), Cfg(), now);
      RiseHandled(a, Snap(), Cfg(), t, t.wakeup, now);
      MetNow(a.trace, a.trace);
      MetKept(a.trace, a.trace, a.trace, Trace(), a.levels);
      ended := [Closing(t, Parked, a.levels, 0.0)];
    }

    /** The rest of a round, for the task popped from the queue of snapshot b;
        the round began at snapshot a and the loop at e. */
    method HandlePopped(t: Task, cost: Costs, now: int, ghost e: Snapshot, ghost looks: seq<Look>, ghost least: real,
                        ghost a: Snapshot, ghost b: Snapshot)
      returns (ghost l: Look, ghost least': real)
      requires Valid() && Progress(e, b, looks, Cfg(), now)
      requires Snap() == b.(wakeups := b.wakeups - {t}) && t in b.wakeups && b.wakeups[t] == t.wakeup
      requires forall x :: x in b.wakeups ==> Trunc(t.wakeup) <= Trunc(b.wakeups[x])
      requires t.wakeup < (now + 1) as real && Drift(a, b, Cfg(), now) && Known(least, a, Cfg())
      modifies this, res, tasks, calls, tasks.heap, calls.heap, tasks.heap.Repr, t`wakeup
      ensures Valid() && SameOrFresh() && CallsKept() && Progress(e, Snap(), looks + [l], Cfg(), now)
      ensures l.task == t && l.cost == cost && |l.ended| <= 1 && closed == old(closed) + l.ended
      ensures replies == old(replies) + RepliesFor(l.ended) && ran == old(ran) + ClosuresFor(l.ended)
      ensures Closer(a, least, Snap(), least', now) && Known(least', Snap(), Cfg())
      ensures res != null ==> Charged(old(Snap()), Snap(), BillFor(l.ended, cost), Cfg(), now)
    {
      hide TaskQueue.Valid, CallQueue.Valid, Sound, Progress, Closer, Known, Handled, Rise, Caused, Met, Charged, Trunc;
      ghost var ended, mid;
      ended, mid := HandleTask(t, cost, now);
      l := Look(t, b.wakeups[t], ended, cost);
      ProgressHandled(e, b, Snap(), looks, Cfg(), l, t.wakeup, mid.levels, now);
      RoundCloser(a, b, Snap(), Cfg(), least, t, t.wakeup, ended == [], now);
      least' := NextLeast(a, least, Snap(), Cfg(), ended == []);
    }

    /** The locked peek-and-pop; b is the snapshot just before it. */
    method TakeDue(now: int) returns (t: Task?, ghost b: Snapshot)
      requires Valid() && now >= 0
      modifies this`phase, this`wipes, res, tasks, calls, tasks.heap, calls.heap, tasks.heap.Repr
      ensures Valid() && SameOrFresh() && CallsKept() && Drift(old(Snap()), b, Cfg(), now)
      ensures b.wakeups.Keys <= old(tasks.wakeups).Keys
      ensures t == null ==> Snap() == b && forall x :: x in tasks.wakeups ==> tasks.wakeups[x] >= (now + 1) as real
      ensures t != null ==> Snap() == b.(wakeups := b.wakeups - {t}) && t in b.wakeups && b.wakeups[t] == t.wakeup
      ensures t != null ==> t.wakeup < (now + 1) as real
      ensures t != null ==> forall x :: x in b.wakeups ==> Trunc(t.wakeup) <= Trunc(b.wakeups[x])
      ensures Charged(old(Snap()), Snap(), [], Cfg(), now)
    {
      hide TaskQueue.Valid, CallQueue.Valid, PQueue.Valid, Sound, Rise, Safe, Charged, Trunc;
      ghost var a := Snap();
      Interfere(now);
      b := Snap();
      t := tasks.PopDue(now);
      ChargedNone(b, Snap(), Cfg(), now);
      ChargedThen(a, b, Snap(), [], [], Cfg(), now);
      if t == null {
        NoneDue(tasks.wakeups, now);
      } else {
        DueTest(now);
      }
    }

    /** One round of handleTasks; false when no task is due. The loop began at
        snapshot e. */
    method TaskRound(cost: Costs, now: int, ghost e: Snapshot, ghost looks: seq<Look>, ghost least: real)
      returns (more: bool, ghost l: Option<Look>, ghost least': real)
      requires Valid() && now >= 0 && Progress(e, Snap(), looks, Cfg(), now) && Known(least, Snap(), Cfg())
      modifies this, res, tasks, calls, tasks.heap, calls.heap, tasks.heap.Repr, tasks.wakeups.Keys
      ensures Valid() && SameOrFresh() && CallsKept()
      ensures more <==> l.Some?
      ensures !more ==> Progress(e, Snap(), looks, Cfg(), now) && Charged(old(Snap()), Snap(), [], Cfg(), now)
      ensures !more ==> closed == old(closed) && replies == old(replies) && ran == old(ran)
      ensures !more ==> forall x :: x in tasks.wakeups ==> tasks.wakeups[x] >= (now + 1) as real
      ensures more ==> Progress(e, Snap(), looks + [l.value], Cfg(), now) && l.value.cost == cost
      ensures more ==> |l.value.ended| <= 1 && closed == old(closed) + l.value.ended
      ensures more ==> replies == old(replies) + RepliesFor(l.value.ended)
      ensures more ==> ran == old(ran) + ClosuresFor(l.value.ended)
      ensures more && res != null ==> Charged(old(Snap()), Snap(), BillFor(l.value.ended, cost), Cfg(), now)
      ensures more ==> Closer(old(Snap()), least, Snap(), least', now) && Known(least', Snap(), Cfg())
    {
      hide TaskQueue.Valid, CallQueue.Valid, PQueue.Valid, Sound, Progress, Closer, Node.Valid, Charged, BillFor;
      hide Drift, Known, Rise, RepliesFor, ClosuresFor, Work, Trunc;
      ghost var a := Snap();
      var t; ghost var b;
      t, b := TakeDue(now);
      ghost var c := Snap();
      ProgressDrift(e, a, b, looks, Cfg(), now);
      more := t != null;
      if more {
        ghost var look;
        look, least' := HandlePopped(t, cost, now, e, looks, least, a, b);
        l := Some(look);
        if res != null { ChargedThen(a, c, Snap(), [], BillFor(look.ended, cost), Cfg(), now); }
      } else {
        l, least' := None, 0.0;
      }
    }

    /** handleTasks: ends although saturation puts popped tasks back into the
        heap being drained, possibly still due. Look k uses the draws draws(k). */
    method HandleTasks(draws: nat -> Costs, now: int) returns (ghost looks: seq<Look>)
      requires Valid() && now >= 0
      modifies this, res, tasks, calls, tasks.heap, calls.heap, tasks.heap.Repr, tasks.wakeups.Keys
      ensures Valid() && SameOrFresh() && CallsKept() && old(closed) <= closed && old(wipes) <= wipes
      ensures Settled(old(tasks.wakeups), tasks.wakeups, closed[|old(closed)|..], wipes > old(wipes), now)
      ensures forall x :: x in tasks.wakeups ==> tasks.wakeups[x] >= (now + 1) as real
      ensures replies == old(replies) + RepliesFor(closed[|old(closed)|..])
      ensures ran == old(ran) + ClosuresFor(closed[|old(closed)|..])
      ensures Cfg().memoryRecoveryMs > 0.0 && old(Safe(Snap(), now)) ==> wipes == old(wipes)
      ensures AllCaused(closed[|old(closed)|..], old(Trace()), Trace(), Cfg()) && old(Trace()) <= Trace()
      ensures AllImposed(old(tasks.wakeups), tasks.wakeups, old(Trace()), Trace(), Cfg(), looks)
      ensures EndedIn(looks) == closed[|old(closed)|..] && InOrder(looks) && Drawn(looks, draws)
      ensures res != null ==> Charged(old(Snap()), Snap(), Bill(looks), Cfg(), now)
      ensures res != null && (phase.Waiting? <==> old(phase).Waiting?) && !Levels().isDown ==>
                && Levels().cpu == Min(1.0, old(Levels().cpu) + CpuCost(looks))
                && Levels().memory == Min(1.0, old(Levels().memory) + MemoryCost(looks))
    {
      hide TaskQueue.Valid, CallQueue.Valid, PQueue.Valid, Sound, Settled, Known, Safe, Closer;
      hide RepliesFor, ClosuresFor, AllCaused, AllImposed, Drawn, InOrder, Bill, EndedIn, CpuCost, MemoryCost;
      ghost var a := Snap();
      looks := RunRounds(draws, now);
      assert closed[|old(closed)|..] == EndedIn(looks);
      if res != null && (phase.Waiting? <==> a.phase.Waiting?) && !Levels().isDown {
        PaidAddsUp(a.levels, Levels(), Bill(looks), Cfg(), now as real);
        BillTotals(looks);
      }
    }

    method RunRounds(draws: nat -> Costs, now: int) returns (ghost looks: seq<Look>)
      requires Valid() && now >= 0
      modifies this, res, tasks, calls, tasks.heap, calls.heap, tasks.heap.Repr, tasks.wakeups.Keys
      ensures Valid() && SameOrFresh() && CallsKept() && Progress(old(Snap()), Snap(), looks, Cfg(), now)
      ensures forall x :: x in tasks.wakeups ==> tasks.wakeups[x] >= (now + 1) as real
      ensures closed == old(closed) + EndedIn(looks) && Drawn(looks, draws)
      ensures replies == old(replies) + RepliesFor(EndedIn(looks)) && ran == old(ran) + ClosuresFor(EndedIn(looks))
      ensures res != null ==> Charged(old(Snap()), Snap(), Bill(looks), Cfg(), now)
    {
      hide TaskQueue.Valid, CallQueue.Valid, PQueue.Valid, Node.Valid, Sound, Known, Progress, Charged;
      hide Work, RepliesFor, ClosuresFor, Bill, EndedIn, Drawn;
      DrawnNone(draws);
      ghost var e, least := Snap(), 0.0;
      looks := [];
      ProgressStart(e, Cfg(), now);
      ChargedNone(e, e, Cfg(), now);
      LogsNone();
      LooksNone();
      KnownNone(Snap(), Cfg());
      var more, k := true, 0;
      while more
        invariant Valid() && SameOrFresh() && CallsKept() && Progress(e, Snap(), looks, Cfg(), now)
        invariant tasks.wakeups.Keys <= e.wakeups.Keys
        invariant closed == old(closed) + EndedIn(looks) && Drawn(looks, draws) && (more ==> k == |looks|)
        invariant replies == old(replies) + RepliesFor(EndedIn(looks)) && ran == old(ran) + ClosuresFor(EndedIn(looks))
        invariant res != null ==> Charged(e, Snap(), Bill(looks), Cfg(), now)
        invariant if more then Known(least, Snap(), Cfg())
                  else forall x :: x in tasks.wakeups ==> tasks.wakeups[x] >= (now + 1) as real
        decreases more, Rank(phase), least <= 0.0, Work(tasks.wakeups, now, least)
      {
        ghost var l, b := None, Snap();
        more, l, least := TaskRound(draws(k), now, e, looks, least);
        ghost var bill := Bill(looks);
        if more {
          LooksNext(looks, l.value);
          DrawnNext(looks, l.value, draws);
          LogsExtend(EndedIn(looks), l.value.ended);
          looks := looks + [l.value];
        }
        if res != null {
          ChargedThen(e, b, Snap(), bill, if more then BillFor(l.value.ended, l.value.cost) else [], Cfg(), now);
        }
        ProgressKeys(e, Snap(), looks, Cfg(), now);
        k := k + 1;
      }
    }
  }
}
