/** loop.go, broadcaster.go and the msCh arm of a node's runner: the barrier
    that decides when simulated time may move, as a transition system over the
    steps of the main loop, the per-tick goroutines and the runners. */
module Barrier {
  import opened Types

  /** Counted work of a tick: the goroutine of a source or a node, or the
      handling of the tick's token by the runner of a subscriber. */
  datatype Job = SourceJob(i: nat) | NodeJob(i: nat) | RunnerJob(i: nat)

  /** One unit added to the WaitGroup of the given tick. */
  datatype Unit = Unit(job: Job, tick: nat)

  /** A finished unit and the simulated time it saw. */
  datatype Finished = Finished(work: Unit, seen: int)

  /** Where Loop.Run is. */
  datatype Main = LoopHead | SpawningSources(i: nat) | SpawningNodes(i: nat) | Broadcasting(i: nat) | Waiting | Over

  datatype Config = Config(sources: nat, nodes: nat, subscribers: nat, length: real)

  const START := 1000
  const CHANNEL_SIZE := 2   // smallChannelSize

  /** `wgs` holds one WaitGroup counter per tick so far, the current one last;
      `work` is the counted work in progress, `chans` the ticks of the tokens in
      each subscriber's msCh, `busy` the token each runner is handling. */
  datatype State = State(
    time: int, main: Main, wgs: seq<int>, work: multiset<Unit>, running: multiset<Unit>,
    chans: seq<seq<nat>>, busy: seq<Option<nat>>, log: multiset<Finished>, drops: nat)

  predicate Init(c: Config, s: State) {
    s == State(START, LoopHead, [], multiset{}, multiset{}, seq(c.subscribers, _ => []), seq(c.subscribers, _ => None),
               multiset{}, 0)
  }

  function Tick(s: State): nat
    requires s.wgs != []
  {
    |s.wgs| - 1
  }

  /** wg.Add(1) on the current WaitGroup, for the given job. */
  function Add(s: State, job: Job): State
    requires s.wgs != []
  {
    s.(wgs := s.wgs[Tick(s) := s.wgs[Tick(s)] + 1], work := s.work + multiset{Unit(job, Tick(s))})
  }

  /** Done on the WaitGroup of the unit's own tick. */
  function Finish(s: State, u: Unit): State
    requires u.tick < |s.wgs|
  {
    s.(wgs := s.wgs[u.tick := s.wgs[u.tick] - 1], work := s.work - multiset{u},
       log := s.log + multiset{Finished(u, s.time)})
  }

  // ----- The steps -----

  ghost predicate StartTick(c: Config, s: State, s': State) {
    && s.main.LoopHead?
    && s' == if s.time as real < c.length + START as real
             then s.(main := SpawningSources(0), wgs := s.wgs + [0])
             else s.(main := Over)
  }

  ghost predicate Spawn(c: Config, s: State, s': State) {
    && s.wgs != []
    && match s.main
       case SpawningSources(i) =>
         if i < c.sources
         then s' == Add(s, SourceJob(i)).(main := SpawningSources(i + 1),
                                          running := s.running + multiset{Unit(SourceJob(i), Tick(s))})
         else s' == s.(main := SpawningNodes(0))
       case SpawningNodes(i) =>
         if i < c.nodes
         then s' == Add(s, NodeJob(i)).(main := SpawningNodes(i + 1),
                                        running := s.running + multiset{Unit(NodeJob(i), Tick(s))})
         else s' == s.(main := Broadcasting(0))
       case _ => false
  }

  /** One round of Broadcast's loop: add, then offer the token; a full channel
      drops it and takes the count back. */
  ghost predicate Offer(c: Config, s: State, s': State) {
    && s.wgs != [] && s.main.Broadcasting?
    && var i := s.main.i;
       if i < c.subscribers && i < |s.chans|
       then s' == if |s.chans[i]| < CHANNEL_SIZE
                  then Add(s, RunnerJob(i)).(main := Broadcasting(i + 1), chans := s.chans[i := s.chans[i] + [Tick(s)]])
                  else s.(main := Broadcasting(i + 1), drops := s.drops + 1)
       else s' == s.(main := Waiting)
  }

  /** wg.Wait returns at zero; then IncrementTime. */
  ghost predicate Advance(s: State, s': State) {
    && s.wgs != [] && s.main.Waiting? && s.wgs[Tick(s)] == 0
    && s' == s.(time := s.time + 1, main := LoopHead)
  }

  ghost predicate JobEnds(s: State, s': State, u: Unit) {
    && u in s.running && u.tick < |s.wgs|
    && s' == Finish(s, u).(running := s.running - multiset{u})
  }

  ghost predicate RunnerTakes(s: State, s': State, i: nat) {
    && i < |s.chans| && i < |s.busy| && s.busy[i].None? && s.chans[i] != []
    && s' == s.(chans := s.chans[i := s.chans[i][1..]], busy := s.busy[i := Some(s.chans[i][0])])
  }

  ghost predicate RunnerEnds(s: State, s': State, i: nat) {
    && i < |s.busy| && s.busy[i].Some? && s.busy[i].value < |s.wgs|
    && s' == Finish(s, Unit(RunnerJob(i), s.busy[i].value)).(busy := s.busy[i := None])
  }

  ghost predicate Next(c: Config, s: State, s': State) {
    || StartTick(c, s, s')
    || Spawn(c, s, s')
    || Offer(c, s, s')
    || Advance(s, s')
    || (exists u :: JobEnds(s, s', u))
    || (exists i :: RunnerTakes(s, s', i))
    || (exists i :: RunnerEnds(s, s', i))
  }

  // ----- The invariant -----

  /** Has the current tick given out this job yet? */
  predicate Given(c: Config, m: Main, job: Job) {
    match job
    case SourceJob(i) => i < (if m.SpawningSources? then m.i else if m.LoopHead? || m.Over? then 0 else c.sources)
    case NodeJob(i) => i < (if m.SpawningNodes? then m.i else if m.Broadcasting? || m.Waiting? then c.nodes else 0)
    case RunnerJob(i) => i < (if m.Broadcasting? then m.i else if m.Waiting? then c.subscribers else 0)
  }

  predicate Known(c: Config, job: Job) {
    match job
    case SourceJob(i) => i < c.sources
    case NodeJob(i) => i < c.nodes
    case RunnerJob(i) => i < c.subscribers
  }

  predicate Between(m: Main) {
    m.LoopHead? || m.Over?
  }

  /** Ticks completed. */
  function Completed(s: State): nat {
    if Between(s.main) || s.wgs == [] then |s.wgs| else |s.wgs| - 1
  }

  function TokensOf(s: State, i: nat): multiset<nat>
    requires i < |s.chans| && i < |s.busy|
  {
    multiset(s.chans[i]) + (if s.busy[i].Some? then multiset{s.busy[i].value} else multiset{})
  }

  ghost predicate Shape(c: Config, s: State) {
    && |s.chans| == |s.busy| == c.subscribers
    && (Between(s.main) || s.wgs != [])
    && s.time == START + Completed(s)
    && s.drops == 0
    && (match s.main
        case SpawningSources(i) => i <= c.sources
        case SpawningNodes(i) => i <= c.nodes
        case Broadcasting(i) => i <= c.subscribers
        case _ => true)
    && (!Between(s.main) ==> s.time as real < c.length + START as real)
    && (s.main.Over? ==> !(s.time as real < c.length + START as real))
    && (Between(s.main) && s.wgs != [] ==> (s.time - 1) as real < c.length + START as real)
  }

  /** Counted work belongs to the current tick and the counter counts it. */
  ghost predicate Counted(s: State) {
    && (forall u: Unit :: u in s.work ==> s.wgs != [] && u.tick == Tick(s))
    && (s.wgs != [] ==> s.wgs[Tick(s)] == |s.work|)
    && (Between(s.main) ==> s.work == multiset{})
  }

  /** The unit's goroutine is running; or its token waits or is being handled. */
  ghost predicate Placed(s: State, u: Unit)
    requires |s.chans| == |s.busy|
  {
    if !u.job.RunnerJob? then s.work[u] == s.running[u]
    else s.running[u] == 0 && s.work[u] == if u.job.i < |s.chans| then TokensOf(s, u.job.i)[u.tick] else 0
  }

  ghost predicate Located(s: State) {
    |s.chans| == |s.busy| && forall u: Unit :: Placed(s, u)
  }

  /** How often a unit is in progress or has finished, seeing its tick's time. */
  function Tally(s: State, u: Unit): nat {
    s.work[u] + s.log[Finished(u, START + u.tick)]
  }

  /** How often it should be: once from when its job is given out. */
  function Due(c: Config, s: State, u: Unit): nat {
    if u.tick < Completed(s) then (if Known(c, u.job) then 1 else 0)
    else if u.tick < |s.wgs| && Given(c, s.main, u.job) then 1 else 0
  }

  /** Each job of each tick is in progress or finished exactly once from when
      it is given out, and saw the tick's one time value. */
  ghost predicate OncePerTick(c: Config, s: State) {
    && (forall f :: f in s.log ==> f.seen == START + f.work.tick)
    && (forall u: Unit :: Tally(s, u) == Due(c, s, u))
  }

  ghost predicate Inv(c: Config, s: State) {
    Shape(c, s) && Counted(s) && Located(s) && OncePerTick(c, s)
  }

  lemma InitInv(c: Config, s: State)
    requires Init(c, s)
    ensures Inv(c, s)
  {}

  // ----- Parts of the invariant under the two changes of the count -----

  lemma CountedAdd(s: State, job: Job, s': State)
    requires Counted(s) && s.wgs != [] && !Between(s.main) && !Between(s'.main)
    requires s'.wgs == Add(s, job).wgs && s'.work == Add(s, job).work
    ensures Counted(s')
  {}

  lemma CountedFinish(s: State, u: Unit, s': State)
    requires Counted(s) && u in s.work && u.tick < |s.wgs| && s'.main == s.main
    requires s'.wgs == Finish(s, u).wgs && s'.work == Finish(s, u).work
    ensures Counted(s')
  {
    assert |s.work - multiset{u}| == |s.work| - 1;
  }

  lemma CountedSame(s: State, s': State)
    requires Counted(s) && s'.wgs == s.wgs && s'.work == s.work && (Between(s.main) <==> Between(s'.main))
    ensures Counted(s')
  {}

  /** Giving out one more job of the current tick. */
  lemma OnceAdd(c: Config, s: State, job: Job, s': State)
    requires OncePerTick(c, s) && s.wgs != [] && !Between(s.main) && !Between(s'.main)
    requires s'.work == Add(s, job).work && s'.log == s.log && |s'.wgs| == |s.wgs|
    requires !Given(c, s.main, job)
    requires forall j: Job :: Given(c, s'.main, j) <==> Given(c, s.main, j) || j == job
    ensures OncePerTick(c, s')
  {
    hide Given, Known;
    forall u: Unit ensures Tally(s', u) == Due(c, s', u) {
      assert Tally(s, u) == Due(c, s, u);
    }
  }

  lemma OnceFinish(c: Config, s: State, u: Unit, s': State)
    requires OncePerTick(c, s) && u in s.work && u.tick < |s.wgs| && s.time == START + u.tick
    requires s'.work == Finish(s, u).work && s'.log == Finish(s, u).log
    requires |s'.wgs| == |s.wgs| && s'.main == s.main
    ensures OncePerTick(c, s')
  {
    hide Given, Known;
    forall v: Unit ensures Tally(s', v) == Due(c, s', v) {
      assert Tally(s, v) == Due(c, s, v);
      FinishTally(s, u, s', v);
    }
    forall f | f in s'.log ensures f.seen == START + f.work.tick {
      assert f in s.log || f == Finished(u, s.time);
    }
  }

  lemma FinishTally(s: State, u: Unit, s': State, v: Unit)
    requires u in s.work && u.tick < |s.wgs| && s.time == START + u.tick
    requires s'.work == Finish(s, u).work && s'.log == Finish(s, u).log
    ensures Tally(s', v) == Tally(s, v)
  {
    if v == u {
      assert s'.work[v] == s.work[v] - 1 && s'.log[Finished(u, s.time)] == s.log[Finished(u, s.time)] + 1;
    } else {
      assert Finished(v, START + v.tick) != Finished(u, s.time);
    }
  }

  /** Moving on without touching the count. */
  lemma OnceSame(c: Config, s: State, s': State)
    requires OncePerTick(c, s) && s'.work == s.work && s'.log == s.log && |s'.wgs| == |s.wgs|
    requires Between(s.main) <==> Between(s'.main)
    requires forall j: Job :: Given(c, s'.main, j) <==> Given(c, s.main, j)
    ensures OncePerTick(c, s')
  {
    hide Given, Known;
    forall u: Unit ensures Tally(s', u) == Due(c, s', u) {
      assert Tally(s, u) == Due(c, s, u);
    }
  }

  lemma LocatedSame(s: State, s': State)
    requires Located(s) && s'.work == s.work && s'.running == s.running && s'.chans == s.chans && s'.busy == s.busy
    ensures Located(s')
  {
    forall u: Unit ensures Placed(s', u) { assert Placed(s, u); }
  }

  // ----- The invariant, step by step -----

  lemma StartTickInv(c: Config, s: State, s': State)
    requires Inv(c, s) && StartTick(c, s, s')
    ensures Inv(c, s')
  {
    hide Located, OncePerTick;
    LocatedSame(s, s');
    if s'.main.Over? {
      OnceSame(c, s, s');
    } else {
      OnceOpen(c, s, s');
    }
  }

  lemma OnceOpen(c: Config, s: State, s': State)
    requires OncePerTick(c, s) && s.main.LoopHead? && s' == s.(main := SpawningSources(0), wgs := s.wgs + [0])
    ensures OncePerTick(c, s')
  {
    forall u: Unit ensures Tally(s', u) == Due(c, s', u) {
      assert Tally(s, u) == Due(c, s, u);
    }
  }

  lemma SpawnInv(c: Config, s: State, s': State)
    requires Inv(c, s) && Spawn(c, s, s')
    ensures Inv(c, s')
  {
    hide Located, OncePerTick, Counted;
    if s.main.SpawningSources? && s.main.i < c.sources {
      SpawnOne(c, s, SourceJob(s.main.i), s');
    } else if s.main.SpawningNodes? && s.main.i < c.nodes {
      SpawnOne(c, s, NodeJob(s.main.i), s');
    } else {
      OnceSame(c, s, s');
      LocatedSame(s, s');
      CountedSame(s, s');
    }
  }

  lemma SpawnOne(c: Config, s: State, job: Job, s': State)
    requires s.wgs != [] && !Between(s.main) && !Between(s'.main) && !job.RunnerJob? && !Given(c, s.main, job)
    requires Counted(s) && Located(s) && OncePerTick(c, s)
    requires forall j: Job :: Given(c, s'.main, j) <==> Given(c, s.main, j) || j == job
    requires s' == Add(s, job).(main := s'.main, running := s.running + multiset{Unit(job, Tick(s))})
    ensures Counted(s') && Located(s') && OncePerTick(c, s')
  {
    hide Given, Known, Counted, OncePerTick;
    CountedAdd(s, job, s');
    OnceAdd(c, s, job, s');
    forall u: Unit ensures Placed(s', u) { assert Placed(s, u); }
  }

  lemma OfferInv(c: Config, s: State, s': State)
    requires Inv(c, s) && Offer(c, s, s')
    ensures Inv(c, s')
  {
    hide Located, OncePerTick, Counted;
    var i := s.main.i;
    if i < c.subscribers {
      ChannelEmpty(c, s, i);
      OfferOne(c, s, i, s');
    } else {
      OnceSame(c, s, s');
      LocatedSame(s, s');
      CountedSame(s, s');
    }
  }

  lemma SomeToken(s: State, i: nat)
    requires i < |s.chans| == |s.busy|
    ensures (s.chans[i] == [] && s.busy[i].None?) || exists t: nat :: TokensOf(s, i)[t] > 0
  {
    if s.chans[i] != [] {
      assert TokensOf(s, i)[s.chans[i][0]] > 0;
    } else if s.busy[i].Some? {
      assert TokensOf(s, i)[s.busy[i].value] > 0;
    }
  }

  /** When a tick's token is offered, the channel is empty and the runner is
      idle: the dropping branch of Broadcast is not reached. */
  lemma ChannelEmpty(c: Config, s: State, i: nat)
    requires Inv(c, s) && s.main.Broadcasting? && s.main.i <= i < c.subscribers
    ensures s.chans[i] == [] && s.busy[i].None?
  {
    hide TokensOf;
    forall t: nat ensures TokensOf(s, i)[t] == 0 {
      var u := Unit(RunnerJob(i), t);
      assert Placed(s, u) && Tally(s, u) == Due(c, s, u);
      if t != Tick(s) { assert u !in s.work; }
    }
    SomeToken(s, i);
  }

  lemma OfferOne(c: Config, s: State, i: nat, s': State)
    requires s.main == Broadcasting(i) && i < c.subscribers == |s.chans| == |s.busy| && s.chans[i] == [] && s.wgs != []
    requires Counted(s) && Located(s) && OncePerTick(c, s)
    requires s' == Add(s, RunnerJob(i)).(main := Broadcasting(i + 1), chans := s.chans[i := s.chans[i] + [Tick(s)]])
    ensures Counted(s') && Located(s') && OncePerTick(c, s')
  {
    hide Counted, OncePerTick;
    CountedAdd(s, RunnerJob(i), s');
    OnceAdd(c, s, RunnerJob(i), s');
    forall u: Unit ensures Placed(s', u) { assert Placed(s, u); }
  }

  lemma AdvanceInv(c: Config, s: State, s': State)
    requires Inv(c, s) && Advance(s, s')
    ensures Inv(c, s')
  {
    hide Located;
    LocatedSame(s, s');
    assert s.work == multiset{};
    forall u: Unit ensures Tally(s', u) == Due(c, s', u) {
      assert Tally(s, u) == Due(c, s, u);
    }
  }

  lemma JobEndsInv(c: Config, s: State, s': State, u: Unit)
    requires Inv(c, s) && JobEnds(s, s', u)
    ensures Inv(c, s')
  {
    hide OncePerTick, Counted;
    assert Placed(s, u);
    WorkIsCurrent(c, s, u);
    LocatedDone(s, s', u);
    hide Located;
    CountedFinish(s, u, s');
    OnceFinish(c, s, u, s');
  }

  lemma LocatedDone(s: State, s': State, u: Unit)
    requires Located(s) && JobEnds(s, s', u)
    ensures Located(s')
  {
    assert Placed(s, u);
    forall v: Unit ensures Placed(s', v) { assert Placed(s, v); }
  }

  lemma RunnerTakesInv(c: Config, s: State, s': State, i: nat)
    requires Inv(c, s) && RunnerTakes(s, s', i)
    ensures Inv(c, s')
  {
    hide OncePerTick, Counted;
    CountedSame(s, s');
    OnceSame(c, s, s');
    assert s.chans[i] == [s.chans[i][0]] + s.chans[i][1..];
    forall u: Unit ensures Placed(s', u) {
      assert Placed(s, u);
      if u.job.RunnerJob? && u.job.i == i { assert TokensOf(s', i) == TokensOf(s, i); }
    }
  }

  lemma WorkIsCurrent(c: Config, s: State, u: Unit)
    requires Shape(c, s) && Counted(s) && u in s.work
    ensures !Between(s.main) && u.tick < |s.wgs| && s.time == START + u.tick
  {}

  lemma RunnerEndsInv(c: Config, s: State, s': State, i: nat)
    requires Inv(c, s) && RunnerEnds(s, s', i)
    ensures Inv(c, s')
  {
    hide OncePerTick, Counted;
    var u := Unit(RunnerJob(i), s.busy[i].value);
    assert Placed(s, u) && TokensOf(s, i)[u.tick] > 0;
    WorkIsCurrent(c, s, u);
    LocatedEnds(s, s', i);
    hide Located;
    CountedFinish(s, u, s');
    OnceFinish(c, s, u, s');
  }

  lemma LocatedEnds(s: State, s': State, i: nat)
    requires Located(s) && RunnerEnds(s, s', i)
    ensures Located(s')
  {
    var u := Unit(RunnerJob(i), s.busy[i].value);
    assert Placed(s, u);
    forall v: Unit ensures Placed(s', v) {
      assert Placed(s, v);
      if v.job == RunnerJob(i) { EndsToken(s, s', i, v.tick); }
    }
  }

  lemma EndsToken(s: State, s': State, i: nat, t: nat)
    requires RunnerEnds(s, s', i) && i < |s.chans| == |s.busy|
    ensures TokensOf(s', i)[t] == TokensOf(s, i)[t] - (if t == s.busy[i].value then 1 else 0)
  {}

  lemma NextInv(c: Config, s: State, s': State)
    requires Inv(c, s) && Next(c, s, s')
    ensures Inv(c, s')
  {
    hide Inv;
    if StartTick(c, s, s') {
      StartTickInv(c, s, s');
    } else if Spawn(c, s, s') {
      SpawnInv(c, s, s');
    } else if Offer(c, s, s') {
      OfferInv(c, s, s');
    } else if Advance(s, s') {
      AdvanceInv(c, s, s');
    } else if u :| JobEnds(s, s', u) {
      JobEndsInv(c, s, s', u);
    } else if i :| RunnerTakes(s, s', i) {
      RunnerTakesInv(c, s, s', i);
    } else {
      var i :| RunnerEnds(s, s', i);
      RunnerEndsInv(c, s, s', i);
    }
  }

  // ----- Whole runs -----

  ghost predicate Run(c: Config, run: seq<State>) {
    && run != [] && Init(c, run[0])
    && forall k :: 0 <= k < |run| - 1 ==> Next(c, run[k], run[k + 1])
  }

  lemma {:induction false} RunInv(c: Config, run: seq<State>, k: nat)
    requires Run(c, run) && k < |run|
    ensures Inv(c, run[k])
  {
    hide Inv, Next;
    if k == 0 {
      InitInv(c, run[0]);
    } else {
      RunInv(c, run, k - 1);
      NextInv(c, run[k - 1], run[k]);
    }
  }

  /** In every reachable state, whatever is in progress, a goroutine, a waiting
      token or one being handled, belongs to the tick of the present time; so
      counted work sees one time from beginning to end. */
  lemma InProgressNow(c: Config, run: seq<State>, k: nat)
    requires Run(c, run) && k < |run|
    ensures forall u :: u in run[k].work || u in run[k].running ==> run[k].time == START + u.tick
    ensures |run[k].chans| == |run[k].busy| == c.subscribers
    ensures forall i :: 0 <= i < c.subscribers ==>
              forall t :: t in TokensOf(run[k], i) ==> run[k].time == START + t
  {
    var s := run[k];
    RunInv(c, run, k);
    forall u | u in s.work || u in s.running ensures s.time == START + u.tick {
      assert Placed(s, u);
      WorkIsCurrent(c, s, u);
    }
    forall i | 0 <= i < c.subscribers ensures forall t :: t in TokensOf(s, i) ==> s.time == START + t {
      forall t | t in TokensOf(s, i) ensures s.time == START + t {
        var u := Unit(RunnerJob(i), t);
        assert Placed(s, u);
        WorkIsCurrent(c, s, u);
      }
    }
  }

  lemma OneTimePerUnit(c: Config, run: seq<State>, j: nat, k: nat, u: Unit)
    requires Run(c, run) && j <= k < |run| && u in run[j].work && u in run[k].work
    ensures run[j].time == run[k].time
  {
    InProgressNow(c, run, j);
    InProgressNow(c, run, k);
  }

  /** Time advances only when nothing of the tick is left: no goroutine runs,
      no token waits, no runner is handling one; and every source, node and
      runner job of the tick has finished exactly once. */
  lemma TimeMovesOnlyWhenDone(c: Config, run: seq<State>, k: nat)
    requires Run(c, run) && k + 1 < |run| && run[k + 1].time != run[k].time
    ensures Advance(run[k], run[k + 1]) && run[k + 1].time == run[k].time + 1
    ensures run[k].running == multiset{}
    ensures |run[k].chans| == |run[k].busy| == c.subscribers
    ensures forall i :: 0 <= i < c.subscribers ==> run[k].chans[i] == [] && run[k].busy[i].None?
    ensures forall j: Job :: Known(c, j) ==> run[k].log[Finished(Unit(j, Tick(run[k])), run[k].time)] == 1
  {
    var s, s' := run[k], run[k + 1];
    RunInv(c, run, k);
    assert Next(c, s, s');
    assert Advance(s, s');
    assert s.work == multiset{};
    forall u: Unit ensures s.running[u] == 0 { assert Placed(s, u); }
    forall i: nat | i < c.subscribers ensures s.chans[i] == [] && s.busy[i].None? {
      forall t: nat ensures TokensOf(s, i)[t] == 0 { assert Placed(s, Unit(RunnerJob(i), t)); }
      SomeToken(s, i);
    }
    forall j: Job | Known(c, j) ensures s.log[Finished(Unit(j, Tick(s)), s.time)] == 1 {
      var u := Unit(j, Tick(s));
      assert Tally(s, u) == Due(c, s, u);
    }
  }

  /** In every reachable state, each job of each completed tick was done exactly
      once and saw that tick's time; nothing else was done at another time; and
      no token was ever dropped. */
  lemma EveryTickOnce(c: Config, run: seq<State>, k: nat, u: Unit)
    requires Run(c, run) && k < |run|
    ensures u.tick < Completed(run[k]) ==>
              run[k].log[Finished(u, START + u.tick)] == if Known(c, u.job) then 1 else 0
    ensures forall f :: f in run[k].log ==> f.seen == START + f.work.tick
    ensures run[k].drops == 0 && run[k].time == START + Completed(run[k])
  {
    RunInv(c, run, k);
    var s := run[k];
    assert Tally(s, u) == Due(c, s, u);
    if u.tick < Completed(s) { assert u !in s.work; }
  }

  /** The barrier cannot deadlock: until the loop is over, some step can be
      taken; while it waits on a non-zero counter, some counted work can end. */
  lemma Live(c: Config, s: State)
    requires Inv(c, s) && !s.main.Over?
    ensures exists s' :: Next(c, s, s')
  {
    if s.main.Waiting? && s.wgs[Tick(s)] != 0 {
      var u :| u in s.work;
      WorkCanGoOn(c, s, u);
    } else {
      var s' := MainGoesOn(c, s);
      assert Next(c, s, s');
    }
  }

  lemma MainGoesOn(c: Config, s: State) returns (s': State)
    requires Inv(c, s) && !s.main.Over? && (s.main.Waiting? ==> s.wgs[Tick(s)] == 0)
    ensures StartTick(c, s, s') || Spawn(c, s, s') || Offer(c, s, s') || Advance(s, s')
  {
    match s.main
    case LoopHead =>
      s' := if s.time as real < c.length + START as real
            then s.(main := SpawningSources(0), wgs := s.wgs + [0])
            else s.(main := Over);
    case SpawningSources(i) =>
      s' := if i < c.sources
            then Add(s, SourceJob(i)).(main := SpawningSources(i + 1),
                                       running := s.running + multiset{Unit(SourceJob(i), Tick(s))})
            else s.(main := SpawningNodes(0));
    case SpawningNodes(i) =>
      s' := if i < c.nodes
            then Add(s, NodeJob(i)).(main := SpawningNodes(i + 1),
                                     running := s.running + multiset{Unit(NodeJob(i), Tick(s))})
            else s.(main := Broadcasting(0));
    case Broadcasting(i) =>
      s' := if i >= c.subscribers then s.(main := Waiting)
            else if |s.chans[i]| < CHANNEL_SIZE
            then Add(s, RunnerJob(i)).(main := Broadcasting(i + 1), chans := s.chans[i := s.chans[i] + [Tick(s)]])
            else s.(main := Broadcasting(i + 1), drops := s.drops + 1);
    case Waiting =>
      s' := s.(time := s.time + 1, main := LoopHead);
  }

  lemma WorkCanGoOn(c: Config, s: State, u: Unit)
    requires Inv(c, s) && u in s.work
    ensures exists s' :: Next(c, s, s')
  {
    hide OncePerTick;
    assert Placed(s, u);
    WorkIsCurrent(c, s, u);
    var s';
    if !u.job.RunnerJob? {
      s' := Finish(s, u).(running := s.running - multiset{u});
      assert JobEnds(s, s', u);
    } else {
      var i := u.job.i;
      if s.busy[i].Some? {
        var v := Unit(RunnerJob(i), s.busy[i].value);
        assert Placed(s, v) && TokensOf(s, i)[v.tick] > 0;
        s' := Finish(s, v).(busy := s.busy[i := None]);
        assert RunnerEnds(s, s', i);
      } else {
        assert u.tick in s.chans[i];
        s' := s.(chans := s.chans[i := s.chans[i][1..]], busy := s.busy[i := Some(s.chans[i][0])]);
        assert RunnerTakes(s, s', i);
      }
    }
    assert Next(c, s, s');
  }

  lemma NoDeadlock(c: Config, run: seq<State>, k: nat)
    requires Run(c, run) && k < |run| && !run[k].main.Over?
    ensures exists s' :: Next(c, run[k], s')
  {
    RunInv(c, run, k);
    Live(c, run[k]);
  }

  /** Loop.Run performs ceil(length) ticks, none when length is not positive. */
  lemma RunLength(c: Config, run: seq<State>, k: nat)
    requires Run(c, run) && k < |run| && run[k].main.Over?
    ensures Completed(run[k]) == if c.length > 0.0 then Ceil(c.length) else 0
  {
    RunInv(c, run, k);
    CeilIsLeastAbove(c.length);
  }

  // ----- broadcaster.go as it runs inside the main loop -----

  class WaitGroup {
    var counter: int

    constructor ()
      ensures counter == 0
    {
      counter := 0;
    }

    method Add(n: int)
      modifies this
      ensures counter == old(counter) + n
    {
      counter := counter + n;
    }

    method Done()
      modifies this
      ensures counter == old(counter) - 1
    {
      counter := counter - 1;
    }
  }

  /** A subscriber's msCh: the ticks of the tokens in it. */
  class Channel {
    var tokens: seq<nat>

    constructor ()
      ensures tokens == []
    {
      tokens := [];
    }
  }

  function Offered(tokens: seq<nat>, tick: nat): seq<nat> {
    if |tokens| < CHANNEL_SIZE then tokens + [tick] else tokens
  }

  /** How many of the channels have room for one more token. */
  function Roomy(chans: seq<seq<nat>>): nat {
    if chans == [] then 0
    else Roomy(chans[..|chans| - 1]) + (if |chans[|chans| - 1]| < CHANNEL_SIZE then 1 else 0)
  }

  lemma RoomyNone()
    ensures Roomy([]) == 0
  {}

  lemma RoomyNext(chans: seq<seq<nat>>, k: nat)
    requires k < |chans|
    ensures Roomy(chans[..k + 1]) == Roomy(chans[..k]) + (if |chans[k]| < CHANNEL_SIZE then 1 else 0)
  {
    assert chans[..k + 1][..k] == chans[..k];
  }

  lemma {:induction false} RoomyAll(chans: seq<seq<nat>>)
    ensures (forall i :: 0 <= i < |chans| ==> |chans[i]| < 2) ==> Roomy(chans) == |chans|
    ensures (forall i :: 0 <= i < |chans| ==> |chans[i]| >= 2) ==> Roomy(chans) == 0
  {
    if chans != [] { RoomyAll(chans[..|chans| - 1]); }
  }

  class Broadcaster {
    var subscribers: seq<Channel>

    constructor ()
      ensures Valid() && subscribers == []
    {
      subscribers := [];
    }

    ghost predicate Valid()
      reads this
    {
      forall i, j :: 0 <= i < j < |subscribers| ==> subscribers[i] != subscribers[j]
    }

    method Subscribe() returns (ch: Channel)
      requires Valid()
      modifies this
      ensures Valid() && fresh(ch) && ch.tokens == [] && subscribers == old(subscribers) + [ch]
    {
      ch := new Channel();
      subscribers := subscribers + [ch];
    }

    /** Every channel with room gets the token, and the WaitGroup counts exactly
        those tokens: the add for a full channel is taken back. */
    method Broadcast(wg: WaitGroup, tick: nat, ghost before: seq<seq<nat>>)
      requires Valid() && |before| == |subscribers|
      requires forall i :: 0 <= i < |subscribers| ==> subscribers[i].tokens == before[i]
      modifies wg, subscribers
      ensures forall i :: 0 <= i < |subscribers| ==>
                subscribers[i].tokens == if |before[i]| < 2 then before[i] + [tick] else before[i]
      ensures wg.counter == old(wg.counter) + Roomy(before)
      ensures (forall i :: 0 <= i < |before| ==> |before[i]| < 2) ==> wg.counter == old(wg.counter) + |subscribers|
      ensures (forall i :: 0 <= i < |before| ==> |before[i]| >= 2) ==> wg.counter == old(wg.counter)
    {
      hide Roomy;
      RoomyNone();
      var k := 0;
      while k < |subscribers|
        invariant 0 <= k <= |subscribers|
        invariant forall i :: 0 <= i < |subscribers| ==>
                    subscribers[i].tokens == if i < k then Offered(before[i], tick) else before[i]
        invariant wg.counter == old(wg.counter) + Roomy(before[..k])
      {
        wg.Add(1);
        var ch := subscribers[k];
        if |ch.tokens| < CHANNEL_SIZE {
          ch.tokens := ch.tokens + [tick];
        } else {
          wg.Done();
        }
        RoomyNext(before, k);
        k := k + 1;
      }
      assert before[..k] == before;
      RoomyAll(before);
    }
  }
}
