/** The runner of one app node over a whole run (node.go), and the reply budget
    that every such run keeps. */
module NodeRuns {
  import opened Types
  import opened Lists
  import opened Resources
  import opened PQueues
  import opened TaskQueues
  import opened CallQueues
  import opened NodeTasks
  import opened NodeCalls

  // ----- The accounts of a node: what it made, holds and has closed -----

  /** Every task made is distinct; what is queued or closed was made; a task
      closes at most once and is not queued after. */
  ghost predicate Accounts(made: seq<Timed>, queue: map<Task, real>, closed: seq<Closing>) {
    && Distinct(made)
    && (forall t :: t in queue ==> Among(t, made))
    && (forall k :: 0 <= k < |closed| ==> Among(closed[k].task, made) && closed[k].task !in queue)
    && (forall i, j :: 0 <= i < j < |closed| ==> closed[i].task != closed[j].task)
  }

  lemma AccountsAfterCalls(made: seq<Timed>, q: map<Task, real>, closed: seq<Closing>, ts: seq<Timed>,
                           q': map<Task, real>)
    requires Accounts(made, q, closed) && Distinct(ts) && Within(q', q, ts)
    requires forall i :: 0 <= i < |ts| ==> !Among(ts[i].0, made)
    ensures Accounts(made + ts, q', closed)
  {
    forall t | Among(t, made) ensures Among(t, made + ts) {
      var i :| 0 <= i < |made| && made[i].0 == t;
      assert (made + ts)[i].0 == t;
    }
    forall t | Among(t, ts) ensures Among(t, made + ts) {
      var i :| 0 <= i < |ts| && ts[i].0 == t;
      assert (made + ts)[|made| + i].0 == t;
    }
    forall i, j | 0 <= i < j < |made + ts| ensures (made + ts)[i].0 != (made + ts)[j].0 {
      if i < |made| <= j { assert Among(made[i].0, made); }
    }
    forall k | 0 <= k < |closed| ensures closed[k].task !in q' {
      if i :| 0 <= i < |ts| && ts[i].0 == closed[k].task { assert false; }
    }
  }

  lemma AccountsAfterTasks(made: seq<Timed>, q: map<Task, real>, closed: seq<Closing>,
                           q': map<Task, real>, cs: seq<Closing>, wiped: bool, now: int)
    requires Accounts(made, q, closed) && Settled(q, q', cs, wiped, now)
    ensures Accounts(made, q', closed + cs)
  {
    forall i, j | 0 <= i < j < |closed + cs| ensures (closed + cs)[i].task != (closed + cs)[j].task {
      if i < |closed| <= j { assert cs[j - |closed|].task in q; }
    }
  }

  // ----- The budget -----

  predicate Answers(c: Closing) {
    c.fate.Rejected? || (c.fate.Completed? && c.task.isLast)
  }

  predicate AnswersOk(c: Closing) {
    c.fate.Completed? && c.task.isLast
  }

  /** How many replies the closings sent for the tasks ts; only those of status
      0 when okOnly. */
  ghost function RepliesBy(closed: seq<Closing>, ts: seq<Timed>, okOnly: bool): nat {
    if closed == [] then 0
    else
      var c := closed[|closed| - 1];
      RepliesBy(closed[..|closed| - 1], ts, okOnly) +
      (if Among(c.task, ts) && (if okOnly then AnswersOk(c) else Answers(c)) then 1 else 0)
  }

  ghost function LiveOf(queue: map<Task, real>, ts: seq<Timed>): nat {
    if ts == [] then 0
    else LiveOf(queue, ts[..|ts| - 1]) + (if ts[|ts| - 1].0 in queue then 1 else 0)
  }

  ghost function TaskSet(ts: seq<Timed>): set<Task> {
    set i | 0 <= i < |ts| :: ts[i].0
  }

  lemma TaskSetSnoc(ts: seq<Timed>, n: nat)
    requires Distinct(ts) && |ts| == n + 1
    ensures Distinct(ts[..n]) && TaskSet(ts) == TaskSet(ts[..n]) + {ts[n].0} && ts[n].0 !in TaskSet(ts[..n])
  {
    forall t ensures t in TaskSet(ts) <==> t in TaskSet(ts[..n]) + {ts[n].0} {
      if t in TaskSet(ts[..n]) {
        var i :| 0 <= i < n && ts[..n][i].0 == t;
        assert ts[i].0 == t;
      }
      if i :| 0 <= i < |ts| && ts[i].0 == t {
        if i < n { assert ts[..n][i].0 == t; }
      }
    }
  }

  lemma {:induction false} TaskSetSize(ts: seq<Timed>)
    requires Distinct(ts)
    ensures |TaskSet(ts)| == |ts|
  {
    if ts != [] {
      var n := |ts| - 1;
      TaskSetSnoc(ts, n);
      TaskSetSize(ts[..n]);
    } else {
      assert TaskSet(ts) == {};
    }
  }

  lemma MeetOneMore(s: set<Task>, x: Task, k: set<Task>)
    requires x !in s
    ensures |(s + {x}) * k| == |s * k| + (if x in k then 1 else 0)
  {
    if x in k {
      assert (s + {x}) * k == s * k + {x};
    } else {
      assert (s + {x}) * k == s * k;
    }
  }

  lemma {:induction false} LiveIsSize(queue: map<Task, real>, ts: seq<Timed>)
    requires Distinct(ts)
    ensures LiveOf(queue, ts) == |TaskSet(ts) * queue.Keys|
  {
    hide Distinct;
    if ts != [] {
      var n := |ts| - 1;
      TaskSetSnoc(ts, n);
      LiveIsSize(queue, ts[..n]);
      MeetOneMore(TaskSet(ts[..n]), ts[n].0, queue.Keys);
    } else {
      assert TaskSet(ts) * queue.Keys == {};
    }
  }

  ghost function ClosedSet(closed: seq<Closing>): set<Task> {
    set k | 0 <= k < |closed| :: closed[k].task
  }

  lemma ClosedSetSnoc(closed: seq<Closing>)
    requires closed != [] && forall i, j :: 0 <= i < j < |closed| ==> closed[i].task != closed[j].task
    ensures var n := |closed| - 1;
            && closed[n].task !in ClosedSet(closed[..n])
            && ClosedSet(closed) == ClosedSet(closed[..n]) + {closed[n].task}
  {
    var n := |closed| - 1;
    forall t ensures t in ClosedSet(closed) <==> t in ClosedSet(closed[..n]) + {closed[n].task} {
      if t in ClosedSet(closed[..n]) {
        var k :| 0 <= k < n && closed[..n][k].task == t;
        assert closed[k].task == t;
      }
      if k :| 0 <= k < |closed| && closed[k].task == t {
        if k < n { assert closed[..n][k].task == t; }
      }
    }
  }

  lemma RepliesByLast(closed: seq<Closing>, ts: seq<Timed>)
    requires closed != []
    ensures var n := |closed| - 1;
            RepliesBy(closed, ts, false) <= RepliesBy(closed[..n], ts, false)
                                          + (if closed[n].task in TaskSet(ts) then 1 else 0)
  {
    assert Among(closed[|closed| - 1].task, ts) ==> closed[|closed| - 1].task in TaskSet(ts);
  }

  lemma {:induction false} RepliesAtMostClosed(closed: seq<Closing>, ts: seq<Timed>)
    requires forall i, j :: 0 <= i < j < |closed| ==> closed[i].task != closed[j].task
    ensures RepliesBy(closed, ts, false) <= |ClosedSet(closed) * TaskSet(ts)|
  {
    if closed != [] {
      var n := |closed| - 1;
      hide ClosedSet, TaskSet, RepliesBy;
      RepliesAtMostClosed(closed[..n], ts);
      ClosedSetSnoc(closed);
      MeetOneMore(ClosedSet(closed[..n]), closed[n].task, TaskSet(ts));
      RepliesByLast(closed, ts);
    }
  }

  lemma {:induction false} OkAtMostOne(closed: seq<Closing>, ts: seq<Timed>, c: Call, stages: nat, now: int)
    requires StageTasks(ts, c, stages, now)
    requires forall i, j :: 0 <= i < j < |closed| ==> closed[i].task != closed[j].task
    ensures RepliesBy(closed, ts, true) <= 1
    ensures RepliesBy(closed, ts, true) == 1 ==> stages > 0 && ts[stages - 1].0 in ClosedSet(closed)
  {
    if closed != [] {
      var n := |closed| - 1;
      OkAtMostOne(closed[..n], ts, c, stages, now);
      ClosedSetSnoc(closed);
    }
  }

  /** Reply budget of one call turned into tasks: replies sent and tasks still
      queued never add up to more than its stages; at most one reply has status
      0, and only the last stage sends it. */
  lemma ReplyBudget(made: seq<Timed>, queue: map<Task, real>, closed: seq<Closing>, ts: seq<Timed>, c: Call,
                    stages: nat, now: int)
    requires Accounts(made, queue, closed) && StageTasks(ts, c, stages, now) && Distinct(ts)
    ensures RepliesBy(closed, ts, false) + LiveOf(queue, ts) <= stages
    ensures RepliesBy(closed, ts, true) <= 1
    ensures RepliesBy(closed, ts, true) == 1 ==> stages > 0 && ts[stages - 1].0 in ClosedSet(closed)
  {
    ClosedNotLive(made, queue, closed);
    OkAtMostOne(closed, ts, c, stages, now);
    hide Accounts, RepliesBy, LiveOf, TaskSet, ClosedSet;
    TaskSetSize(ts);
    LiveIsSize(queue, ts);
    RepliesAtMostClosed(closed, ts);
    var live, ended := TaskSet(ts) * queue.Keys, ClosedSet(closed) * TaskSet(ts);
    assert live !! ended;
    SubsetSize(live + ended, TaskSet(ts));
  }

  lemma ClosedNotLive(made: seq<Timed>, queue: map<Task, real>, closed: seq<Closing>)
    requires Accounts(made, queue, closed)
    ensures ClosedSet(closed) !! queue.Keys
    ensures forall i, j :: 0 <= i < j < |closed| ==> closed[i].task != closed[j].task
  {}

  lemma {:induction false} SubsetSize<T>(a: set<T>, b: set<T>)
    requires a <= b
    ensures |a| <= |b|
  {
    if a != {} {
      var x :| x in a;
      SubsetSize(a - {x}, b - {x});
    }
  }

  // ----- The runner -----

  /** From phase p, with w wipes and the calls `had`, others `came` and now, at
      p' and w', the calls `has` remain: all of them unless a cleanup came between. */
  ghost predicate Arrived(p: Phase, w: nat, had: multiset<Call>, came: seq<Call>, p': Phase, w': nat,
                          has: multiset<Call>)
  {
    && Onward(p, w, p', w') && has <= had + multiset(came)
    && (NoCallWipe(p, w, p', w') ==> has == had + multiset(came))
  }

  lemma ArrivedNext(p: Phase, w: nat, had: multiset<Call>, came: seq<Call>, p1: Phase, w1: nat, has1: multiset<Call>,
                    c: Call, p2: Phase, w2: nat, has2: multiset<Call>)
    requires Arrived(p, w, had, came, p1, w1, has1) && Arrived(p1, w1, has1, [c], p2, w2, has2)
    ensures Arrived(p, w, had, came + [c], p2, w2, has2)
  {
    assert multiset(came + [c]) == multiset(came) + multiset{c};
  }

  method TakeArrival(n: Node, c: Call, now: int)
    requires n.Valid()
    modifies n`phase, n`wipes, n.res, n.tasks, n.calls, n.tasks.heap, n.calls.heap, n.calls.heap.Repr
    ensures n.Valid() && n.SameOrFresh() && Drift(old(n.Snap()), n.Snap(), n.Cfg(), now)
    ensures Arrived(old(n.phase), old(n.wipes), old(n.calls.content), [c], n.phase, n.wipes, n.calls.content)
  {
    hide TaskQueue.Valid, CallQueue.Valid, Sound;
    n.calls.AddCall(c);
    n.Interfere(now);
  }

  /** The call arrivals of one tick, as the runner takes them off callCh. */
  method TakeArrivals(n: Node, arrivals: seq<Call>, now: int)
    requires n.Valid()
    modifies n`phase, n`wipes, n.res, n.tasks, n.calls, n.tasks.heap, n.calls.heap, n.calls.heap.Repr
    ensures n.Valid() && n.SameOrFresh() && Drift(old(n.Snap()), n.Snap(), n.Cfg(), now)
    ensures Arrived(old(n.phase), old(n.wipes), old(n.calls.content), arrivals, n.phase, n.wipes, n.calls.content)
  {
    hide TaskQueue.Valid, CallQueue.Valid, Sound, Drift, Node.Valid, Arrived;
    ghost var a, p, w, had := n.Snap(), n.phase, n.wipes, n.calls.content;
    n.Interfere(now);
    var i := 0;
    ArrivedFirst(p, w, had, n.phase, n.wipes, n.calls.content);
    while i < |arrivals|
      invariant 0 <= i <= |arrivals| && n.Valid() && n.SameOrFresh()
      invariant Drift(a, n.Snap(), n.Cfg(), now)
      invariant Arrived(p, w, had, arrivals[..i], n.phase, n.wipes, n.calls.content)
    {
      ghost var b, p1, w1, has := n.Snap(), n.phase, n.wipes, n.calls.content;
      TakeArrival(n, arrivals[i], now);
      DriftBoth(a, b, n.Snap(), n.Cfg(), now);
      ArrivedNext(p, w, had, arrivals[..i], p1, w1, has, arrivals[i], n.phase, n.wipes, n.calls.content);
      assert arrivals[..i + 1] == arrivals[..i] + [arrivals[i]];
      i := i + 1;
    }
    assert arrivals[..i] == arrivals;
  }

  lemma ArrivedFirst(p: Phase, w: nat, had: multiset<Call>, p': Phase, w': nat, has: multiset<Call>)
    requires Onward(p, w, p', w') && (has == had || (has == multiset{} && !NoCallWipe(p, w, p', w')))
    ensures Arrived(p, w, had, [], p', w', has)
  {}

  /** nextMillisecond's remaining steps; the tick barrier waits for them. */
  method FinishMillisecond(n: Node, now: int)
    requires n.Valid()
    modifies n`phase, n`wipes, n.res, n.tasks, n.calls, n.tasks.heap, n.calls.heap
    ensures n.Valid() && n.SameOrFresh() && n.CallsKept() && n.phase.Done?
    ensures n.tasks.wakeups == old(n.tasks.wakeups) || n.tasks.wakeups == map[]
    ensures old(n.phase).WipingTasks? ==> n.tasks.wakeups == map[] && n.calls.content == multiset{}
    ensures old(n.phase).WipingCalls? ==> n.calls.content == multiset{}
    ensures old(n.phase).Waiting? ==>
              && n.Levels() == Refresh(old(n.Levels()), n.Cfg(), now as real)
              && (old(n.Levels().isDown) && !n.Levels().isDown ==>
                    n.tasks.wakeups == map[] && n.calls.content == multiset{})
  {
    hide TaskQueue.Valid, CallQueue.Valid, Sound, Charged, Drift;
    ghost var p, l := n.phase, n.Levels();
    while !n.phase.Done?
      invariant n.Valid() && n.SameOrFresh() && n.CallsKept()
      invariant n.tasks.wakeups == old(n.tasks.wakeups) || n.tasks.wakeups == map[]
      invariant p.WipingTasks? ==> !n.phase.Waiting?
      invariant p.WipingTasks? && !n.phase.WipingTasks? ==> n.tasks.wakeups == map[]
      invariant (p.WipingTasks? || p.WipingCalls?) && n.phase.Done? ==> n.calls.content == multiset{}
      invariant p.WipingCalls? ==> n.phase.WipingCalls? || n.phase.Done?
      invariant p.Waiting? ==> n.Levels() == if n.phase.Waiting? then l else Refresh(l, n.Cfg(), now as real)
      invariant p.Waiting? && l.isDown && !n.Levels().isDown && !n.phase.WipingTasks? ==> n.tasks.wakeups == map[]
      invariant p.Waiting? && l.isDown && !n.Levels().isDown && n.phase.Done? ==> n.calls.content == multiset{}
      decreases Rank(n.phase)
    {
      n.NextMillisecondStep(now);
    }
  }

  lemma AccountsAfterWipe(made: seq<Timed>, q: map<Task, real>, closed: seq<Closing>)
    requires Accounts(made, q, closed)
    ensures Accounts(made, map[], closed)
  {}

  lemma {:induction false} RefusalsExtend(calls: seq<Call>, rs: seq<Result>, batch: seq<Call>, rs': seq<Result>)
    requires |rs| == |calls| && |rs'| <= |batch|
    ensures Refusals(calls + batch, rs + rs') == Refusals(calls, rs) + Refusals(batch, rs')
    decreases |rs'|
  {
    if rs' == [] {
      assert rs + rs' == rs;
      RefusalsPrefix(calls, batch, rs);
    } else {
      var n := |rs'| - 1;
      RefusalsExtend(calls, rs, batch, rs'[..n]);
      assert (rs + rs')[..|rs| + n] == rs + rs'[..n];
      assert (rs + rs')[|rs| + n] == rs'[n] && (calls + batch)[|rs| + n] == batch[n];
      assert Refusals(batch, rs') == Refusals(batch, rs'[..n])
          + (if rs'[n].Refused? then [ErrorReply(batch[n])] else []);
    }
  }

  lemma {:induction false} RefusalsPrefix(calls: seq<Call>, batch: seq<Call>, rs: seq<Result>)
    requires |rs| <= |calls|
    ensures Refusals(calls + batch, rs) == Refusals(calls, rs)
    decreases |rs|
  {
    if rs != [] { RefusalsPrefix(calls, batch, rs[..|rs| - 1]); }
  }

  lemma {:induction false} TasksExtend(rs: seq<Result>, rs': seq<Result>)
    ensures AllTasks(rs + rs') == AllTasks(rs) + AllTasks(rs')
    decreases |rs'|
  {
    if rs' == [] {
      assert rs + rs' == rs;
    } else {
      var n := |rs'| - 1;
      TasksExtend(rs, rs'[..n]);
      hide AllTasks, TasksOf;
      Regroup(rs, rs'[..n], [rs'[n]]);
      assert rs' == rs'[..n] + [rs'[n]];
      TasksLast(rs + rs'[..n], rs'[n]);
      TasksLast(rs'[..n], rs'[n]);
      Regroup(AllTasks(rs), AllTasks(rs'[..n]), TasksOf(rs'[n]));
    }
  }

  /** What holds of a node between ticks, given the calls it has processed and
      what it did with each. */
  ghost predicate Books(calls: seq<Call>, rs: seq<Result>, queue: map<Task, real>, closed: seq<Closing>,
                        replies: seq<Reply>, stages: nat, start: int)
  {
    && |rs| == |calls|
    && Accounts(AllTasks(rs), queue, closed)
    && (forall k :: 0 <= k < |rs| && rs[k].Taken? ==> StageTasks(rs[k].tasks, calls[k], stages, start))
    && multiset(replies) == multiset(RepliesFor(closed)) + multiset(Refusals(calls, rs))
  }

  lemma BooksAfterCalls(calls: seq<Call>, rs: seq<Result>, q: map<Task, real>, closed: seq<Closing>,
                        replies: seq<Reply>, batch: seq<Call>, more: seq<Result>, q': map<Task, real>,
                        stages: nat, start: int, now: int)
    requires Books(calls, rs, q, closed, replies, stages, start) && start <= now
    requires |more| == |batch| && Staged(batch, more, stages, now) && Within(q', q, AllTasks(more))
    requires Distinct(AllTasks(more))
    requires forall i :: 0 <= i < |AllTasks(more)| ==> !Among(AllTasks(more)[i].0, AllTasks(rs))
    ensures Books(calls + batch, rs + more, q', closed, replies + Refusals(batch, more), stages, start)
  {
    hide Accounts, Within, Distinct, Among, StageTasks, Refusals, AllTasks, RepliesFor;
    TasksExtend(rs, more);
    RefusalsExtend(calls, rs, batch, more);
    AccountsAfterCalls(AllTasks(rs), q, closed, AllTasks(more), q');
    forall k | 0 <= k < |rs + more| && (rs + more)[k].Taken?
      ensures StageTasks((rs + more)[k].tasks, (calls + batch)[k], stages, start)
    {
      if k >= |rs| { StageTasksEarlier(more[k - |rs|].tasks, batch[k - |rs|], stages, now, start); }
    }
    assert multiset(replies + Refusals(batch, more)) == multiset(replies) + multiset(Refusals(batch, more));
  }

  lemma StageTasksEarlier(ts: seq<Timed>, c: Call, stages: nat, now: int, start: int)
    requires StageTasks(ts, c, stages, now) && start <= now
    ensures StageTasks(ts, c, stages, start)
  {}

  lemma BooksAfterTasks(calls: seq<Call>, rs: seq<Result>, q: map<Task, real>, closed: seq<Closing>,
                        replies: seq<Reply>, q': map<Task, real>, cs: seq<Closing>, wiped: bool,
                        stages: nat, start: int, now: int)
    requires Books(calls, rs, q, closed, replies, stages, start) && Settled(q, q', cs, wiped, now)
    ensures Books(calls, rs, q', closed + cs, replies + RepliesFor(cs), stages, start)
    ensures Books(calls, rs, map[], closed + cs, replies + RepliesFor(cs), stages, start)
  {
    hide Accounts, StageTasks;
    AccountsAfterTasks(AllTasks(rs), q, closed, q', cs, wiped, now);
    AccountsAfterWipe(AllTasks(rs), q', closed + cs);
    RepliesExtend(closed, cs);
    assert multiset(replies + RepliesFor(cs)) == multiset(replies) + multiset(RepliesFor(cs));
  }

  lemma BooksAfterWipe(calls: seq<Call>, rs: seq<Result>, q: map<Task, real>, closed: seq<Closing>,
                       replies: seq<Reply>, stages: nat, start: int)
    requires Books(calls, rs, q, closed, replies, stages, start)
    ensures Books(calls, rs, map[], closed, replies, stages, start)
  {
    AccountsAfterWipe(AllTasks(rs), q, closed);
  }

  lemma DriftQueue(a: Snapshot, b: Snapshot, cfg: ResourceConfig, now: int)
    requires Drift(a, b, cfg, now)
    ensures b.wakeups == a.wakeups || b.wakeups == map[]
  {}

  lemma BatchFacts(a: Snapshot, b: Snapshot, sent: seq<Reply>, batch: seq<Call>, rs: seq<Result>, cfg: ResourceConfig,
                   stages: nat, now: int)
    requires |rs| <= |batch| && BatchDone(a, b, sent, batch, rs, cfg, stages, now)
    ensures sent == Refusals(batch, rs) && Staged(batch, rs, stages, now) && Within(b.wakeups, a.wakeups, AllTasks(rs))
  {}

  lemma WithinEarlier(c: map<Task, real>, b: map<Task, real>, a: map<Task, real>, ts: seq<Timed>)
    requires Within(c, b, ts) && (b == a || b == map[])
    ensures Within(c, a, ts)
  {}

  /** No call has been ready since before now, no task has been due by now. */
  ghost predicate NoneReady(waiting: multiset<Call>, now: int) {
    forall c :: c in waiting ==> c.wakeup >= now as real
  }

  ghost predicate NoneDueBy(queue: map<Task, real>, now: int) {
    forall x :: x in queue ==> queue[x] >= (now + 1) as real
  }

  lemma ArrivedTaken(p: Phase, w: nat, had: multiset<Call>, came: seq<Call>, p1: Phase, w1: nat, has1: multiset<Call>,
                     batch: seq<Call>, rest: multiset<Call>, p2: Phase, w2: nat, has2: multiset<Call>, now: int)
    requires Arrived(p, w, had, came, p1, w1, has1) && SplitByReady(has1, multiset(batch), rest, now)
    requires Onward(p1, w1, p2, w2) && (has2 == rest || (has2 == multiset{} && !NoCallWipe(p1, w1, p2, w2)))
    ensures Arrived(p, w, had, came, p2, w2, multiset(batch) + has2)
  {
    assert multiset(batch) + rest == has1;
  }

  /** The calls half of a tick. `made` is the tasks made so far. */
  method RunCalls(n: Node, arrivals: seq<Call>, stages: nat, draws: nat -> CallCosts, start: int, now: int,
                  ghost calls: seq<Call>, ghost rs: seq<Result>, ghost made: seq<Timed>)
    returns (batch: seq<Call>, more: seq<Result>)
    requires n.Valid() && 0 < start <= now && made == AllTasks(rs) && forall k :: |draws(k).work| == stages
    requires Books(calls, rs, n.tasks.wakeups, n.closed, n.replies, stages, start)
    modifies n`phase, n`wipes, n`replies, n.res, n.tasks, n.calls
    modifies n.tasks.heap, n.calls.heap, n.tasks.heap.Repr, n.calls.heap.Repr
    ensures n.Valid() && n.SameOrFresh() && |more| == |batch|
    ensures Arrived(old(n.phase), old(n.wipes), old(n.calls.content), arrivals,
                    n.phase, n.wipes, multiset(batch) + n.calls.content)
    ensures Books(calls + batch, rs + more, n.tasks.wakeups, n.closed, n.replies, stages, start)
    ensures forall i :: 0 <= i < |AllTasks(more)| ==> fresh(AllTasks(more)[i].0)
    ensures Within(n.tasks.wakeups, old(n.tasks.wakeups), AllTasks(more))
    ensures NoneReady(n.calls.content, now)
  {
    hide TaskQueue.Valid, CallQueue.Valid, Sound, Books, NoneReady;
    hide Drift, Arrived, BatchDone, Node.CallsKept, Distinct, Staged, Within, Refusals;
    ghost var a, replies := n.Snap(), n.replies;
    ghost var b;
    batch, more, b := ArriveAndHandle(n, arrivals, stages, draws, now);
    DriftQueue(a, b, n.Cfg(), now);
    BooksAfterWipe(calls, rs, a.wakeups, n.closed, replies, stages, start);
    assert n.replies == replies + n.replies[|replies|..];
    BatchFacts(b, n.Snap(), n.replies[|replies|..], batch, more, n.Cfg(), stages, now);
    WithinEarlier(n.tasks.wakeups, b.wakeups, a.wakeups, AllTasks(more));
    BooksAfterCalls(calls, rs, b.wakeups, n.closed, replies, batch, more, n.tasks.wakeups, stages, start, now);
  }

  /** ... of which b is the snapshot between the arrivals and handleCalls. */
  method ArriveAndHandle(n: Node, arrivals: seq<Call>, stages: nat, draws: nat -> CallCosts, now: int)
    returns (batch: seq<Call>, more: seq<Result>, ghost b: Snapshot)
    requires n.Valid() && 0 < now && forall k :: |draws(k).work| == stages
    modifies n`phase, n`wipes, n`replies, n.res, n.tasks, n.calls
    modifies n.tasks.heap, n.calls.heap, n.tasks.heap.Repr, n.calls.heap.Repr
    ensures n.Valid() && n.SameOrFresh() && |more| == |batch| && old(n.replies) <= n.replies
    ensures Drift(old(n.Snap()), b, n.Cfg(), now)
    ensures BatchDone(b, n.Snap(), n.replies[|old(n.replies)|..], batch, more, n.Cfg(), stages, now)
    ensures Arrived(old(n.phase), old(n.wipes), old(n.calls.content), arrivals,
                    n.phase, n.wipes, multiset(batch) + n.calls.content)
    ensures NoneReady(n.calls.content, now)
    ensures Distinct(AllTasks(more)) && forall i :: 0 <= i < |AllTasks(more)| ==> fresh(AllTasks(more)[i].0)
  {
    hide TaskQueue.Valid, CallQueue.Valid, Sound, SplitByReady, SortedByPriority;
    hide Drift, Arrived, BatchDone, Node.CallsKept, Distinct, Onward, NoCallWipe, Fated, Shape, AllWorked;
    ghost var p0, w0, had := n.phase, n.wipes, n.calls.content;
    TakeArrivals(n, arrivals, now);
    ghost var p, w, waiting := n.phase, n.wipes, n.calls.content;
    ghost var split;
    b := n.Snap();
    batch, more, split := HandleCalls(n, stages, draws, now);
    ghost var rest :| SplitByReady(waiting, multiset(batch), rest, now)
                      && (n.calls.content == rest
                          || (n.calls.content == multiset{} && !NoCallWipe(p, w, n.phase, n.wipes)));
    SplitParts(waiting, batch, rest, now);
    ArrivedTaken(p0, w0, had, arrivals, p, w, waiting, batch, rest, n.phase, n.wipes, n.calls.content, now);
  }

  /** The tasks half of a tick. */
  method RunTasks(n: Node, stages: nat, draws: nat -> Costs, start: int, now: int,
                  ghost calls: seq<Call>, ghost rs: seq<Result>)
    requires n.Valid() && now >= 0
    requires Books(calls, rs, n.tasks.wakeups, n.closed, n.replies, stages, start)
    modifies n, n.res, n.tasks, n.calls, n.tasks.heap, n.calls.heap, n.tasks.heap.Repr, n.tasks.wakeups.Keys
    ensures n.Valid() && n.SameOrFresh() && n.CallsKept() && n.phase.Done?
    ensures Books(calls, rs, n.tasks.wakeups, n.closed, n.replies, stages, start)
    ensures n.tasks.wakeups.Keys <= old(n.tasks.wakeups.Keys) && NoneDueBy(n.tasks.wakeups, now)
  {
    hide TaskQueue.Valid, CallQueue.Valid, Sound, Books, Settled, AllCaused, AllImposed, Charged, InOrder, Drawn;
    ghost var q, closed, replies, w := n.tasks.wakeups, n.closed, n.replies, n.wipes;
    ghost var looks := n.HandleTasks(draws, now);
    assert n.closed == closed + n.closed[|closed|..];
    SettledKeys(q, n.tasks.wakeups, n.closed[|closed|..], n.wipes > w, now);
    BooksAfterTasks(calls, rs, q, closed, replies, n.tasks.wakeups, n.closed[|closed|..], n.wipes > w,
                    stages, start, now);
    FinishMillisecond(n, now);
  }

  /** Of the calls that were there and that came since, each is processed or
      waits, at most once, and at least once too if no cleanup ran. */
  ghost predicate Conserved(had: multiset<Call>, came: seq<Call>, calls: seq<Call>, waiting: multiset<Call>,
                            wiped: bool)
  {
    && multiset(calls) + waiting <= had + multiset(came)
    && (!wiped ==> multiset(calls) + waiting == had + multiset(came))
  }

  lemma SumsBound<T>(m: multiset<T>, y: multiset<T>, waiting: multiset<T>, b: multiset<T>, x: multiset<T>,
                     has1: multiset<T>, has2: multiset<T>)
    requires m + waiting <= y && b + has1 <= waiting + x && has2 <= has1
    ensures m + b + has2 <= y + x
    ensures m + waiting == y && b + has1 == waiting + x && has2 == has1 ==> m + b + has2 == y + x
  {
    forall c ensures (m + b + has2)[c] <= (y + x)[c] {
      assert (m + waiting)[c] <= y[c] && (b + has1)[c] <= (waiting + x)[c] && has2[c] <= has1[c];
    }
    if m + waiting == y && b + has1 == waiting + x && has2 == has1 {
      forall c ensures (m + b + has2)[c] == (y + x)[c] {
        assert (m + waiting)[c] == y[c] && (b + has1)[c] == (waiting + x)[c];
      }
    }
  }

  /** A tick begun at phase p: what the calls half and then the tasks half did. */
  lemma ConservedTick(had: multiset<Call>, came: seq<Call>, calls: seq<Call>, waiting: multiset<Call>, w0: nat,
                      p: Phase, w: nat, arrivals: seq<Call>, batch: seq<Call>, p1: Phase, w1: nat,
                      has1: multiset<Call>, p2: Phase, w2: nat, has2: multiset<Call>)
    requires Conserved(had, came, calls, waiting, w > w0) && w0 <= w && !p.WipingCalls?
    requires Arrived(p, w, waiting, arrivals, p1, w1, multiset(batch) + has1)
    requires Onward(p1, w1, p2, w2) && (has2 == has1 || (has2 == multiset{} && !NoCallWipe(p1, w1, p2, w2)))
    ensures Conserved(had, came + arrivals, calls + batch, has2, w2 > w0) && w0 <= w2
  {
    SumsBound(multiset(calls), had + multiset(came), waiting, multiset(batch), multiset(arrivals), has1, has2);
    assert multiset(came + arrivals) == multiset(came) + multiset(arrivals);
    assert multiset(calls + batch) == multiset(calls) + multiset(batch);
  }

  /** A run of the runner: in every tick the arrivals, then handleCalls and
      handleTasks, with the node's nextMillisecond stepping beside them. */
  method RunNode(n: Node, arrivals: seq<seq<Call>>, stages: nat, start: int,
                 callDraws: nat -> nat -> CallCosts, taskDraws: nat -> nat -> Costs)
    returns (calls: seq<Call>, results: seq<Result>)
    requires n.Valid() && start > 0 && forall t, k :: |callDraws(t)(k).work| == stages
    requires n.tasks.wakeups == map[] && n.closed == [] && n.replies == []
    modifies n, n.res, n.tasks, n.calls, n.tasks.heap, n.calls.heap, n.tasks.heap.Repr, n.calls.heap.Repr
    ensures n.Valid()
    ensures Books(calls, results, n.tasks.wakeups, n.closed, n.replies, stages, start)
    ensures Conserved(old(n.calls.content), Flatten(arrivals), calls, n.calls.content, n.wipes > old(n.wipes))
    ensures |results| == |calls|
    ensures arrivals != [] ==>
              NoneReady(n.calls.content, start + |arrivals| - 1) && NoneDueBy(n.tasks.wakeups, start + |arrivals| - 1)
    ensures IdsOnce(old(n.calls.content) + multiset(Flatten(arrivals))) ==>
              forall k :: 0 <= k < |calls| ==>
                Answered(results[k], calls[k].reqID, n.tasks.wakeups, n.replies, stages)
  {
    calls, results := RunTicks(n, arrivals, stages, start, callDraws, taskDraws);
    if IdsOnce(old(n.calls.content) + multiset(Flatten(arrivals))) {
      hide Answered, IdsOnce;
      RunRepliesPerCall(calls, results, n.tasks.wakeups, n.closed, n.replies, stages, start, old(n.calls.content),
                        Flatten(arrivals), n.calls.content, n.wipes > old(n.wipes));
    }
  }

  /** One tick of the runner. */
  method RunTick(n: Node, arrivals: seq<Call>, stages: nat, callDraws: nat -> CallCosts, taskDraws: nat -> Costs,
                 start: int, now: int, ghost calls: seq<Call>, ghost rs: seq<Result>, ghost made: seq<Timed>,
                 ghost had: multiset<Call>, ghost came: seq<Call>, ghost w0: nat)
    returns (batch: seq<Call>, more: seq<Result>)
    requires n.Valid() && 0 < start <= now && made == AllTasks(rs) && forall k :: |callDraws(k).work| == stages
    requires Books(calls, rs, n.tasks.wakeups, n.closed, n.replies, stages, start) && !n.phase.WipingCalls?
    requires Conserved(had, came, calls, n.calls.content, n.wipes > w0) && w0 <= n.wipes
    modifies n, n.res, n.tasks, n.calls, n.tasks.wakeups.Keys
    modifies n.tasks.heap, n.calls.heap, n.tasks.heap.Repr, n.calls.heap.Repr
    ensures n.Valid() && n.SameOrFresh()
    ensures Books(calls + batch, rs + more, n.tasks.wakeups, n.closed, n.replies, stages, start)
    ensures Conserved(had, came + arrivals, calls + batch, n.calls.content, n.wipes > w0) && w0 <= n.wipes
    ensures NoneReady(n.calls.content, now) && NoneDueBy(n.tasks.wakeups, now)
    ensures forall x :: x in n.tasks.wakeups ==> x in old(n.tasks.wakeups) || fresh(x)
  {
    hide TaskQueue.Valid, CallQueue.Valid, Sound, Books, Conserved, Arrived;
    ghost var p, w, waiting := n.phase, n.wipes, n.calls.content;
    batch, more := RunCalls(n, arrivals, stages, callDraws, start, now, calls, rs, made);
    ghost var p1, w1, has1 := n.phase, n.wipes, n.calls.content;
    RunTasks(n, stages, taskDraws, start, now, calls + batch, rs + more);
    ConservedTick(had, came, calls, waiting, w0, p, w, arrivals, batch, p1, w1, has1,
                  n.phase, n.wipes, n.calls.content);
  }

  method RunTicks(n: Node, arrivals: seq<seq<Call>>, stages: nat, start: int,
                  callDraws: nat -> nat -> CallCosts, taskDraws: nat -> nat -> Costs)
    returns (calls: seq<Call>, results: seq<Result>)
    requires n.Valid() && start > 0 && forall t, k :: |callDraws(t)(k).work| == stages
    requires n.tasks.wakeups == map[] && n.closed == [] && n.replies == []
    modifies n, n.res, n.tasks, n.calls, n.tasks.heap, n.calls.heap, n.tasks.heap.Repr, n.calls.heap.Repr
    ensures n.Valid()
    ensures Books(calls, results, n.tasks.wakeups, n.closed, n.replies, stages, start)
    ensures Conserved(old(n.calls.content), Flatten(arrivals), calls, n.calls.content, n.wipes > old(n.wipes))
    ensures arrivals != [] ==>
              NoneReady(n.calls.content, start + |arrivals| - 1) && NoneDueBy(n.tasks.wakeups, start + |arrivals| - 1)
  {
    hide TaskQueue.Valid, CallQueue.Valid, Sound, Books, Conserved, Flatten, NoneReady, NoneDueBy;
    calls, results := [], [];
    ghost var made, had, w0 := [], n.calls.content, n.wipes;
    BooksOpen(stages, start);
    ConservedNone(had);
    var k := 0;
    while k < |arrivals|
      invariant 0 <= k <= |arrivals| && n.Valid() && n.SameOrFresh()
      invariant made == AllTasks(results)
      invariant Books(calls, results, n.tasks.wakeups, n.closed, n.replies, stages, start)
      invariant Conserved(had, Flatten(arrivals[..k]), calls, n.calls.content, n.wipes > w0) && w0 <= n.wipes
      invariant k > 0 ==> NoneReady(n.calls.content, start + k - 1) && NoneDueBy(n.tasks.wakeups, start + k - 1)
      invariant forall t :: t in n.tasks.wakeups ==> fresh(t)
    {
      n.phase := if n.res == null then Done else Waiting;
      var batch, more := RunTick(n, arrivals[k], stages, callDraws(k), taskDraws(k), start, start + k,
                                 calls, results, made, had, Flatten(arrivals[..k]), w0);
      TasksExtend(results, more);
      FlattenNext(arrivals, k);
      calls, results, made := calls + batch, results + more, made + AllTasks(more);
      k := k + 1;
    }
    assert arrivals[..k] == arrivals;
  }

  lemma ConservedNone(had: multiset<Call>)
    ensures Conserved(had, Flatten([]), [], had, false)
  {}

  lemma BooksOpen(stages: nat, start: int)
    ensures Books([], [], map[], [], [], stages, start)
  {}

  /** What every run guarantees of every call it turned into tasks. */
  lemma RunKeepsBudget(calls: seq<Call>, rs: seq<Result>, queue: map<Task, real>, closed: seq<Closing>,
                       replies: seq<Reply>, stages: nat, start: int, k: nat)
    requires Books(calls, rs, queue, closed, replies, stages, start)
    requires k < |rs| && rs[k].Taken?
    ensures RepliesBy(closed, rs[k].tasks, false) + LiveOf(queue, rs[k].tasks) <= stages
    ensures RepliesBy(closed, rs[k].tasks, true) <= 1
    ensures RepliesBy(closed, rs[k].tasks, true) == 1 ==>
              stages > 0 && rs[k].tasks[stages - 1].0 in ClosedSet(closed)
  {
    TasksDistinct(rs, k);
    ReplyBudget(AllTasks(rs), queue, closed, rs[k].tasks, calls[k], stages, start);
  }

  // ----- The same, on the replies sent -----

  /** How many of the replies carry this id; only those of status 0 when okOnly. */
  function Carrying(replies: seq<Reply>, id: int, okOnly: bool): nat {
    if replies == [] then 0
    else
      var r := replies[|replies| - 1];
      Carrying(replies[..|replies| - 1], id, okOnly)
      + (if r.reqID == id && (okOnly ==> r.status == STATUS_OK) then 1 else 0)
  }

  lemma {:induction false} CarryingConcat(a: seq<Reply>, b: seq<Reply>, id: int, okOnly: bool)
    ensures Carrying(a + b, id, okOnly) == Carrying(a, id, okOnly) + Carrying(b, id, okOnly)
    decreases |b|
  {
    if b == [] {
      assert a + b == a;
    } else {
      CarryingConcat(a, b[..|b| - 1], id, okOnly);
      assert (a + b)[..|a + b| - 1] == a + b[..|b| - 1];
    }
  }

  lemma CarryingOne(r: Reply, id: int, okOnly: bool)
    ensures Carrying([r], id, okOnly) == if r.reqID == id && (okOnly ==> r.status == STATUS_OK) then 1 else 0
  {
    assert [r][..0] == [];
  }

  /** Taking one reply out takes just its own count away. */
  lemma CarryingWithout(b: seq<Reply>, i: nat, id: int, okOnly: bool)
    requires i < |b|
    ensures multiset(b[..i] + b[i + 1..]) == multiset(b) - multiset{b[i]}
    ensures Carrying(b, id, okOnly) == Carrying(b[..i] + b[i + 1..], id, okOnly) + Carrying([b[i]], id, okOnly)
  {
    hide Carrying;
    var front, back := b[..i], b[i + 1..];
    WithoutOne(b, i);
    CarryingConcat(front, back, id, okOnly);
    CarryingConcat(front + [b[i]], back, id, okOnly);
    CarryingConcat(front, [b[i]], id, okOnly);
  }

  /** Order does not matter to the count. */
  lemma {:induction false} CarryingReordered(a: seq<Reply>, b: seq<Reply>, id: int, okOnly: bool)
    requires multiset(a) == multiset(b)
    ensures Carrying(a, id, okOnly) == Carrying(b, id, okOnly)
    decreases |a|
  {
    if a == [] {
      assert |multiset(b)| == 0;
    } else {
      hide Carrying;
      assert a[0] in multiset(b);
      var i :| 0 <= i < |b| && b[i] == a[0];
      CarryingWithout(a, 0, id, okOnly);
      CarryingWithout(b, i, id, okOnly);
      CarryingReordered(a[..0] + a[1..], b[..i] + b[i + 1..], id, okOnly);
    }
  }

  /** Every task made was made for one call. */
  lemma {:induction false} MadeFor(rs: seq<Result>, t: Task) returns (j: nat)
    requires Among(t, AllTasks(rs))
    ensures j < |rs| && rs[j].Taken? && Among(t, rs[j].tasks)
    decreases |rs|
  {
    var n := |rs| - 1;
    var i :| 0 <= i < |AllTasks(rs)| && AllTasks(rs)[i].0 == t;
    if i < |AllTasks(rs[..n])| {
      assert AllTasks(rs[..n])[i].0 == t;
      j := MadeFor(rs[..n], t);
    } else {
      assert TasksOf(rs[n])[i - |AllTasks(rs[..n])|].0 == t;
      j := n;
    }
  }

  /** Call k's id is its own. */
  ghost predicate Unique(calls: seq<Call>, k: nat)
    requires k < |calls|
  {
    forall j :: 0 <= j < |calls| && calls[j].reqID == calls[k].reqID ==> j == k
  }

  lemma CarriesItsId(calls: seq<Call>, rs: seq<Result>, stages: nat, start: int, k: nat, t: Task)
    requires |rs| == |calls| && k < |calls| && Unique(calls, k) && Among(t, AllTasks(rs))
    requires forall j :: 0 <= j < |rs| && rs[j].Taken? ==> StageTasks(rs[j].tasks, calls[j], stages, start)
    ensures t.call.reqID == calls[k].reqID <==> Among(t, TasksOf(rs[k]))
  {
    var j := MadeFor(rs, t);
    assert t.call == calls[j];
  }

  lemma {:induction false} CarryingClosed(calls: seq<Call>, rs: seq<Result>, stages: nat, start: int, k: nat,
                                          closed: seq<Closing>, okOnly: bool)
    requires |rs| == |calls| && k < |calls| && Unique(calls, k)
    requires forall j :: 0 <= j < |rs| && rs[j].Taken? ==> StageTasks(rs[j].tasks, calls[j], stages, start)
    requires forall i :: 0 <= i < |closed| ==> Among(closed[i].task, AllTasks(rs))
    ensures Carrying(RepliesFor(closed), calls[k].reqID, okOnly) == RepliesBy(closed, TasksOf(rs[k]), okOnly)
    decreases |closed|
  {
    hide Unique, StageTasks, Among, AllTasks, TasksOf, RepliesFor, RepliesBy;
    if closed == [] {
      LogsNone();
      NothingBy(TasksOf(rs[k]), okOnly);
    } else {
      var n := |closed| - 1;
      CarryingClosed(calls, rs, stages, start, k, closed[..n], okOnly);
      CarriesItsId(calls, rs, stages, start, k, closed[n].task);
      CarryingLast(closed, TasksOf(rs[k]), calls[k].reqID, okOnly);
    }
  }

  lemma NothingBy(ts: seq<Timed>, okOnly: bool)
    ensures RepliesBy([], ts, okOnly) == 0
  {}

  lemma CarryingLast(closed: seq<Closing>, ts: seq<Timed>, id: int, okOnly: bool)
    requires closed != [] && (closed[|closed| - 1].task.call.reqID == id <==> Among(closed[|closed| - 1].task, ts))
    ensures Carrying(RepliesFor(closed), id, okOnly) - Carrying(RepliesFor(closed[..|closed| - 1]), id, okOnly)
         == RepliesBy(closed, ts, okOnly) - RepliesBy(closed[..|closed| - 1], ts, okOnly)
  {
    hide Among, Carrying;
    var front, c := closed[..|closed| - 1], closed[|closed| - 1];
    if c.fate.Rejected? {
      CarryingConcat(RepliesFor(front), [ErrorReply(c.task.call)], id, okOnly);
      CarryingOne(ErrorReply(c.task.call), id, okOnly);
    } else if AnswersOk(c) {
      CarryingConcat(RepliesFor(front), [OkReply(c.task)], id, okOnly);
      CarryingOne(OkReply(c.task), id, okOnly);
    } else {
      assert RepliesFor(front) + [] == RepliesFor(front);
    }
  }

  lemma {:induction false} CarryingRefusals(calls: seq<Call>, rs: seq<Result>, k: nat, okOnly: bool)
    requires |rs| <= |calls| && k < |calls| && Unique(calls, k)
    ensures Carrying(Refusals(calls, rs), calls[k].reqID, okOnly)
         == if k < |rs| && rs[k].Refused? && !okOnly then 1 else 0
    decreases |rs|
  {
    if rs != [] {
      var n, id := |rs| - 1, calls[k].reqID;
      CarryingRefusals(calls, rs[..n], k, okOnly);
      if rs[n].Refused? {
        CarryingConcat(Refusals(calls, rs[..n]), [ErrorReply(calls[n])], id, okOnly);
        CarryingOne(ErrorReply(calls[n]), id, okOnly);
      } else {
        assert Refusals(calls, rs) == Refusals(calls, rs[..n]);
      }
    }
  }

  /** Among the replies sent with the id of a call: at most one per stage less
      its live tasks, and at most one of them a success, if it was turned into
      tasks; exactly one, an error, if it was refused; none if its memory charge
      killed the node. */
  ghost predicate Answered(r: Result, id: int, queue: map<Task, real>, replies: seq<Reply>, stages: nat) {
    match r
    case Taken(ts) => Carrying(replies, id, false) + LiveOf(queue, ts) <= stages && Carrying(replies, id, true) <= 1
    case Refused => Carrying(replies, id, false) == 1 && Carrying(replies, id, true) == 0
    case Dropped => Carrying(replies, id, false) == 0
  }

  lemma RepliesPerCall(calls: seq<Call>, rs: seq<Result>, queue: map<Task, real>, closed: seq<Closing>,
                       replies: seq<Reply>, stages: nat, start: int, k: nat)
    requires Books(calls, rs, queue, closed, replies, stages, start) && k < |calls| && Unique(calls, k)
    ensures Answered(rs[k], calls[k].reqID, queue, replies, stages)
  {
    var id := calls[k].reqID;
    forall okOnly: bool
      ensures Carrying(replies, id, okOnly) == RepliesBy(closed, TasksOf(rs[k]), okOnly)
                                             + (if rs[k].Refused? && !okOnly then 1 else 0)
    {
      CarryingClosed(calls, rs, stages, start, k, closed, okOnly);
      CarryingRefusals(calls, rs, k, okOnly);
      CarryingConcat(RepliesFor(closed), Refusals(calls, rs), id, okOnly);
      CarryingReordered(replies, RepliesFor(closed) + Refusals(calls, rs), id, okOnly);
    }
    if rs[k].Taken? {
      RunKeepsBudget(calls, rs, queue, closed, replies, stages, start, k);
    } else {
      NoneBy(closed, false);
      NoneBy(closed, true);
    }
  }

  /** Each of these calls is there once, and its id is no other's. */
  ghost predicate IdsOnce(m: multiset<Call>) {
    && (forall c :: c in m ==> m[c] == 1)
    && (forall c, d :: c in m && d in m && c.reqID == d.reqID ==> c == d)
  }

  lemma IdsUnique(m: multiset<Call>, calls: seq<Call>, k: nat)
    requires IdsOnce(m) && multiset(calls) <= m && k < |calls|
    ensures Unique(calls, k)
  {
    forall j | 0 <= j < |calls| && calls[j].reqID == calls[k].reqID ensures j == k {
      assert calls[j] in multiset(calls) && calls[k] in multiset(calls);
      if j != k { TwiceThere(calls, j, k); }
    }
  }

  /** If the calls that were there and that came have ids of their own, so have
      those processed, and every one of them is answered as its result says. */
  lemma RunRepliesPerCall(calls: seq<Call>, rs: seq<Result>, queue: map<Task, real>, closed: seq<Closing>,
                          replies: seq<Reply>, stages: nat, start: int, had: multiset<Call>, came: seq<Call>,
                          waiting: multiset<Call>, wiped: bool)
    requires Books(calls, rs, queue, closed, replies, stages, start)
    requires Conserved(had, came, calls, waiting, wiped) && IdsOnce(had + multiset(came))
    ensures forall k :: 0 <= k < |calls| ==> Answered(rs[k], calls[k].reqID, queue, replies, stages)
  {
    hide Answered, IdsOnce;
    forall k | 0 <= k < |calls| ensures Answered(rs[k], calls[k].reqID, queue, replies, stages) {
      IdsUnique(had + multiset(came), calls, k);
      RepliesPerCall(calls, rs, queue, closed, replies, stages, start, k);
    }
  }

  lemma {:induction false} NoneBy(closed: seq<Closing>, okOnly: bool)
    ensures RepliesBy(closed, [], okOnly) == 0
    decreases |closed|
  {
    if closed != [] { NoneBy(closed[..|closed| - 1], okOnly); }
  }

  lemma {:induction false} TasksDistinct(rs: seq<Result>, k: nat)
    requires Distinct(AllTasks(rs)) && k < |rs|
    ensures Distinct(TasksOf(rs[k]))
  {
    hide Distinct;
    var n := |rs| - 1;
    DistinctParts(AllTasks(rs[..n]), TasksOf(rs[n]));
    if k < n { TasksDistinct(rs[..n], k); }
  }

  lemma DistinctParts(a: seq<Timed>, b: seq<Timed>)
    requires Distinct(a + b)
    ensures Distinct(a) && Distinct(b)
  {
    forall i, j | 0 <= i < j < |a| ensures a[i].0 != a[j].0 { assert (a + b)[i].0 != (a + b)[j].0; }
    forall i, j | 0 <= i < j < |b| ensures b[i].0 != b[j].0 { assert (a + b)[|a| + i].0 != (a + b)[|a| + j].0; }
  }
}
