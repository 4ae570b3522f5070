/** A node's `tasks` heap behind its lock (node.go): addTask, the peek-and-pop
    of handleTasks, and the replacement of the heap by fullOOMCleanup. */
module TaskQueues {
  import opened Types
  import opened PQueues

  /** One stage of work for a call. `isLast` says nextTask is nil; the closure
      `later` is known by its stage. */
  class Task {
    var wakeup: real
    const call: Call
    const stage: nat
    const isLast: bool

    constructor (call: Call, stage: nat, isLast: bool, wakeup: real)
      ensures this.call == call && this.stage == stage && this.isLast == isLast && this.wakeup == wakeup
    {
      this.call := call;
      this.stage := stage;
      this.isLast := isLast;
      this.wakeup := wakeup;
    }
  }

  /** A heap holds each task of the map once, filed under its truncated wakeup. */
  ghost predicate Filed(es: multiset<(Task, int)>, m: map<Task, real>) {
    && (forall e :: e in es ==> e.0 in m && e.1 == Trunc(m[e.0]) && es[e] == 1)
    && (forall t :: t in m ==> (t, Trunc(m[t])) in es)
  }

  lemma FiledAdd(es: multiset<(Task, int)>, m: map<Task, real>, t: Task, w: real)
    requires Filed(es, m) && t !in m
    ensures Filed(es + multiset{(t, Trunc(w))}, m[t := w])
  {
    assert (t, Trunc(w)) !in es;
  }

  lemma FiledRemove(es: multiset<(Task, int)>, m: map<Task, real>, e: (Task, int))
    requires Filed(es + multiset{e}, m)
    ensures e.0 in m && e.1 == Trunc(m[e.0])
    ensures Filed(es, m - {e.0})
  {
    var all := es + multiset{e};
    assert e in all;
    forall x | x in es ensures x.0 in m - {e.0} && x.1 == Trunc(m[x.0]) && es[x] == 1 {
      assert x in all;
      assert x.0 == e.0 ==> x == e;
      assert all[e] == es[e] + 1 == 1;
    }
    forall t | t in m - {e.0} ensures (t, Trunc(m[t])) in es {
      assert (t, Trunc(m[t])) in all;
    }
  }

  lemma FiledLeast(es: multiset<(Task, int)>, m: map<Task, real>, p: int)
    requires Filed(es, m) && forall e :: e in es ==> p <= e.1
    ensures forall t :: t in m ==> p <= Trunc(m[t])
  {
    forall t | t in m ensures p <= Trunc(m[t]) {
      assert (t, Trunc(m[t])) in es;
    }
  }

  lemma FiledAbove(es: multiset<(Task, int)>, m: map<Task, real>, now: int)
    requires Filed(es, m) && forall e :: e in es ==> e.1 > now
    ensures forall t :: t in m ==> Trunc(m[t]) > now
  {
    forall t | t in m ensures Trunc(m[t]) > now {
      assert (t, Trunc(m[t])) in es;
    }
  }

  class TaskQueue {
    const heap: PQueue<Task>
    ghost var wakeups: map<Task, real>

    constructor ()
      ensures Valid() && wakeups == map[] && fresh(heap) && fresh(heap.Repr)
    {
      heap := new PQueue();
      wakeups := map[];
    }

    ghost predicate Valid()
      reads this, heap, heap.Repr, wakeups.Keys
    {
      && heap.Valid()
      && Filed(heap.content, wakeups)
      && forall t :: t in wakeups ==> wakeups[t] == t.wakeup
    }

    method Add(t: Task)
      requires Valid() && t !in wakeups
      modifies this, heap, heap.Repr
      ensures Valid() && wakeups == old(wakeups)[t := t.wakeup]
      ensures fresh(heap.Repr - old(heap.Repr))
    {
      hide PQueue.Valid, Filed;
      var i := new Item(t, Trunc(t.wakeup));
      FiledAdd(heap.content, wakeups, t, t.wakeup);
      heap.HeapPush(i);
      wakeups := wakeups[t := t.wakeup];
    }

    /** Peek at the earliest task and pop it if its truncated wakeup has come. */
    method PopDue(now: int) returns (t: Task?)
      requires Valid()
      modifies this, heap, heap.Repr
      ensures Valid() && heap.Repr <= old(heap.Repr)
      ensures t == null ==> wakeups == old(wakeups) && forall x :: x in wakeups ==> Trunc(wakeups[x]) > now
      ensures t != null ==> t in old(wakeups) && t.wakeup == old(wakeups)[t] && Trunc(t.wakeup) <= now
      ensures t != null ==> wakeups == old(wakeups) - {t}
      ensures t != null ==> forall x :: x in old(wakeups) ==> Trunc(t.wakeup) <= Trunc(old(wakeups)[x])
    {
      hide PQueue.Valid, Filed;
      var next := heap.Peak();
      if next == null || next.priority > now {
        FiledAbove(heap.content, wakeups, now);
        return null;
      }
      FiledLeast(heap.content, wakeups, next.priority);
      var item := heap.HeapPop();
      FiledRemove(heap.content, wakeups, (item.value, item.priority));
      t := item.value;
      wakeups := wakeups - {t};
    }

    method Wipe()
      modifies this, heap
      ensures Valid() && wakeups == map[] && heap.Repr == {}
    {
      heap.Clear();
      wakeups := map[];
    }
  }
}
