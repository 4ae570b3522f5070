/** A node's `calls` heap behind its lock (node.go): addCall and the extraction
    loop of handleCalls. */
module CallQueues {
  import opened Types
  import opened PQueues

  /** A heap holds each call under its truncated wakeup. */
  ghost predicate Filed(es: multiset<(Call, int)>, m: multiset<Call>) {
    && (forall e :: e in es ==> e.1 == Trunc(e.0.wakeup))
    && (forall c: Call :: m[c] == es[(c, Trunc(c.wakeup))])
  }

  lemma FiledAdd(es: multiset<(Call, int)>, m: multiset<Call>, c: Call)
    requires Filed(es, m)
    ensures Filed(es + multiset{(c, Trunc(c.wakeup))}, m + multiset{c})
  {}

  lemma FiledRemove(es: multiset<(Call, int)>, m: multiset<Call>, e: (Call, int))
    requires Filed(es + multiset{e}, m)
    ensures e.1 == Trunc(e.0.wakeup) && e.0 in m && Filed(es, m - multiset{e.0})
  {
    assert e in es + multiset{e};
  }

  /** Truncation blurs no test against an integral time exactly when that time
      is positive: at or before zero it misses the wakeups just before it. */
  lemma ReadyTest(now: int)
    ensures (forall w: real :: Trunc(w) < now <==> w < now as real) <==> now > 0
  {
    var w := now as real - 0.5;
    assert now <= 0 ==> (-w).Floor == -now && Trunc(w) == now && w < now as real;
  }

  predicate Ready(c: Call, now: int) {
    c.wakeup < now as real
  }

  ghost predicate SortedByPriority(s: seq<Call>) {
    forall i, j :: 0 <= i < j < |s| ==> Trunc(s[i].wakeup) <= Trunc(s[j].wakeup)
  }

  /** batch and rest split whole by readiness: each call keeps its multiplicity,
      wholly on the side its wakeup says. */
  ghost predicate SplitByReady(whole: multiset<Call>, batch: multiset<Call>, rest: multiset<Call>, now: int) {
    && (forall c: Call :: batch[c] == if Ready(c, now) then whole[c] else 0)
    && (forall c: Call :: rest[c] == if Ready(c, now) then 0 else whole[c])
  }

  /** Part-way through: what has been popped is ready and due no later than
      anything left. */
  ghost predicate Extracting(whole: multiset<Call>, batch: seq<Call>, rest: multiset<Call>, now: int) {
    && whole == multiset(batch) + rest
    && SortedByPriority(batch)
    && (forall c :: c in batch ==> Ready(c, now) && forall r :: r in rest ==> Trunc(c.wakeup) <= Trunc(r.wakeup))
  }

  lemma ExtractNone(whole: multiset<Call>, now: int)
    ensures Extracting(whole, [], whole, now)
  {}

  lemma ExtractOne(whole: multiset<Call>, batch: seq<Call>, rest: multiset<Call>, now: int, c: Call)
    requires now > 0 && Extracting(whole, batch, rest, now) && c in rest && Ready(c, now)
    requires forall r :: r in rest ==> Trunc(c.wakeup) <= Trunc(r.wakeup)
    ensures Extracting(whole, batch + [c], rest - multiset{c}, now)
  {
    forall x | x in batch + [c]
      ensures Ready(x, now) && forall r :: r in rest - multiset{c} ==> Trunc(x.wakeup) <= Trunc(r.wakeup)
    {}
    forall i, j | 0 <= i < j < |batch| + 1
      ensures Trunc((batch + [c])[i].wakeup) <= Trunc((batch + [c])[j].wakeup)
    {
      assert batch + [c] != [] && (i < |batch| ==> batch[i] in batch);
    }
  }

  lemma ExtractDone(whole: multiset<Call>, batch: seq<Call>, rest: multiset<Call>, now: int)
    requires Extracting(whole, batch, rest, now) && forall r :: r in rest ==> !Ready(r, now)
    ensures SplitByReady(whole, multiset(batch), rest, now) && SortedByPriority(batch)
  {
    forall c: Call ensures multiset(batch)[c] == if Ready(c, now) then whole[c] else 0 {
      if !Ready(c, now) { assert c !in batch; }
    }
  }

  lemma SplitParts(whole: multiset<Call>, batch: seq<Call>, rest: multiset<Call>, now: int)
    requires SplitByReady(whole, multiset(batch), rest, now)
    ensures multiset(batch) + rest == whole
    ensures forall c :: c in batch ==> c.wakeup < now as real
    ensures forall c :: c in rest ==> c.wakeup >= now as real
  {
    forall c | c in batch ensures c.wakeup < now as real { assert multiset(batch)[c] > 0; }
    forall c | c in rest ensures c.wakeup >= now as real { assert rest[c] > 0; }
  }

  class CallQueue {
    const heap: PQueue<Call>
    ghost var content: multiset<Call>

    constructor ()
      ensures Valid() && content == multiset{} && fresh(heap) && fresh(heap.Repr)
    {
      heap := new PQueue();
      content := multiset{};
    }

    ghost predicate Valid()
      reads this, heap, heap.Repr
    {
      heap.Valid() && Filed(heap.content, content)
    }

    method AddCall(c: Call)
      requires Valid()
      modifies this, heap, heap.Repr
      ensures Valid() && content == old(content) + multiset{c}
      ensures fresh(heap.Repr - old(heap.Repr))
    {
      hide PQueue.Valid, Filed;
      var i := new Item(c, Trunc(c.wakeup));
      FiledAdd(heap.content, content, c);
      heap.HeapPush(i);
      content := content + multiset{c};
    }

    /** Peek at the earliest call and pop it if its priority is before now. */
    method PopReady(now: int) returns (r: Option<Call>)
      requires Valid() && now > 0
      modifies this, heap, heap.Repr
      ensures Valid() && heap.Repr <= old(heap.Repr)
      ensures r.None? ==> content == old(content) && forall x :: x in content ==> !Ready(x, now)
      ensures r.Some? ==> r.value in old(content) && content == old(content) - multiset{r.value}
      ensures r.Some? ==> Ready(r.value, now)
      ensures r.Some? ==> forall x :: x in old(content) ==> Trunc(r.value.wakeup) <= Trunc(x.wakeup)
    {
      hide PQueue.Valid, Filed, Trunc;
      var next := heap.Peak();
      ghost var es, m := heap.content, content;
      if next == null {
        NothingFiled(m, es);
        return None;
      }
      Lowest(es, m, (next.value, next.priority), now);
      if next.priority < now {
        var c := PopFirst();
        ReadyTest(now);
        return Some(c);
      }
      return None;
    }

    method PopFirst() returns (c: Call)
      requires Valid() && heap.items != []
      modifies this, heap, heap.Repr
      ensures Valid() && heap.Repr <= old(heap.Repr)
      ensures c in old(content) && content == old(content) - multiset{c}
      ensures forall e :: e in old(heap.content) ==> Trunc(c.wakeup) <= e.1
      ensures forall x :: x in old(content) ==> Trunc(c.wakeup) <= Trunc(x.wakeup)
    {
      hide PQueue.Valid, Filed, Trunc;
      ghost var es, m := heap.content, content;
      var item := heap.HeapPop();
      FiledRemove(heap.content, m, (item.value, item.priority));
      FirstOfAll(es, m, item.priority);
      content := content - multiset{item.value};
      c := item.value;
    }

    /** The locked loop at the head of handleCalls. */
    method ExtractReady(now: int) returns (batch: seq<Call>)
      requires Valid() && now > 0
      modifies this, heap, heap.Repr
      ensures Valid() && heap.Repr <= old(heap.Repr)
      ensures SplitByReady(old(content), multiset(batch), content, now)
      ensures SortedByPriority(batch) && multiset(batch) + content == old(content)
      ensures forall c :: c in batch ==> c.wakeup < now as real
      ensures forall c :: c in content ==> c.wakeup >= now as real
    {
      hide CallQueue.Valid, Extracting, SplitByReady, SortedByPriority, Ready, Trunc;
      batch := [];
      ExtractNone(content, now);
      var more := true;
      while more
        invariant Valid() && heap.Repr <= old(heap.Repr)
        invariant Extracting(old(content), batch, content, now)
        invariant !more ==> forall x :: x in content ==> !Ready(x, now)
        decreases more, |content|
      {
        ghost var rest := content;
        var next := PopReady(now);
        if next.Some? {
          ExtractOne(old(content), batch, rest, now, next.value);
          batch := batch + [next.value];
        } else {
          more := false;
        }
      }
      ExtractDone(old(content), batch, content, now);
      SplitParts(old(content), batch, content, now);
    }

    method Wipe()
      modifies this, heap
      ensures Valid() && content == multiset{} && heap.Repr == {}
    {
      heap.Clear();
      content := multiset{};
    }
  }

  lemma FirstOfAll(es: multiset<(Call, int)>, m: multiset<Call>, p: int)
    requires Filed(es, m) && forall e :: e in es ==> p <= e.1
    ensures forall x :: x in m ==> p <= Trunc(x.wakeup)
  {
    forall x | x in m ensures p <= Trunc(x.wakeup) { assert (x, Trunc(x.wakeup)) in es; }
  }

  lemma Lowest(es: multiset<(Call, int)>, m: multiset<Call>, e: (Call, int), now: int)
    requires Filed(es, m) && e in es && forall x :: x in es ==> e.1 <= x.1
    requires now > 0
    ensures e.1 == Trunc(e.0.wakeup) && (e.1 < now <==> Ready(e.0, now))
    ensures forall r :: r in m ==> Trunc(e.0.wakeup) <= Trunc(r.wakeup)
    ensures e.1 >= now ==> forall r :: r in m ==> !Ready(r, now)
  {
    ReadyTest(now);
    forall r | r in m ensures Trunc(e.0.wakeup) <= Trunc(r.wakeup) {
      assert (r, Trunc(r.wakeup)) in es;
    }
  }

  lemma NothingFiled(m: multiset<Call>, es: multiset<(Call, int)>)
    requires Filed(es, m) && es == multiset{}
    ensures forall r :: r !in m
  {}
}
