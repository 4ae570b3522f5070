/** pqueue.go: the indexed binary min-heap behind a node's `calls` and `tasks`,
    with the entry points of Go's container/heap written out. */
module PQueues {

  class Item<T> {
    var value: T
    var priority: int
    var index: int

    constructor (value: T, priority: int)
      ensures this.value == value && this.priority == priority
    {
      this.value := value;
      this.priority := priority;
      index := 0;
    }
  }

  function Parent(j: int): int
    requires j >= 1
  {
    (j - 1) / 2
  }

  // ----- Heap order, on the (value, priority) pairs position by position -----

  /** Heap order among the first n positions whose parent is lo or later. */
  ghost predicate Ordered<T>(p: seq<(T, int)>, lo: int, n: int)
    requires n <= |p|
  {
    forall j :: 1 <= j < n && Parent(j) >= lo ==> p[Parent(j)].1 <= p[j].1
  }

  /** The children of `hole` are no smaller than its parent. */
  ghost predicate Bridged<T>(p: seq<(T, int)>, lo: int, n: int, hole: int)
    requires n <= |p|
  {
    forall c :: 1 <= c < n && Parent(c) == hole && hole >= 1 && Parent(hole) >= lo ==> p[Parent(hole)].1 <= p[c].1
  }

  /** Order fails at most between `hole` and its parent. */
  ghost predicate CanRise<T>(p: seq<(T, int)>, lo: int, n: int, hole: int)
    requires n <= |p|
  {
    && Bridged(p, lo, n, hole)
    && forall j :: 1 <= j < n && Parent(j) >= lo && j != hole ==> p[Parent(j)].1 <= p[j].1
  }

  /** Order fails at most between `hole` and its parent or its children. */
  ghost predicate CanSink<T>(p: seq<(T, int)>, lo: int, n: int, hole: int)
    requires n <= |p|
  {
    && Bridged(p, lo, n, hole)
    && forall j :: 1 <= j < n && Parent(j) >= lo && j != hole && Parent(j) != hole ==> p[Parent(j)].1 <= p[j].1
  }

  ghost predicate NoLesserChild<T>(p: seq<(T, int)>, n: int, hole: int)
    requires n <= |p| && (0 <= hole < n || n == 0)
  {
    forall c :: 1 <= c < n && Parent(c) == hole ==> p[hole].1 <= p[c].1
  }

  ghost function Swapped<T>(p: seq<(T, int)>, i: nat, j: nat): (q: seq<(T, int)>)
    requires i < |p| && j < |p|
    ensures |q| == |p| && q[i] == p[j] && q[j] == p[i]
    ensures forall k :: 0 <= k < |p| && k != i && k != j ==> q[k] == p[k]
    ensures multiset(q) == multiset(p)
  {
    p[i := p[j]][j := p[i]]
  }

  lemma RiseStep<T>(p: seq<(T, int)>, j: nat)
    requires 1 <= j < |p| && CanRise(p, 0, |p|, j) && p[j].1 < p[Parent(j)].1
    ensures CanRise(Swapped(p, Parent(j), j), 0, |p|, Parent(j))
  {
    var i := Parent(j);
    var q := Swapped(p, i, j);
    forall k | 1 <= k < |q| && k != i ensures q[Parent(k)].1 <= q[k].1 {
      assert k != j ==> p[Parent(k)].1 <= p[k].1;
    }
    forall c | 1 <= c < |q| && Parent(c) == i && i >= 1 ensures q[Parent(i)].1 <= q[c].1 {
      assert p[Parent(i)].1 <= p[i].1;
    }
  }

  lemma SinkStep<T>(p: seq<(T, int)>, lo: nat, n: nat, i: nat, j: nat)
    requires lo <= i && 1 <= j < n <= |p| && Parent(j) == i && CanSink(p, lo, n, i) && p[j].1 < p[i].1
    requires forall c :: 1 <= c < n && Parent(c) == i ==> p[j].1 <= p[c].1
    ensures CanSink(Swapped(p, i, j), lo, n, j)
    ensures Swapped(p, i, j)[i].1 <= Swapped(p, i, j)[j].1
  {
    var q := Swapped(p, i, j);
    forall k | 1 <= k < n && Parent(k) >= lo && k != j && Parent(k) != j ensures q[Parent(k)].1 <= q[k].1 {
      assert k != i && Parent(k) != i ==> p[Parent(k)].1 <= p[k].1;
    }
    forall c | 1 <= c < n && Parent(c) == j ensures q[i].1 <= q[c].1 {
      assert p[Parent(c)].1 <= p[c].1;
    }
  }

  /** Sinking began at `start` and has reached `hole`. */
  ghost predicate Sinking<T>(p: seq<(T, int)>, lo: int, n: int, start: int, hole: int)
    requires n <= |p| && (0 <= hole < n || n == 0)
  {
    && CanSink(p, lo, n, hole)
    && (hole > start >= 0 && n > 0 ==> Parent(hole) >= lo && p[Parent(hole)].1 <= p[hole].1)
  }

  lemma SinkDone<T>(p: seq<(T, int)>, lo: nat, n: nat, start: nat, hole: nat)
    requires n <= |p| && (hole < n || n == 0) && start <= hole
    requires Sinking(p, lo, n, start, hole) && NoLesserChild(p, n, hole)
    ensures hole > start && n > 0 ==> Ordered(p, lo, n)
    ensures hole == start ==> CanRise(p, lo, n, start)
  {}

  lemma Leaves<T>(p: seq<(T, int)>)
    ensures Ordered(p, |p| / 2, |p|)
  {}

  lemma OrderedAfter<T>(p: seq<(T, int)>, i: nat)
    requires Ordered(p, i + 1, |p|)
    ensures CanSink(p, i, |p|, i)
  {}

  lemma RisenFrom<T>(p: seq<(T, int)>, i: nat)
    requires CanRise(p, i, |p|, i)
    ensures Ordered(p, i, |p|)
  {}

  lemma AppendedCanRise<T>(p: seq<(T, int)>, x: (T, int))
    requires Ordered(p, 0, |p|)
    ensures CanRise(p + [x], 0, |p| + 1, |p|)
  {
    var q := p + [x];
    forall j | 1 <= j < |p| ensures q[Parent(j)].1 <= q[j].1 {
      assert p[Parent(j)].1 <= p[j].1;
    }
  }

  lemma ReplacedCanSink<T>(p: seq<(T, int)>, q: seq<(T, int)>, k: nat)
    requires k < |p| == |q| && Ordered(p, 0, |p|)
    requires forall j :: 0 <= j < |p| && j != k ==> q[j] == p[j]
    ensures CanSink(q, 0, |q|, k)
    ensures multiset(q) == multiset(p) - multiset{p[k]} + multiset{q[k]}
  {
    assert q == p[k := q[k]];
    forall c | 1 <= c < |q| && Parent(c) == k && k >= 1 ensures q[Parent(k)].1 <= q[c].1 {
      assert p[Parent(k)].1 <= p[k].1 <= p[c].1;
    }
  }

  lemma {:induction false} RootIsMin<T>(p: seq<(T, int)>, n: nat)
    requires n <= |p| && Ordered(p, 0, n)
    ensures forall k :: 0 <= k < n ==> p[0].1 <= p[k].1
  {
    if n > 1 {
      RootIsMin(p, n - 1);
      assert p[Parent(n - 1)].1 <= p[n - 1].1;
    }
  }

  // ----- The queue -----

  class PQueue<T> {
    var items: seq<Item<T>>
    ghost var Repr: set<Item<T>>
    ghost var content: multiset<(T, int)>  // what the queue holds, whatever the order inside

    constructor ()
      ensures Valid() && items == [] && Repr == {} && content == multiset{}
    {
      items := [];
      Repr := {};
      content := multiset{};
    }

    /** A new, empty slice in place of this one (make(PQueue, 0)). */
    method Clear()
      modifies this
      ensures Valid() && items == [] && Repr == {} && content == multiset{}
    {
      items := [];
      Repr := {};
      content := multiset{};
    }

    /** Every item knows its own position, which also makes the items distinct. */
    ghost predicate Indexed()
      reads this`items, this`Repr, Repr
    {
      forall k :: 0 <= k < |items| ==> items[k] in Repr && items[k].index == k
    }

    ghost predicate Shows(p: seq<(T, int)>)
      requires Indexed()
      reads this`items, this`Repr, Repr
    {
      |p| == |items| && forall k :: 0 <= k < |items| ==> p[k] == (items[k].value, items[k].priority)
    }

    ghost function Pairs(): (p: seq<(T, int)>)
      requires Indexed()
      reads this`items, this`Repr, Repr
      ensures Shows(p)
    {
      PairsOf(items)
    }

    static ghost function PairsOf(s: seq<Item<T>>): (p: seq<(T, int)>)
      reads set it | it in s
      ensures |p| == |s| && forall k :: 0 <= k < |s| ==> p[k] == (s[k].value, s[k].priority)
    {
      if s == [] then [] else PairsOf(s[..|s| - 1]) + [(s[|s| - 1].value, s[|s| - 1].priority)]
    }

    ghost predicate Valid()
      reads this, Repr
    {
      Indexed() && Ordered(Pairs(), 0, |items|) && content == Entries()
    }

    ghost function Entries(): multiset<(T, int)>
      requires Indexed()
      reads this`items, this`Repr, Repr
    {
      multiset(Pairs())
    }

    predicate Less(i: nat, j: nat)
      requires i < |items| && j < |items| && Indexed()
      reads this`items, this`Repr, Repr
    {
      items[i].priority < items[j].priority
    }

    function Peak(): (r: Item?<T>)
      requires Valid()
      reads this, Repr
      ensures r == null <==> items == []
      ensures r == null ==> content == multiset{}
      ensures r != null ==> (r.value, r.priority) in content && forall e :: e in content ==> r.priority <= e.1
    {
      if items == [] then null else
        RootIsMin(Pairs(), |items|);
        assert Pairs()[0] == (items[0].value, items[0].priority);
        items[0]
    }

    method Swap(i: nat, j: nat)
      requires i < |items| && j < |items| && Indexed()
      modifies this`items, Repr`index
      ensures Indexed() && multiset(items) == multiset(old(items))
      ensures |items| == |old(items)| && items[i] == old(items[j]) && items[j] == old(items[i])
      ensures forall k :: 0 <= k < |items| && k != i && k != j ==> items[k] == old(items)[k]
      ensures Pairs() == Swapped(old(Pairs()), i, j)
    {
      var x, y := items[i], items[j];
      items := items[i := y][j := x];
      y.index := i;
      x.index := j;
    }

    /** container/heap's up. */
    method Up(start: nat)
      requires start < |items| && Indexed() && CanRise(Pairs(), 0, |items|, start)
      modifies this`items, Repr`index
      ensures Indexed() && Ordered(Pairs(), 0, |items|)
      ensures multiset(items) == multiset(old(items)) && Entries() == old(Entries())
    {
      var j := start;
      while true
        invariant 0 <= j < |items|
        invariant Indexed() && multiset(items) == multiset(old(items)) && Entries() == old(Entries())
        invariant CanRise(Pairs(), 0, |items|, j)
        decreases j
      {
        // Go's integer division truncates, so the root is its own parent here.
        var i := if j == 0 then 0 else Parent(j);
        if i == j || !Less(j, i) { break; }
        RiseStep(Pairs(), j);
        Swap(i, j);
        j := i;
      }
    }

    /** The choice of child inside container/heap's down; n if there is none. */
    method LesserChild(i: nat, n: nat) returns (j: nat)
      requires n <= |items| && Indexed() && (i < n || n == 0)
      ensures j <= n
      ensures j == n ==> forall c :: 1 <= c < n ==> Parent(c) != i
      ensures j < n ==> j >= 1 && Parent(j) == i
      ensures j < n ==> forall c :: 1 <= c < n && Parent(c) == i ==> Pairs()[j].1 <= Pairs()[c].1
    {
      var j1 := 2 * i + 1;
      if j1 >= n { return n; }
      j := if j1 + 1 < n && Less(j1 + 1, j1) then j1 + 1 else j1;
    }

    /** One round of container/heap's down; j == i when i has no smaller child. */
    method SinkOne(i: nat, n: nat, ghost lo: nat) returns (j: nat)
      requires lo <= i && (i < n || n == 0) && n <= |items| && Indexed() && CanSink(Pairs(), lo, n, i)
      modifies this`items, Repr`index
      ensures Indexed() && multiset(items) == multiset(old(items)) && Entries() == old(Entries())
      ensures |items| == |old(items)| && forall k :: n <= k < |items| ==> items[k] == old(items)[k]
      ensures CanSink(Pairs(), lo, n, j)
      ensures j == i ==> Pairs() == old(Pairs()) && NoLesserChild(Pairs(), n, i)
      ensures j != i ==> i < j < n && Parent(j) == i && Pairs()[i].1 <= Pairs()[j].1
    {
      hide CanSink;
      j := LesserChild(i, n);
      if j == n || !Less(j, i) { return i; }
      SinkStep(Pairs(), lo, n, i, j);
      Swap(i, j);
    }

    /** container/heap's down, on the first n positions; order is already known
        between positions whose parent is `lo` or later, away from `start`. */
    method Down(start: nat, n: nat, ghost lo: nat) returns (moved: bool)
      requires start < n <= |items| || n == start == 0
      requires lo <= start && Indexed() && CanSink(Pairs(), lo, n, start)
      modifies this`items, Repr`index
      ensures Indexed() && multiset(items) == multiset(old(items)) && Entries() == old(Entries())
      ensures |items| == |old(items)| && forall k :: n <= k < |items| ==> items[k] == old(items)[k]
      ensures moved ==> Ordered(Pairs(), lo, n)
      ensures !moved ==> CanRise(Pairs(), lo, n, start)
    {
      var i := start;
      ghost var was := items;
      var fin := false;
      while !fin
        invariant start <= i && n <= |items| == |was| && (i < n || n == start == i == 0)
        invariant Indexed() && multiset(items) == multiset(was) && Entries() == old(Entries())
        invariant forall k :: n <= k < |items| ==> items[k] == was[k]
        invariant Sinking(Pairs(), lo, n, start, i)
        invariant fin ==> NoLesserChild(Pairs(), n, i)
        decreases !fin, n - i
      {
        var j := SinkOne(i, n, lo);
        fin := j == i;
        i := j;
      }
      SinkDone(Pairs(), lo, n, start, i);
      moved := i > start;
    }

    /** heap.Interface's Push: append, recording the position. */
    method Append(item: Item<T>)
      requires item !in items && Indexed()
      modifies this`items, this`Repr, item`index
      ensures Indexed() && items == old(items) + [item] && Repr == old(Repr) + {item}
      ensures Pairs() == old(Pairs()) + [(item.value, item.priority)]
      ensures Entries() == old(Entries()) + multiset{(item.value, item.priority)}
    {
      item.index := |items|;
      items := items + [item];
      Repr := Repr + {item};
    }

    /** heap.Interface's Pop: detach the last item. */
    method DropLast() returns (item: Item<T>)
      requires items != [] && Indexed()
      modifies this`items, this`Repr, Repr`index
      ensures item == old(items[|items| - 1]) && item.index == -1
      ensures Indexed() && items + [item] == old(items) && Repr == old(Repr) - {item}
      ensures Pairs() + [(item.value, item.priority)] == old(Pairs())
    {
      item := items[|items| - 1];
      item.index := -1;
      items := items[..|items| - 1];
      Repr := Repr - {item};
    }

    /** Heap order among the positions whose parent is lo or later. */
    ghost predicate HeapFrom(lo: int)
      requires Indexed()
      reads this`items, this`Repr, Repr
    {
      Ordered(Pairs(), lo, |items|)
    }

    /** Order from position i on, given order from the one after it. */
    method SiftFrom(i: nat)
      requires i < |items| && Indexed() && HeapFrom(i + 1)
      modifies this`items, Repr`index
      ensures Indexed() && HeapFrom(i) && |items| == |old(items)|
      ensures multiset(items) == multiset(old(items)) && Entries() == old(Entries())
    {
      hide Ordered, CanSink, CanRise;
      OrderedAfter(Pairs(), i);
      var moved := Down(i, |items|, i);
      if !moved { RisenFrom(Pairs(), i); }
    }

    /** heap.Init. */
    method Init()
      requires Indexed()
      modifies this`items, this`content, Repr`index
      ensures Valid()
      ensures multiset(items) == multiset(old(items)) && Entries() == old(Entries())
    {
      hide Ordered, PQueue.Entries;
      Leaves(Pairs());
      var i := |items| / 2 - 1;
      assert HeapFrom(i + 1);
      SiftAll(i);
      content := Entries();
    }

    method SiftAll(last: int)
      requires -1 <= last < |items| && Indexed() && HeapFrom(last + 1)
      modifies this`items, Repr`index
      ensures Indexed() && HeapFrom(0)
      ensures multiset(items) == multiset(old(items)) && Entries() == old(Entries())
    {
      hide PQueue.Indexed, PQueue.Shows, PQueue.Pairs, Ordered, PQueue.Entries, PQueue.HeapFrom;
      var i := last;
      while i >= 0
        invariant -1 <= i < |items|
        invariant Indexed() && multiset(items) == multiset(old(items)) && Entries() == old(Entries())
        invariant HeapFrom(i + 1) && |items| == |old(items)|
        decreases i
      {
        SiftFrom(i);
        i := i - 1;
      }
    }

    /** heap.Push. */
    method HeapPush(item: Item<T>)
      requires Valid() && item !in items
      modifies this, item`index, Repr`index
      ensures Valid() && Repr == old(Repr) + {item}
      ensures multiset(items) == multiset(old(items)) + multiset{item}
      ensures content == old(content) + multiset{(item.value, item.priority)}
    {
      hide PQueue.Indexed, PQueue.Shows, PQueue.Pairs, Ordered;
      PushItem(item);
      content := Entries();
    }

    method PushItem(item: Item<T>)
      requires item !in items && Indexed() && Ordered(Pairs(), 0, |items|)
      modifies this`items, this`Repr, item`index, Repr`index
      ensures Indexed() && Ordered(Pairs(), 0, |items|) && Repr == old(Repr) + {item}
      ensures multiset(items) == multiset(old(items)) + multiset{item}
      ensures Entries() == old(Entries()) + multiset{(item.value, item.priority)}
    {
      hide Ordered, CanRise, PQueue.Entries;
      Append(item);
      AppendedCanRise(old(Pairs()), (item.value, item.priority));
      Up(|items| - 1);
    }

    /** heap.Pop, up to its call of the queue's own Pop. */
    method RootToLast()
      requires Indexed() && Ordered(Pairs(), 0, |items|) && items != []
      modifies this`items, Repr`index
      ensures Indexed() && multiset(items) == multiset(old(items)) && Entries() == old(Entries())
      ensures items[|items| - 1] == old(items[0]) && Ordered(Pairs(), 0, |items| - 1)
    {
      Swap(0, |items| - 1);
      var _ := Down(0, |items| - 1, 0);
    }

    /** heap.Pop. */
    method HeapPop() returns (item: Item<T>)
      requires Valid() && items != []
      modifies this, Repr`index
      ensures Valid() && item == old(items[0]) && item.index == -1 && Repr == old(Repr) - {item}
      ensures multiset(old(items)) == multiset(items) + multiset{item}
      ensures old(content) == content + multiset{(item.value, item.priority)}
      ensures forall e :: e in old(content) ==> item.priority <= e.1
    {
      hide PQueue.Indexed, PQueue.Shows, PQueue.Pairs, Ordered;
      item := PopItem();
      content := Entries();
    }

    method PopItem() returns (item: Item<T>)
      requires items != [] && Indexed() && Ordered(Pairs(), 0, |items|)
      modifies this`items, this`Repr, Repr`index
      ensures Indexed() && Ordered(Pairs(), 0, |items|)
      ensures item == old(items[0]) && item.index == -1 && Repr == old(Repr) - {item}
      ensures multiset(old(items)) == multiset(items) + multiset{item}
      ensures old(Entries()) == Entries() + multiset{(item.value, item.priority)}
      ensures forall e :: e in old(Entries()) ==> item.priority <= e.1
    {
      hide PQueue.Pairs;
      RootIsMin(Pairs(), |items|);
      RootToLast();
      item := DropLast();
    }

    /** heap.Fix: restore order after the priority at position i changed. */
    method Fix(i: nat)
      requires i < |items| && Indexed() && CanSink(Pairs(), 0, |items|, i)
      modifies this`items, Repr`index
      ensures Indexed() && Ordered(Pairs(), 0, |items|)
      ensures multiset(items) == multiset(old(items)) && Entries() == old(Entries())
    {
      var moved := Down(i, |items|, 0);
      if !moved {
        Up(i);
      }
    }

    /** Change one queued item in place and restore the heap at its stored index. */
    method Update(item: Item<T>, value: T, priority: int)
      requires Valid() && item in items
      modifies this`items, this`content, Repr`index, item
      ensures Valid() && multiset(items) == multiset(old(items))
      ensures item.value == value && item.priority == priority
      ensures content == old(content) - multiset{old((item.value, item.priority))} + multiset{(value, priority)}
    {
      hide Ordered, CanSink, PQueue.Shows, PQueue.Pairs, PQueue.Entries;
      Rewrite(item, value, priority);
      Fix(item.index);
      content := Entries();
    }

    method Rewrite(item: Item<T>, value: T, priority: int)
      requires Indexed() && Ordered(Pairs(), 0, |items|) && item in items
      modifies item`value, item`priority
      ensures Indexed() && item.value == value && item.priority == priority
      ensures CanSink(Pairs(), 0, |items|, item.index)
      ensures Entries() == old(Entries()) - multiset{old((item.value, item.priority))} + multiset{(value, priority)}
    {
      ghost var p := Pairs();
      item.value := value;
      item.priority := priority;
      ReplacedCanSink(p, Pairs(), item.index);
    }
  }
}
