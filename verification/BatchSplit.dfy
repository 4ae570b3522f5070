/** What becomes of a batch of calls, by its memory costs and by where the tick's
    one refresh falls (node.go, resources.go): the two locked sections of each
    call are the availability test and the memory charge. Network charges by
    other goroutines touch neither memory nor the outage. */
module BatchSplits {
  import opened Types
  import opened Resources

  /** What becomes of a call: refused by a node that is down, lost to the kill
      that its own charge causes, or admitted. */
  datatype Lot = Refusal | Loss | Admission

  /** Taken up to the split, at most the one call at the split lost, and refused
      from there on. */
  ghost predicate SplitAt(ls: seq<Lot>, s: nat) {
    && s <= |ls|
    && (forall k :: 0 <= k < s ==> ls[k].Admission?)
    && (s < |ls| ==> ls[s].Loss?)
    && (forall k :: s < k < |ls| ==> ls[k].Refusal?)
  }

  ghost predicate AllRefused(ls: seq<Lot>) {
    forall k :: 0 <= k < |ls| ==> ls[k].Refusal?
  }

  ghost predicate Splits(ls: seq<Lot>) {
    exists s: nat :: SplitAt(ls, s)
  }

  /** A refused prefix, then a clean split. */
  ghost predicate RefusedThenSplits(ls: seq<Lot>) {
    exists p: nat :: p <= |ls| && AllRefused(ls[..p]) && Splits(ls[p..])
  }

  /** The refresh, if it falls at place i: 3k is before call k's test, 3k + 1
      between its test and its charge, 3k + 2 after them. */
  function Before(s: Levels, cfg: ResourceConfig, now: real, refresh: Option<nat>, i: nat): Levels {
    if refresh == Some(i) then Refresh(s, cfg, now) else s
  }

  /** Call k of the batch: what becomes of it and the levels it leaves. */
  function One(s: Levels, cfg: ResourceConfig, cost: Cost, now: real, refresh: Option<nat>, k: nat): (Lot, Levels) {
    var tested := Before(s, cfg, now, refresh, 3 * k);
    var later := Before(tested, cfg, now, refresh, 3 * k + 1);
    if tested.isDown then (Refusal, Before(later, cfg, now, refresh, 3 * k + 2))
    else
      var (charged, err) := Charge(later, cfg, Memory, cost, now);
      (if err == None then Admission else Loss, Before(charged, cfg, now, refresh, 3 * k + 2))
  }

  /** The lots of a batch with the given memory costs, from call k on. */
  function Lots(s: Levels, cfg: ResourceConfig, costs: seq<Cost>, now: real, refresh: Option<nat>, k: nat)
    : (ls: seq<Lot>)
    ensures |ls| == |costs|
    decreases |costs|
  {
    if costs == [] then []
    else
      var (r, s') := One(s, cfg, costs[0], now, refresh, k);
      [r] + Lots(s', cfg, costs[1..], now, refresh, k + 1)
  }

  /** The levels a batch leaves. */
  function After(s: Levels, cfg: ResourceConfig, costs: seq<Cost>, now: real, refresh: Option<nat>, k: nat): Levels
    decreases |costs|
  {
    if costs == [] then s else After(One(s, cfg, costs[0], now, refresh, k).1, cfg, costs[1..], now, refresh, k + 1)
  }

  // ----- One call more, and the refresh that comes later -----

  lemma {:induction false} LotsNext(s: Levels, cfg: ResourceConfig, costs: seq<Cost>, c: Cost, now: real,
                                    refresh: Option<nat>, k: nat)
    ensures var last := One(After(s, cfg, costs, now, refresh, k), cfg, c, now, refresh, k + |costs|);
            && Lots(s, cfg, costs + [c], now, refresh, k) == Lots(s, cfg, costs, now, refresh, k) + [last.0]
            && After(s, cfg, costs + [c], now, refresh, k) == last.1
    decreases |costs|
  {
    if costs == [] {
      assert [c][1..] == [] && costs + [c] == [c];
      assert Lots(One(s, cfg, c, now, refresh, k).1, cfg, [], now, refresh, k + 1) == [];
    } else {
      assert (costs + [c])[1..] == costs[1..] + [c];
      LotsNext(One(s, cfg, costs[0], now, refresh, k).1, cfg, costs[1..], c, now, refresh, k + 1);
    }
  }

  /** A refresh after a batch does not touch it. */
  lemma {:induction false} LaterRefresh(s: Levels, cfg: ResourceConfig, costs: seq<Cost>, now: real, i: nat, k: nat)
    requires i >= 3 * (k + |costs|)
    ensures Lots(s, cfg, costs, now, Some(i), k) == Lots(s, cfg, costs, now, None, k)
    ensures After(s, cfg, costs, now, Some(i), k) == After(s, cfg, costs, now, None, k)
    decreases |costs|
  {
    if costs != [] {
      LaterRefresh(One(s, cfg, costs[0], now, None, k).1, cfg, costs[1..], now, i, k + 1);
    }
  }

  lemma OneElsewhere(s: Levels, cfg: ResourceConfig, cost: Cost, now: real, refresh: Option<nat>, k: nat)
    requires refresh.Some? ==> refresh.value < 3 * k || refresh.value >= 3 * k + 3
    ensures One(s, cfg, cost, now, refresh, k) == One(s, cfg, cost, now, None, 0)
  {}

  lemma OneHere(s: Levels, cfg: ResourceConfig, cost: Cost, now: real, j: nat, k: nat)
    requires j < 3
    ensures One(s, cfg, cost, now, Some(3 * k + j), k) == One(s, cfg, cost, now, Some(j), 0)
  {}

  lemma SameOne(x: Levels, y: Levels, cfg: ResourceConfig, cost: Cost, now: real, refresh: Option<nat>, k: nat)
    requires Same(x, y)
    ensures One(x, cfg, cost, now, refresh, k).0 == One(y, cfg, cost, now, refresh, k).0
    ensures Same(One(x, cfg, cost, now, refresh, k).1, One(y, cfg, cost, now, refresh, k).1)
  {}

  // ----- The shape of a batch -----

  lemma AdmittedFirst(ls: seq<Lot>)
    requires Splits(ls)
    ensures Splits([Admission] + ls)
  {
    var s: nat :| SplitAt(ls, s);
    assert SplitAt([Admission] + ls, s + 1);
  }

  lemma LostFirst(ls: seq<Lot>)
    requires AllRefused(ls)
    ensures Splits([Loss] + ls)
  {
    assert SplitAt([Loss] + ls, 0);
  }

  /** A node that is down and has no reviving refresh ahead refuses every call. */
  lemma {:induction false} DownRefuses(s: Levels, cfg: ResourceConfig, costs: seq<Cost>, now: real,
                                       refresh: Option<nat>, k: nat)
    requires s.isDown && (refresh.None? || refresh.value < 3 * k || s.downUntil > now)
    ensures AllRefused(Lots(s, cfg, costs, now, refresh, k)) && After(s, cfg, costs, now, refresh, k).isDown
    decreases |costs|
  {
    if costs != [] { DownRefuses(s, cfg, costs[1..], now, refresh, k + 1); }
  }

  lemma {:induction false} UpSplits(s: Levels, cfg: ResourceConfig, costs: seq<Cost>, now: real,
                                    refresh: Option<nat>, k: nat)
    requires Sound(s, cfg) && !s.isDown
    requires refresh.None? || refresh.value < 3 * k || cfg.memoryRecoveryMs > 0.0 || cfg.memoryLimit >= 1.0
    ensures Splits(Lots(s, cfg, costs, now, refresh, k))
    ensures After(s, cfg, costs, now, refresh, k).isDown <==> Loss in Lots(s, cfg, costs, now, refresh, k)
    decreases |costs|
  {
    if costs == [] {
      assert SplitAt([], 0);
    } else {
      var (r, s') := One(s, cfg, costs[0], now, refresh, k);
      var rest := Lots(s', cfg, costs[1..], now, refresh, k + 1);
      if r.Admission? {
        UpSplits(s', cfg, costs[1..], now, refresh, k + 1);
        AdmittedFirst(rest);
      } else {
        LostThenRefused(s, cfg, costs, now, refresh, k);
      }
    }
  }

  /** The call that kills an up node; a refresh between its charge and the next
      call does not revive it at once if the recovery time is positive. */
  lemma LostThenRefused(s: Levels, cfg: ResourceConfig, costs: seq<Cost>, now: real, refresh: Option<nat>, k: nat)
    requires Sound(s, cfg) && !s.isDown && costs != [] && One(s, cfg, costs[0], now, refresh, k).0.Loss?
    requires refresh.None? || refresh.value < 3 * k || cfg.memoryRecoveryMs > 0.0
    ensures Splits(Lots(s, cfg, costs, now, refresh, k))
    ensures After(s, cfg, costs, now, refresh, k).isDown && Loss in Lots(s, cfg, costs, now, refresh, k)
  {
    var (r, s') := One(s, cfg, costs[0], now, refresh, k);
    DownRefuses(s', cfg, costs[1..], now, refresh, k + 1);
    LostFirst(Lots(s', cfg, costs[1..], now, refresh, k + 1));
  }

  lemma AtOnce(ls: seq<Lot>)
    requires Splits(ls)
    ensures RefusedThenSplits(ls)
  {
    assert ls[0..] == ls && ls[..0] == [];
    assert AllRefused(ls[..0]) && Splits(ls[0..]);
  }

  lemma RefusedFirst(ls: seq<Lot>)
    requires RefusedThenSplits(ls)
    ensures RefusedThenSplits([Refusal] + ls)
  {
    var p: nat :| p <= |ls| && AllRefused(ls[..p]) && Splits(ls[p..]);
    var all := [Refusal] + ls;
    assert all[..p + 1] == [Refusal] + ls[..p] && all[p + 1..] == ls[p..];
    assert AllRefused(all[..p + 1]);
  }

  /** The batch of a node that is down, whatever the recovery time: refused until
      the tick's one refresh has revived the node, if it does, and from there a
      clean split, since no refresh is left. */
  lemma {:induction false} DownThenSplits(s: Levels, cfg: ResourceConfig, costs: seq<Cost>, now: real,
                                          refresh: Option<nat>, k: nat)
    requires Sound(s, cfg) && s.isDown
    ensures RefusedThenSplits(Lots(s, cfg, costs, now, refresh, k))
    decreases |costs|
  {
    if costs == [] {
      assert SplitAt([], 0);
      AtOnce([]);
    } else {
      var (r, s') := One(s, cfg, costs[0], now, refresh, k);
      var rest := Lots(s', cfg, costs[1..], now, refresh, k + 1);
      OneSound(s, cfg, costs[0], now, refresh, k);
      if s'.isDown && r.Refusal? {
        DownThenSplits(s', cfg, costs[1..], now, refresh, k + 1);
      } else if s'.isDown {
        DownRefuses(s', cfg, costs[1..], now, refresh, k + 1);
        LostFirst(rest);
      } else {
        UpSplits(s', cfg, costs[1..], now, refresh, k + 1);
        AtOnce(rest);
        AdmittedFirst(rest);
      }
      if r.Refusal? { RefusedFirst(rest); } else { AtOnce([r] + rest); }
    }
  }

  /** A call meets a down node, and leaves one up or lost, only around a refresh
      that revives it; two refreshes do not come. */
  lemma OneSound(s: Levels, cfg: ResourceConfig, cost: Cost, now: real, refresh: Option<nat>, k: nat)
    requires Sound(s, cfg)
    ensures var (r, s') := One(s, cfg, cost, now, refresh, k);
            && Sound(s', cfg)
            && (s.isDown && (!r.Refusal? || !s'.isDown) ==> refresh.Some? && refresh.value < 3 * (k + 1))
            && (s.isDown && r.Loss? ==> s'.isDown) && (s.isDown && r.Admission? ==> !s'.isDown)
  {
    if refresh.Some? {
      var x := Before(s, cfg, now, refresh, 3 * k);
      StepsSound(s, cfg, Memory, cost, now);
      StepsSound(x, cfg, Memory, cost, now);
      StepsSound(Before(x, cfg, now, refresh, 3 * k + 1), cfg, Memory, cost, now);
      StepsSound(Charge(x, cfg, Memory, cost, now).0, cfg, Memory, cost, now);
    } else {
      StepsSound(s, cfg, Memory, cost, now);
    }
  }

  /** With no recovery time and a limit that can be crossed, a full charge drops
      the first call and the refresh after the next revives the node. */
  lemma RevivedMidBatch(s: Levels, cfg: ResourceConfig, now: real)
    requires Sound(s, cfg) && !s.isDown && cfg.memoryRecoveryMs <= 0.0 && cfg.memoryLimit < 1.0
    ensures Lots(s, cfg, [1.0, 0.0, 0.0], now, Some(6), 0) == [Loss, Refusal, Admission]
    ensures !Splits(Lots(s, cfg, [1.0, 0.0, 0.0], now, Some(6), 0))
  {
    var costs: seq<Cost> := [1.0, 0.0, 0.0];
    var (r0, s1) := One(s, cfg, 1.0, now, Some(6), 0);
    var (r1, s2) := One(s1, cfg, 0.0, now, Some(6), 1);
    var (r2, s3) := One(s2, cfg, 0.0, now, Some(6), 2);
    assert costs[1..] == [0.0, 0.0] && costs[1..][1..] == [0.0] && costs[1..][1..][1..] == [];
    assert Lots(s3, cfg, costs[1..][1..][1..], now, Some(6), 3) == [];
    assert Lots(s2, cfg, costs[1..][1..], now, Some(6), 2) == [r2];
    assert Lots(s1, cfg, costs[1..], now, Some(6), 1) == [r1] + [r2];
    assert Lots(s, cfg, costs, now, Some(6), 0) == [r0] + ([r1] + [r2]);
    forall i: nat ensures !SplitAt([Loss, Refusal, Admission], i) {
      assert [Loss, Refusal, Admission][0].Loss? && [Loss, Refusal, Admission][2].Admission?;
    }
  }

  /** The batch of an up node splits whatever its costs and wherever the refresh
      falls, exactly when the tick's refresh is over, or the recovery time is
      positive, or the memory limit cannot be crossed. */
  lemma SplitExactly(s: Levels, cfg: ResourceConfig, now: real, over: bool)
    requires Sound(s, cfg) && !s.isDown
    ensures (forall costs: seq<Cost>, refresh: Option<nat> ::
               (over ==> refresh.None?) ==> Splits(Lots(s, cfg, costs, now, refresh, 0)))
       <==> over || cfg.memoryRecoveryMs > 0.0 || cfg.memoryLimit >= 1.0
  {
    if over || cfg.memoryRecoveryMs > 0.0 || cfg.memoryLimit >= 1.0 {
      forall costs: seq<Cost>, refresh: Option<nat> | over ==> refresh.None?
        ensures Splits(Lots(s, cfg, costs, now, refresh, 0))
      {
        UpSplits(s, cfg, costs, now, refresh, 0);
      }
    } else {
      RevivedMidBatch(s, cfg, now);
    }
  }

  /** A refresh before the first call ends an outage that is over. */
  lemma RevivedFirst(s: Levels, cfg: ResourceConfig, now: real)
    requires Sound(s, cfg) && s.isDown && s.downUntil <= now
    ensures !AllRefused(Lots(s, cfg, [0.0], now, Some(0), 0))
  {
    var costs: seq<Cost> := [0.0];
    var (r, s') := One(s, cfg, 0.0, now, Some(0), 0);
    assert costs[1..] == [] && Lots(s', cfg, costs[1..], now, Some(0), 1) == [];
    assert Lots(s, cfg, costs, now, Some(0), 0) == [r];
    assert Lots(s, cfg, costs, now, Some(0), 0)[0].Admission?;
  }

  /** The batch of a node that is down is refused throughout, wherever the
      refresh falls, exactly when it is over or the outage lasts past the tick. */
  lemma RefusedExactly(s: Levels, cfg: ResourceConfig, now: real, over: bool)
    requires Sound(s, cfg) && s.isDown
    ensures (forall costs: seq<Cost>, refresh: Option<nat> ::
               (over ==> refresh.None?) ==> AllRefused(Lots(s, cfg, costs, now, refresh, 0)))
       <==> over || s.downUntil > now
  {
    if over || s.downUntil > now {
      forall costs: seq<Cost>, refresh: Option<nat> | over ==> refresh.None?
        ensures AllRefused(Lots(s, cfg, costs, now, refresh, 0))
      {
        DownRefuses(s, cfg, costs, now, refresh, 0);
      }
    } else {
      RevivedFirst(s, cfg, now);
    }
  }

  // ----- Where the split is -----

  function Sum(costs: seq<Cost>): (sum: real)
    ensures sum >= 0.0
  {
    if costs == [] then 0.0 else costs[0] + Sum(costs[1..])
  }

  /** Without a refresh in between, call j of an up node's batch is admitted
      exactly when the memory with the charges up to its own is within the limit,
      and lost exactly when its own charge is the first to cross it. */
  lemma {:induction false} SplitBySum(s: Levels, cfg: ResourceConfig, costs: seq<Cost>, now: real, k: nat, j: nat)
    requires Sound(s, cfg) && !s.isDown && j < |costs|
    ensures Lots(s, cfg, costs, now, None, k)[j]
         == if Min(1.0, s.memory + Sum(costs[..j + 1])) <= cfg.memoryLimit then Admission
            else if Min(1.0, s.memory + Sum(costs[..j])) <= cfg.memoryLimit then Loss
            else Refusal
    decreases |costs|
  {
    var (r, s') := One(s, cfg, costs[0], now, None, k);
    StepsSound(s, cfg, Memory, costs[0], now);
    assert costs[..j + 1][0] == costs[0] && costs[..j + 1][1..] == costs[1..][..j];
    if j > 0 {
      assert costs[..j][0] == costs[0] && costs[..j][1..] == costs[1..][..j - 1];
      if r.Admission? {
        SplitBySum(s', cfg, costs[1..], now, k + 1, j - 1);
      } else {
        DownRefuses(s', cfg, costs[1..], now, None, k + 1);
      }
    }
  }
}
