/** source.go: a continuous arrival process batched into millisecond ticks. */
module Sources {
  import opened Types

  /** The k-th draw of rand.ExpFloat64()/lambda. */
  type Gaps = nat -> Cost

  /** Arrival k of the process that starts at `start`: partial sums of the gaps. */
  function Arrival(gaps: Gaps, start: int, k: nat): real {
    (if k == 0 then start as real else Arrival(gaps, start, k - 1)) + gaps(k)
  }

  lemma {:induction false} ArrivalsOrdered(gaps: Gaps, start: int, j: nat, k: nat)
    requires j <= k
    ensures start as real <= Arrival(gaps, start, j) <= Arrival(gaps, start, k)
    decreases k
  {
    if j < k {
      ArrivalsOrdered(gaps, start, j, k - 1);
    } else if k > 0 {
      ArrivalsOrdered(gaps, start, k - 1, k - 1);
    }
  }

  lemma ArrivalsLater(gaps: Gaps, start: int, j: nat, k: nat)
    ensures j <= k ==> Arrival(gaps, start, j) <= Arrival(gaps, start, k)
  {
    if j <= k { ArrivalsOrdered(gaps, start, j, k); }
  }

  lemma {:induction false} ArrivalsSpread(gaps: Gaps, start: int, eps: real, k: nat)
    requires forall i: nat :: gaps(i) >= eps
    ensures Arrival(gaps, start, k) >= start as real + (k + 1) as real * eps
  {
    OneMore(k, eps);
    if k > 0 { ArrivalsSpread(gaps, start, eps, k - 1); }
  }

  /** Gaps bounded below by some positive value pass every instant. */
  lemma GapsPass(gaps: Gaps, start: int, eps: real, t: real)
    requires eps > 0.0 && forall i: nat :: gaps(i) >= eps
    ensures exists k: nat :: Arrival(gaps, start, k) >= t
  {
    var k := Enough(eps, Max(0.0, t - start as real));
    ArrivalsSpread(gaps, start, eps, k);
    OneMore(k, eps);
  }

  /** One generated call: the instant it was due and its StartTime. */
  datatype Event = Event(due: real, sentAt: real)

  class Source {
    var nextEvent: real
    var drawn: nat            // draws taken so far
    var sent: seq<Event>

    constructor ()
      ensures Idle()
    {
      nextEvent, drawn, sent := 0.0, 0, [];
    }

    /** Never ticked. */
    ghost predicate Idle()
      reads this
    {
      nextEvent == 0.0 && drawn == 0 && sent == []
    }

    /** The next event is the next arrival, and the earlier arrivals have been
        sent, once each and in order. */
    ghost predicate Following(gaps: Gaps, start: int)
      reads this
    {
      && drawn == |sent| + 1
      && nextEvent == Arrival(gaps, start, |sent|)
      && forall k :: 0 <= k < |sent| ==> sent[k].due == Arrival(gaps, start, k)
    }

    /** The state after the tick at time now: the arrivals sent are exactly
        those before now, each at most 1 ms after it was due. */
    ghost predicate CaughtUp(gaps: Gaps, start: int, now: int)
      reads this
    {
      && Following(gaps, start)
      && (forall k: nat :: k < |sent| <==> Arrival(gaps, start, k) < now as real)
      && (forall k :: 0 <= k < |sent| ==> sent[k].due < sent[k].sentAt <= sent[k].due + 1.0)
    }

    /** The events are one gap apart, the first one gap after the start. */
    ghost predicate Spaced(gaps: Gaps, start: int)
      reads this
    {
      && (sent != [] ==> sent[0].due == start as real + gaps(0))
      && (forall k :: 0 <= k < |sent| - 1 ==> sent[k + 1].due - sent[k].due == gaps(k + 1))
      && (sent != [] ==> nextEvent - sent[|sent| - 1].due == gaps(|sent|))
    }

    method GenerateEvent(now: int)
      modifies this`sent
      ensures sent == old(sent) + [Event(nextEvent, now as real)]
    {
      sent := sent + [Event(nextEvent, now as real)];
    }

    lemma FollowingSpaced(gaps: Gaps, start: int)
      requires Following(gaps, start)
      ensures Spaced(gaps, start)
    {}

    /** NextMillisecond. Its loop ends only if some arrival is at or after
        `now`; `horizon` is the index of one. */
    method NextMillisecond(now: int, gaps: Gaps, start: int, ghost horizon: nat)
      requires 0 < start <= now && Arrival(gaps, start, horizon) >= now as real
      requires if now == start then Idle() else CaughtUp(gaps, start, now - 1)
      modifies this
      ensures CaughtUp(gaps, start, now) && Spaced(gaps, start) && old(sent) <= sent
      ensures forall k :: |old(sent)| <= k < |sent| ==> sent[k].sentAt == now as real
    {
      hide Source.Spaced;
      ghost var before := |sent|;
      DrawFirst(now, gaps, start);
      SendDue(now, gaps, start, horizon);
      forall k: nat ensures k < |sent| <==> Arrival(gaps, start, k) < now as real {
        if k >= |sent| { ArrivalsOrdered(gaps, start, |sent|, k); }
      }
      FollowingSpaced(gaps, start);
      forall k | before <= k < |sent| ensures sent[k].sentAt <= sent[k].due + 1.0 {
        ArrivalsOrdered(gaps, start, k, k);
      }
    }

    /** The first branch of NextMillisecond, taken at the first tick only. */
    method DrawFirst(now: int, gaps: Gaps, start: int)
      requires 0 < start <= now && if now == start then Idle() else Following(gaps, start)
      modifies this`nextEvent, this`drawn
      ensures Following(gaps, start)
    {
      ArrivalsOrdered(gaps, start, |sent|, |sent|);
      if nextEvent <= 0.0 {
        var timeToSleep := gaps(drawn) + now as real;
        drawn := drawn + 1;
        nextEvent := nextEvent + timeToSleep;
      }
    }

    /** The loop of NextMillisecond. */
    method SendDue(now: int, gaps: Gaps, start: int, ghost horizon: nat)
      requires Following(gaps, start) && Arrival(gaps, start, horizon) >= now as real
      requires forall k: nat :: k < |sent| ==> Arrival(gaps, start, k) < now as real
      modifies this
      ensures Following(gaps, start) && old(sent) <= sent && nextEvent >= now as real
      ensures forall k: nat :: k < |sent| ==> Arrival(gaps, start, k) < now as real
      ensures forall k :: |old(sent)| <= k < |sent| ==> sent[k].sentAt == now as real
    {
      ghost var before := |sent|;
      while now as real > nextEvent
        invariant Following(gaps, start) && old(sent) <= sent
        invariant forall k: nat :: k < |sent| ==> Arrival(gaps, start, k) < now as real
        invariant forall k :: before <= k < |sent| ==> sent[k].sentAt == now as real
        decreases horizon - |sent|
      {
        ArrivalsLater(gaps, start, horizon, |sent|);
        GenerateEvent(now);
        var timeToSleep := gaps(drawn);
        drawn := drawn + 1;
        nextEvent := timeToSleep + nextEvent;
      }
    }
  }

  /** A source's share of Loop.Run: ticks start .. start+n-1. */
  method RunSource(s: Source, gaps: Gaps, start: int, n: nat, ghost horizon: nat)
    requires s.Idle() && 0 < start && n >= 1
    requires Arrival(gaps, start, horizon) >= (start + n - 1) as real
    modifies s
    ensures s.CaughtUp(gaps, start, start + n - 1) && s.Spaced(gaps, start)
  {
    s.NextMillisecond(start, gaps, start, horizon);
    var t := 1;
    while t < n
      invariant 1 <= t <= n && s.CaughtUp(gaps, start, start + t - 1) && s.Spaced(gaps, start)
    {
      s.NextMillisecond(start + t, gaps, start, horizon);
      t := t + 1;
    }
  }
}
