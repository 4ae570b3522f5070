/** outbound.go and the sender's queue in node.go: queueOutbound, drainOutbound
    and processOutboundCall. */
module Outbound {
  import opened Types
  import opened Lists
  import opened Retry
  import opened Resources

  // ----- One queued call, as a value -----

  datatype Progress = Progress(policy: RetryPolicy, attempt: nat, nextRetryAt: real)

  datatype Pending = Pending(call: Call, queuedAt: real, retry: Option<Progress>)

  /** What the outside supplies when a call is processed: whether the callee
      would accept it now, and the jitter draw. */
  datatype Answer = Answer(accepted: bool, r: Draw)

  datatype Outcome = Keep(next: Pending) | Delivered | TimedOut | Exhausted

  function Policy(v: Pending): RetryPolicy {
    if v.retry.Some? then v.retry.value.policy else DEFAULT_POLICY
  }

  function Attempt(v: Pending): nat {
    if v.retry.Some? then v.retry.value.attempt else 0
  }

  predicate InBackoff(v: Pending, now: real) {
    v.retry.Some? && now < v.retry.value.nextRetryAt
  }

  predicate IsTimedOut(v: Pending, now: real) {
    v.call.timeoutMs > 0.0 && now - v.queuedAt > v.call.timeoutMs
  }

  /** The call is offered to its callee at this drain. */
  predicate Offered(v: Pending, now: real) {
    !InBackoff(v, now) && !IsTimedOut(v, now)
  }

  function Step(v: Pending, now: real, a: Answer): Outcome
  {
    if InBackoff(v, now) then Keep(v)
    else if IsTimedOut(v, now) then TimedOut
    else if a.accepted then Delivered
    else
      var k := Attempt(v) + 1;
      if k > Policy(v).maxRetries then Exhausted
      else Keep(v.(retry := Some(Progress(Policy(v), k, now + DelayForAttempt(Policy(v), k, a.r)))))
  }

  /** Exactly when each outcome comes about, by the call's own times, its attempts
      and the answer. A queued call without a retry record has made none and may
      make the default policy's three. */
  ghost predicate Dealt(v: Pending, now: real, accepted: bool, delivered: bool, failed: bool, kept: bool) {
    var past := v.retry.None? || v.retry.value.nextRetryAt <= now;
    var late := v.call.timeoutMs > 0.0 && v.queuedAt + v.call.timeoutMs < now;
    var spent := if v.retry.None? then false else v.retry.value.attempt >= v.retry.value.policy.maxRetries;
    && (delivered <==> past && !late && accepted)
    && (failed <==> past && (late || (!accepted && spent)))
    && (kept <==> !past || (!late && !accepted && !spent))
  }

  lemma StepExactly(v: Pending, now: real, a: Answer)
    ensures var o := Step(v, now, a);
            Dealt(v, now, a.accepted, o.Delivered?, o.TimedOut? || o.Exhausted?, o.Keep?)
    ensures Step(v, now, a).TimedOut? ==> v.queuedAt + v.call.timeoutMs < now
  {}

  /** A call that is kept waits on, or has used one more attempt and may be
      offered again only after that attempt's backoff. */
  lemma KeptExactly(v: Pending, now: real, a: Answer)
    requires Step(v, now, a).Keep? && Sane(Policy(v))
    ensures var next, p := Step(v, now, a).next, if v.retry.None? then DEFAULT_POLICY else v.retry.value.policy;
            && next.call == v.call && next.queuedAt == v.queuedAt
            && if v.retry.Some? && now < v.retry.value.nextRetryAt then next == v
               else
                 && next.retry.Some? && next.retry.value.policy == p
                 && next.retry.value.attempt == (if v.retry.None? then 0 else v.retry.value.attempt) + 1
                 && now + LeastDelay(p, next.retry.value.attempt) <= next.retry.value.nextRetryAt
                    <= now + MostDelay(p, next.retry.value.attempt)
  {
    if v.retry.None? || now >= v.retry.value.nextRetryAt { JitterBand(Policy(v), Attempt(v) + 1, a.r); }
  }

  // ----- How long a call can stay queued: one drain per tick -----

  /** The state after drains at ticks tick, tick+1, ...; None once it has left. */
  function Hold(v: Pending, tick: int, answers: seq<Answer>): Option<Pending>
    decreases |answers|
  {
    if answers == [] then Some(v)
    else match Step(v, tick as real, answers[0])
      case Keep(next) => Hold(next, tick + 1, answers[1..])
      case _ => None
  }

  /** How often those drains offer the call to its callee. */
  function Offers(v: Pending, tick: int, answers: seq<Answer>): nat
    decreases |answers|
  {
    if answers == [] then 0
    else
      (if Offered(v, tick as real) then 1 else 0) +
      match Step(v, tick as real, answers[0])
      case Keep(next) => Offers(next, tick + 1, answers[1..])
      case _ => 0
  }

  /** The most that the waits after attempts from+1 .. maxRetries can add up
      to, each with the wait for the tick that ends it. */
  function WaitsAfter(p: RetryPolicy, from: nat): real
    decreases p.maxRetries - from
  {
    if from >= p.maxRetries then 0.0 else MostDelay(p, from + 1) + 1.0 + WaitsAfter(p, from + 1)
  }

  /** sum for k = from+1 .. maxRetries of min(initial * factor^k, max) * (1 + jitter) */
  function TotalBackoff(p: RetryPolicy, from: nat): real
    decreases p.maxRetries - from
  {
    if from >= p.maxRetries then 0.0 else MostDelay(p, from + 1) + TotalBackoff(p, from + 1)
  }

  function RetriesLeft(p: RetryPolicy, from: nat): nat {
    if from < p.maxRetries then p.maxRetries - from else 0
  }

  lemma {:induction false} WaitsClosedForm(p: RetryPolicy, from: nat)
    requires Sane(p)
    ensures WaitsAfter(p, from) >= 0.0
    ensures WaitsAfter(p, from) == RetriesLeft(p, from) as real + TotalBackoff(p, from)
    decreases p.maxRetries - from
  {
    if from < p.maxRetries {
      WaitsClosedForm(p, from + 1);
      JitterBand(p, from + 1, 0.0);
    }
  }

  /** No later tick can process the call than this. */
  function LastTick(v: Pending, tick: int): real
  {
    (if v.retry.Some? then Max(tick as real, v.retry.value.nextRetryAt + 1.0) else tick as real)
    + WaitsAfter(Policy(v), Attempt(v))
  }

  lemma KeptDelay(v: Pending, tick: int, a: Answer)
    requires Sane(Policy(v)) && Step(v, tick as real, a).Keep?
    ensures var next := Step(v, tick as real, a).next;
            Policy(next) == Policy(v) && LastTick(next, tick + 1) <= LastTick(v, tick)
    ensures tick as real < LastTick(v, tick)
  {
    var p := Policy(v);
    WaitsClosedForm(p, Attempt(v));
    if Offered(v, tick as real) {
      var k := Attempt(v) + 1;
      WaitsClosedForm(p, k);
      JitterBand(p, k, a.r);
    }
  }

  lemma {:induction false} HeldBefore(v: Pending, tick: int, answers: seq<Answer>)
    requires Sane(Policy(v)) && answers != []
    requires Hold(v, tick, answers).Some?
    ensures (tick + |answers| - 1) as real < LastTick(v, tick)
    decreases |answers|
  {
    KeptDelay(v, tick, answers[0]);
    if |answers| > 1 {
      HeldBefore(Step(v, tick as real, answers[0]).next, tick + 1, answers[1..]);
    }
  }

  /** A call as it enters the queue: never attempted. */
  ghost predicate Entering(v: Pending) {
    v.retry.Some? ==> v.retry.value.attempt == 0 && v.retry.value.nextRetryAt == 0.0
  }

  /** Residence bound: queued at tick q and first drained at q or q+1, a call
      still queued after the drain at tick t satisfies
      t - q < 1 + maxRetries + sum of the backoffs * (1 + jitter). */
  lemma ResidenceBound(v: Pending, q: int, first: int, answers: seq<Answer>)
    requires Entering(v) && Sane(Policy(v)) && v.queuedAt == q as real
    requires 1 <= q <= first <= q + 1 && answers != []
    requires Hold(v, first, answers).Some?
    ensures var p := Policy(v);
            (first + |answers| - 1 - q) as real
            < MostResidence(p)
  {
    HeldBefore(v, first, answers);
    WaitsClosedForm(Policy(v), 0);
  }

  /** How long a call under this policy can stay queued. */
  function MostResidence(p: RetryPolicy): real {
    1.0 + RetriesLeft(p, 0) as real + TotalBackoff(p, 0)
  }

  /** At the drain of tick `tick`, no outcome can keep the call past its bound. */
  ghost predicate Punctual(v: Pending, tick: int) {
    Sane(Policy(v)) && LastTick(v, tick) <= v.queuedAt + MostResidence(Policy(v))
  }

  lemma EntersPunctual(v: Pending, q: int)
    requires Entering(v) && Sane(Policy(v)) && v.queuedAt == q as real && q >= 1
    ensures Punctual(v, q) && Punctual(v, q + 1) && MostResidence(Policy(v)) > 0.0
  {
    WaitsClosedForm(Policy(v), 0);
  }

  lemma KeptPunctual(v: Pending, tick: int, a: Answer)
    requires Punctual(v, tick) && Step(v, tick as real, a).Keep?
    ensures Punctual(Step(v, tick as real, a).next, tick + 1)
    ensures tick as real - v.queuedAt < MostResidence(Policy(v))
  {
    KeptDelay(v, tick, a);
  }

  /** The bound for the default policy, in whole milliseconds. */
  lemma DefaultResidence(v: Pending, q: int, first: int, answers: seq<Answer>)
    requires v.retry.None? && v.queuedAt == q as real
    requires 1 <= q <= first <= q + 1 && answers != []
    requires Hold(v, first, answers).Some?
    ensures first + |answers| - 1 - q < 1684
  {
    ResidenceBound(v, q, first, answers);
    var p := DEFAULT_POLICY;
    assert Pow(2.0, 1) == 2.0 * Pow(2.0, 0) && Pow(2.0, 2) == 2.0 * Pow(2.0, 1) && Pow(2.0, 3) == 2.0 * Pow(2.0, 2);
    assert MostDelay(p, 1) == 240.0 && MostDelay(p, 2) == 480.0 && MostDelay(p, 3) == 960.0;
    assert TotalBackoff(p, 2) == MostDelay(p, 3) + TotalBackoff(p, 3);
    assert TotalBackoff(p, 1) == MostDelay(p, 2) + TotalBackoff(p, 2);
    assert TotalBackoff(p, 0) == MostDelay(p, 1) + TotalBackoff(p, 1);
  }

  /** At most maxRetries + 1 offers are ever made from the queue. */
  lemma {:induction false} OffersBound(v: Pending, tick: int, answers: seq<Answer>)
    ensures Offers(v, tick, answers)
         <= (if Attempt(v) <= Policy(v).maxRetries then Policy(v).maxRetries - Attempt(v) else 0) + 1
    decreases |answers|
  {
    if answers != [] {
      var s := Step(v, tick as real, answers[0]);
      if s.Keep? { OffersBound(s.next, tick + 1, answers[1..]); }
    }
  }

  /** A call that is never accepted uses up one attempt per offer; without a
      timeout it is given up at the offer after the last attempt, not before. */
  lemma {:induction false} OffersExactly(v: Pending, tick: int, answers: seq<Answer>)
    requires v.call.timeoutMs <= 0.0 && Attempt(v) <= Policy(v).maxRetries
    requires forall k :: 0 <= k < |answers| ==> !answers[k].accepted
    ensures match Hold(v, tick, answers)
            case Some(w) => Attempt(w) == Attempt(v) + Offers(v, tick, answers) && Attempt(w) <= Policy(v).maxRetries
            case None => Offers(v, tick, answers) == Policy(v).maxRetries - Attempt(v) + 1
    decreases |answers|
  {
    if answers != [] {
      var o := Step(v, tick as real, answers[0]);
      if o.Keep? { OffersExactly(o.next, tick + 1, answers[1..]); }
    }
  }

  /** So a call that enters the queue, is never accepted and has no timeout is
      offered exactly maxRetries + 1 times, and is gone after its residence. */
  lemma GivenUpExactly(v: Pending, q: int, first: int, answers: seq<Answer>)
    requires Entering(v) && Sane(Policy(v)) && v.queuedAt == q as real && Policy(v).maxRetries >= 0
    requires 1 <= q <= first <= q + 1 && v.call.timeoutMs <= 0.0
    requires forall k :: 0 <= k < |answers| ==> !answers[k].accepted
    requires (first + |answers| - 1 - q) as real >= MostResidence(Policy(v)) && answers != []
    ensures Hold(v, first, answers).None? && Offers(v, first, answers) == Policy(v).maxRetries + 1
  {
    if Hold(v, first, answers).Some? { ResidenceBound(v, q, first, answers); }
    OffersExactly(v, first, answers);
  }

  lemma {:induction false} NoMoreOffers(v: Pending, tick: int, answers: seq<Answer>)
    requires v.retry.Some? && v.call.timeoutMs > 0.0
    requires v.retry.value.nextRetryAt - v.queuedAt > v.call.timeoutMs
    ensures Offers(v, tick, answers) == 0
    decreases |answers|
  {
    if answers != [] && InBackoff(v, tick as real) {
      NoMoreOffers(v, tick + 1, answers[1..]);
    }
  }

  /** A queued call with a timeout that its shortest first backoff already
      exceeds is offered at most once from the queue: the backoff test comes
      before the timeout test, and when the backoff ends the call is too old. */
  lemma FirstBackoffOutlastsTimeout(v: Pending, tick: int, answers: seq<Answer>)
    requires Entering(v) && Sane(Policy(v)) && v.call.timeoutMs > 0.0
    requires v.queuedAt <= tick as real
    requires LeastDelay(Policy(v), 1) > v.call.timeoutMs
    ensures Offers(v, tick, answers) <= 1
    decreases |answers|
  {
    if answers != [] {
      var s := Step(v, tick as real, answers[0]);
      if s.Keep? {
        if Offered(v, tick as real) {
          JitterBand(Policy(v), 1, answers[0].r);
          NoMoreOffers(s.next, tick + 1, answers[1..]);
        } else {
          FirstBackoffOutlastsTimeout(v, tick + 1, answers[1..]);
        }
      }
    }
  }

  /** Calls forwarded by a load balancer carry a 90 ms timeout and the default
      policy (lb.go:86, node.go:223-228): once refused at the send, they are
      offered at most once more, from the queue. */
  lemma ForwardedCallsOfferedOnce(v: Pending, tick: int, answers: seq<Answer>)
    requires v.retry.None? && v.call.timeoutMs == 90.0 && v.queuedAt <= tick as real
    ensures Offers(v, tick, answers) <= 1
  {
    assert Pow(2.0, 1) == 2.0 * Pow(2.0, 0);
    FirstBackoffOutlastsTimeout(v, tick, answers);
  }

  // ----- The queue and its drain -----

  // ----- The callee's side -----

  /** A node's callCh. */
  class Inbox {
    const capacity: nat
    var waiting: seq<Call>

    constructor (capacity: nat)
      ensures this.capacity == capacity && waiting == []
    {
      this.capacity := capacity;
      waiting := [];
    }

    /** tryAcceptCall. Between its two locked sections other goroutines charge the
        callee `others`. The network stays charged when the channel is full. */
    method TryAcceptCall(c: Call, res: NodeResources?, cost: Cost, others: seq<Demand>, now: real)
      returns (accepted: bool)
      requires res != null ==> res.Valid()
      modifies this, res
      ensures waiting == old(waiting) + (if accepted then [c] else [])
      ensures res == null ==> (accepted <==> |old(waiting)| < capacity)
      ensures res != null ==>
                var s := ChargeAll(old(res.State()), res.config, others, now);
                && res.Valid()
                && (accepted <==> !old(res.isDown) && !s.isDown && s.network + cost <= res.config.networkLimit
                                  && |old(waiting)| < capacity)
                && (accepted ==> res.State() == s.(network := Min(1.0, s.network + cost)))
                && (old(res.isDown) ==> res.State() == old(res.State()))
    {
      if res != null {
        if res.isDown { return false; }
        ConsumeAll(res, others, now);
        NetworkRefused(res.State(), res.config, cost, now);
        OwnLevelOnly(res.State(), res.config, cost, now);
        var err := res.ConsumeResources(Network, cost, now);
        if err != None { return false; }
      }
      accepted := |waiting| < capacity;
      if accepted { waiting := waiting + [c]; }
    }
  }

  // ----- The sender's side -----

  class RetryState {
    var policy: RetryPolicy
    var attempt: nat
    var nextRetryAt: real
    ghost var owner: OutboundCall?

    constructor (policy: RetryPolicy)
      ensures this.policy == policy && attempt == 0 && nextRetryAt == 0.0
    {
      this.policy := policy;
      attempt := 0;
      nextRetryAt := 0.0;
      owner := null;
    }
  }

  class OutboundCall {
    const call: Call
    const callee: NodeId
    const queuedAt: real
    var retryState: RetryState?

    constructor (call: Call, callee: NodeId, queuedAt: real, retryState: RetryState?)
      requires retryState != null ==> retryState.attempt == 0
      modifies if retryState == null then {} else {retryState}`owner
      ensures this.call == call && this.callee == callee && this.queuedAt == queuedAt
      ensures this.retryState == retryState && Owned()
    {
      this.call := call;
      this.callee := callee;
      this.queuedAt := queuedAt;
      this.retryState := retryState;
      new;
      if retryState != null { retryState.owner := this; }
    }

    /** A retry record is made for one send and never shared. */
    ghost predicate Owned()
      reads this, retryState
    {
      retryState != null ==> retryState.owner == this
    }

    ghost function View(): (v: Pending)
      reads this, retryState
    {
      Pending(call, queuedAt,
              if retryState == null then None
              else Some(Progress(retryState.policy, retryState.attempt, retryState.nextRetryAt)))
    }
  }

  datatype Verdict = Retained | Accepted | Failed

  function VerdictOf(o: Outcome): Verdict {
    match o
    case Keep(_) => Retained
    case Delivered => Accepted
    case TimedOut => Failed
    case Exhausted => Failed
  }

  /** The elements with the given verdict, in order. */
  function Select<T>(q: seq<T>, vs: seq<Verdict>, v: Verdict): (r: seq<T>)
    requires |q| == |vs|
  {
    if q == [] then []
    else Select(q[..|q| - 1], vs[..|q| - 1], v) + (if vs[|q| - 1] == v then [q[|q| - 1]] else [])
  }

  lemma FrontAndLast<T>(q: seq<T>)
    requires q != []
    ensures multiset(q) == multiset(q[..|q| - 1]) + multiset{q[|q| - 1]}
  {
    assert q == q[..|q| - 1] + [q[|q| - 1]];
  }

  lemma SelectLast<T>(q: seq<T>, vs: seq<Verdict>, v: Verdict)
    requires |q| == |vs| && q != []
    ensures multiset(Select(q, vs, v)) == multiset(Select(q[..|q| - 1], vs[..|q| - 1], v))
                                        + (if vs[|q| - 1] == v then multiset{q[|q| - 1]} else multiset{})
  {
    var front := Select(q[..|q| - 1], vs[..|q| - 1], v);
    assert front + [] == front;
  }

  /** Nothing is lost or duplicated by sorting a queue into its verdicts. */
  lemma {:induction false} SelectPartitions<T>(q: seq<T>, vs: seq<Verdict>)
    requires |q| == |vs|
    ensures multiset(q) == multiset(Select(q, vs, Retained)) + multiset(Select(q, vs, Accepted))
                         + multiset(Select(q, vs, Failed))
  {
    if q != [] {
      var n := |q| - 1;
      SelectPartitions(q[..n], vs[..n]);
      FrontAndLast(q);
      SelectLast(q, vs, Retained);
      SelectLast(q, vs, Accepted);
      SelectLast(q, vs, Failed);
    }
  }

  function Verdicts(views: seq<Pending>, now: real, answers: seq<Answer>): (vs: seq<Verdict>)
    requires |views| == |answers|
    ensures |vs| == |views|
  {
    seq(|views|, k requires 0 <= k < |views| => VerdictOf(Step(views[k], now, answers[k])))
  }

  /** Each element is on the list of its own verdict and on no other. */
  lemma {:induction false} SelectedBy<T>(q: seq<T>, vs: seq<Verdict>, v: Verdict, k: nat)
    requires |q| == |vs| && NoDup(q) && k < |q|
    ensures q[k] in Select(q, vs, v) <==> vs[k] == v
  {
    var n := |q| - 1;
    SelectNoDup(q[..n], vs[..n], v);
    assert q[n] !in q[..n];
    if k < n { SelectedBy(q[..n], vs[..n], v, k); }
  }

  lemma DealtAt(q: seq<OutboundCall>, views: seq<Pending>, now: real, answers: seq<Answer>, k: nat)
    requires |q| == |views| == |answers| && NoDup(q) && k < |q|
    ensures var vs := Verdicts(views, now, answers);
            Dealt(views[k], now, answers[k].accepted, q[k] in Select(q, vs, Accepted), q[k] in Select(q, vs, Failed),
                  q[k] in Select(q, vs, Retained))
  {
    var vs := Verdicts(views, now, answers);
    StepExactly(views[k], now, answers[k]);
    VerdictAt(views, now, answers, k);
    SelectedBy(q, vs, Accepted, k);
    SelectedBy(q, vs, Failed, k);
    SelectedBy(q, vs, Retained, k);
  }

  lemma {:induction false} SelectNoDup<T>(q: seq<T>, vs: seq<Verdict>, v: Verdict)
    requires |q| == |vs| && NoDup(q)
    ensures NoDup(Select(q, vs, v)) && forall x :: x in Select(q, vs, v) ==> x in q
  {
    if q != [] {
      var n := |q| - 1;
      SelectNoDup(q[..n], vs[..n], v);
      assert q[n] !in q[..n];
    }
  }

  /** The global counter behind every request id (call.go). */
  class CallCounter {
    var callNumber: int

    constructor ()
      ensures callNumber == 22222
    {
      callNumber := 22222;
    }

    method IncrCallNumber() returns (a: int)
      modifies this
      ensures a == callNumber == old(callNumber) + 1
    {
      callNumber := callNumber + 1;
      a := callNumber;
    }
  }

  class Sender {
    var pendingCallMap: map<int, Call>
    var outboundQueue: seq<OutboundCall>
    var delivered: seq<OutboundCall>  // accepted by their callee's callCh, in order
    var replyCh: seq<Reply>           // error replies to itself, in order

    constructor ()
      ensures pendingCallMap == map[] && outboundQueue == delivered == [] && replyCh == []
    {
      pendingCallMap := map[];
      outboundQueue, delivered, replyCh := [], [], [];
    }

    /** No pending id is ahead of the counter, so the next one is new. */
    ghost predicate Behind(counter: CallCounter)
      reads this, counter
    {
      forall id :: id in pendingCallMap ==> id <= counter.callNumber
    }

    /** sendCall (retry == null) and sendCallWithRetry: a new id, registered
        before the call is offered; if refused it enters the queue unattempted.
        `accepted` is what the callee's tryAcceptCall answers. */
    method SendCall(c: Call, callee: NodeId, counter: CallCounter, retry: RetryState?, accepted: bool,
                    res: NodeResources?, memoryCost: Cost, now: real)
      returns (sent: Call, queued: OutboundCall?)
      requires Behind(counter) && (res != null ==> res.Valid())
      requires retry != null ==> retry.attempt == 0 && retry.nextRetryAt == 0.0
      modifies this`pendingCallMap, this`outboundQueue, counter, res, if retry == null then {} else {retry}`owner
      ensures Behind(counter) && sent == c.(reqID := counter.callNumber)
      ensures sent.reqID !in old(pendingCallMap) && pendingCallMap == old(pendingCallMap)[sent.reqID := sent]
      ensures queued == null <==> accepted
      ensures accepted ==> outboundQueue == old(outboundQueue)
      ensures !accepted ==> fresh(queued) && outboundQueue == old(outboundQueue) + [queued] && queued.Owned()
      ensures !accepted ==> queued.call == sent && queued.callee == callee && queued.queuedAt == now
      ensures !accepted ==> queued.retryState == retry && Entering(queued.View())
    {
      var reqID := counter.IncrCallNumber();
      sent := c.(reqID := reqID);
      pendingCallMap := pendingCallMap[reqID := sent];
      queued := null;
      if !accepted {
        queued := new OutboundCall(sent, callee, now, retry);
        QueueOutbound(queued, res, memoryCost, now);
      }
    }

    /** The call stays queued even when its memory charge kills the sender. */
    method QueueOutbound(oc: OutboundCall, res: NodeResources?, memoryCost: Cost, now: real)
      requires res != null ==> res.Valid()
      modifies this`outboundQueue, res
      ensures outboundQueue == old(outboundQueue) + [oc]
      ensures res != null ==> res.Valid()
      ensures res != null ==> res.State() == Charge(old(res.State()), res.config, Memory, memoryCost, now).0
    {
      outboundQueue := outboundQueue + [oc];
      if res != null {
        var _ := res.ConsumeResources(Memory, memoryCost, now);
      }
    }

    method ProcessOutboundCall(oc: OutboundCall, now: real, answer: Answer) returns (retain: bool)
      requires oc.Owned()
      modifies this`delivered, this`replyCh, oc, oc.retryState
      ensures var step := Step(old(oc.View()), now, answer);
              && retain == step.Keep?
              && (step.Keep? ==> oc.View() == step.next)
              && delivered == old(delivered) + (if step.Delivered? then [oc] else [])
              && replyCh == old(replyCh) + (if step.TimedOut? || step.Exhausted? then [ErrorReply(oc.call)] else [])
      ensures oc.Owned()
      ensures oc.retryState == old(oc.retryState) || (old(oc.retryState) == null && fresh(oc.retryState))
    {
      if oc.retryState != null && now < oc.retryState.nextRetryAt {
        return true;
      }
      if oc.call.timeoutMs > 0.0 && now - oc.queuedAt > oc.call.timeoutMs {
        replyCh := replyCh + [ErrorReply(oc.call)];
        return false;
      }
      if answer.accepted {
        delivered := delivered + [oc];
        return false;
      }
      if oc.retryState == null {
        oc.retryState := new RetryState(DEFAULT_POLICY);
        oc.retryState.owner := oc;
      }
      oc.retryState.attempt := oc.retryState.attempt + 1;
      if oc.retryState.attempt > oc.retryState.policy.maxRetries {
        replyCh := replyCh + [ErrorReply(oc.call)];
        return false;
      }
      var delay := DelayForAttempt(oc.retryState.policy, oc.retryState.attempt, answer.r);
      oc.retryState.nextRetryAt := now + delay;
      return true;
    }

    ghost predicate Valid()
      reads this, outboundQueue, set oc | oc in outboundQueue :: oc.retryState
    {
      NoDup(outboundQueue) && forall k :: 0 <= k < |outboundQueue| ==> outboundQueue[k].Owned()
    }

    /** Processing element i leaves every other element as it is. */
    method ProcessAt(queue: seq<OutboundCall>, i: nat, now: real, answers: seq<Answer>,
                     ghost views: seq<Pending>, ghost states: set<RetryState>)
      returns (retain: bool)
      requires NoDup(queue) && i < |queue| == |answers| == |views|
      requires forall k :: 0 <= k < i ==> Processed(queue[k], views[k], now, answers[k])
      requires forall k :: i <= k < |queue| ==> Holds(queue[k], views[k], states)
      modifies this`delivered, this`replyCh, queue[i], queue[i].retryState
      ensures forall k :: 0 <= k <= i ==> Processed(queue[k], views[k], now, answers[k])
      ensures forall k :: i < k < |queue| ==> Holds(queue[k], views[k], states)
      ensures queue[i].retryState == old(queue[i].retryState) || fresh(queue[i].retryState)
      ensures forall k :: 0 <= k < |queue| && k != i ==> queue[k].retryState == old(queue[k].retryState)
      ensures var v := VerdictOf(Step(views[i], now, answers[i]));
              && retain == v.Retained?
              && delivered == old(delivered) + (if v.Accepted? then [queue[i]] else [])
              && replyCh == old(replyCh) + (if v.Failed? then [ErrorReply(queue[i].call)] else [])
    {
      retain := ProcessOutboundCall(queue[i], now, answers[i]);
    }

    /** The loop of drainOutbound over its private copy of the queue. While it
        runs, with the queue's lock released, other goroutines append
        arrivals[k] before element k is looked at. */
    method ProcessAll(queue: seq<OutboundCall>, now: real, answers: seq<Answer>, arrivals: seq<seq<OutboundCall>>,
                      ghost views: seq<Pending>, ghost states: set<RetryState>)
      returns (remaining: seq<OutboundCall>)
      requires NoDup(queue) && |answers| == |queue| == |arrivals| == |views| && outboundQueue == []
      requires forall k :: 0 <= k < |queue| ==> Holds(queue[k], views[k], states)
      modifies this, queue, states
      ensures remaining == Select(queue, Verdicts(views, now, answers), Retained)
      ensures delivered == old(delivered) + Select(queue, Verdicts(views, now, answers), Accepted)
      ensures replyCh == old(replyCh) + ErrorReplies(Select(queue, Verdicts(views, now, answers), Failed))
      ensures forall k :: 0 <= k < |queue| ==> Processed(queue[k], views[k], now, answers[k])
      ensures forall k :: 0 <= k < |queue| ==>
                queue[k].retryState == old(queue[k].retryState) || fresh(queue[k].retryState)
      ensures outboundQueue == Flatten(arrivals)
    {
      hide Select, Verdicts, Tally, Flatten, Step, VerdictOf, Processed, NoDup, ErrorReplies;
      remaining := [];
      ghost var accepted, errors := [], [];
      TallyNone();
      ghost var vs := Verdicts(views, now, answers);
      var i := 0;
      while i < |queue|
        invariant 0 <= i <= |queue|
        invariant forall k :: i <= k < |queue| ==> Holds(queue[k], views[k], states)
        invariant forall k :: 0 <= k < i ==> Processed(queue[k], views[k], now, answers[k])
        invariant forall k :: 0 <= k < |queue| ==>
                    queue[k].retryState == old(queue[k].retryState) || fresh(queue[k].retryState)
        invariant Tally(queue[..i], vs[..i], remaining, accepted, errors)
        invariant delivered == old(delivered) + accepted && replyCh == old(replyCh) + errors
        invariant outboundQueue == Flatten(arrivals[..i])
      {
        outboundQueue := outboundQueue + arrivals[i];
        FlattenNext(arrivals, i);
        VerdictAt(views, now, answers, i);
        var retain := ProcessAt(queue, i, now, answers, views, states);
        TallyNext(queue, vs, i, remaining, accepted, errors);
        assert remaining + [] == remaining;
        if retain { remaining := remaining + [queue[i]]; }
        accepted := accepted + (if vs[i].Accepted? then [queue[i]] else []);
        errors := errors + (if vs[i].Failed? then [ErrorReply(queue[i].call)] else []);
        i := i + 1;
      }
      assert queue[..i] == queue && vs[..i] == vs && arrivals[..i] == arrivals;
      TallyDone(queue, vs, remaining, accepted, errors);
    }

    ghost function States(): set<RetryState>
      reads this, outboundQueue
    {
      set oc | oc in outboundQueue && oc.retryState != null :: oc.retryState
    }

    ghost function Views(): (views: seq<Pending>)
      reads this, outboundQueue, set oc | oc in outboundQueue :: oc.retryState
      ensures |views| == |outboundQueue|
      ensures forall k :: 0 <= k < |views| ==> views[k] == outboundQueue[k].View()
    {
      ViewsOf(outboundQueue)
    }

    /** One drain. Other goroutines may append while the queue's lock is
        released: arrivals[k] before element k is processed, the last group
        before the retained calls are put back. */
    method DrainOutbound(now: real, answers: seq<Answer>, arrivals: seq<seq<OutboundCall>>)
      requires Valid() && |answers| == |outboundQueue| && |arrivals| == |outboundQueue| + 1
      requires NoDup(outboundQueue + Flatten(arrivals))
      modifies this, outboundQueue, States()
      ensures old(outboundQueue) == [] ==> outboundQueue == [] && delivered == old(delivered) && replyCh == old(replyCh)
      ensures old(outboundQueue) != [] ==>
                var q, vs := old(outboundQueue), Verdicts(old(Views()), now, answers);
                && outboundQueue == Flatten(arrivals) + Select(q, vs, Retained)
                && delivered == old(delivered) + Select(q, vs, Accepted)
                && replyCh == old(replyCh) + ErrorReplies(Select(q, vs, Failed))
      ensures NoDup(outboundQueue)
      ensures forall k :: 0 <= k < |old(outboundQueue)| ==>
                Processed(old(outboundQueue)[k], old(Views())[k], now, answers[k])
      ensures forall x :: x in old(outboundQueue) ==> x.retryState == old(x.retryState) || fresh(x.retryState)
      ensures forall k :: 0 <= k < |old(outboundQueue)| ==>
                var q, x := old(outboundQueue), old(outboundQueue)[k];
                Dealt(old(Views())[k], now, answers[k].accepted, x in delivered[|old(delivered)|..],
                      x in Select(q, Verdicts(old(Views()), now, answers), Failed), x in outboundQueue)
    {
      hide Dealt;
      hide Select, Verdicts, VerdictOf, Step, Flatten, ErrorReplies;
      if |outboundQueue| == 0 { return; }
      var queue := outboundQueue;
      var n := |queue|;
      ghost var views := Views();
      outboundQueue := [];
      assert NoDup(queue) && forall k :: 0 <= k < n ==> Holds(queue[k], views[k], old(States()));
      var remaining := ProcessAll(queue, now, answers, arrivals[..n], views, old(States()));
      outboundQueue := outboundQueue + arrivals[n];
      FlattenNext(arrivals, n);
      assert arrivals[..n + 1] == arrivals && remaining == [] ==> Flatten(arrivals) + remaining == Flatten(arrivals);
      if |remaining| > 0 {
        outboundQueue := outboundQueue + remaining;
      }
      PutBackNoDup(queue, Flatten(arrivals), Verdicts(views, now, answers));
      NoDupSplit(queue, Flatten(arrivals));
      forall k | 0 <= k < n
        ensures Dealt(views[k], now, answers[k].accepted, queue[k] in delivered[|old(delivered)|..],
                      queue[k] in Select(queue, Verdicts(views, now, answers), Failed), queue[k] in outboundQueue)
      {
        DealtAt(queue, views, now, answers, k);
      }
    }

    /** A drain at tick t of a punctual queue: what is still queued after it is
        punctual for the next tick, and no retained call is past its bound. */
    method DrainTick(t: int, answers: seq<Answer>, arrivals: seq<seq<OutboundCall>>, ghost others: seq<OutboundCall>)
      requires Valid() && |answers| == |outboundQueue| && |arrivals| == |outboundQueue| + 1 && t >= 1
      requires others == Flatten(arrivals) && NoDup(outboundQueue + others)
      requires forall k :: 0 <= k < |outboundQueue| ==> Punctual(outboundQueue[k].View(), t)
      requires forall x :: x in others ==> Newcomer(x, t)
      modifies this, outboundQueue, States()
      ensures Valid()
      ensures forall x :: x in outboundQueue ==> Punctual(x.View(), t + 1)
      ensures forall x :: x in outboundQueue ==> t as real - x.queuedAt < MostResidence(Policy(x.View()))
      ensures forall x :: x in outboundQueue ==> x in old(outboundQueue) || x in others
      ensures forall x :: x in outboundQueue ==> x.retryState == old(x.retryState) || fresh(x.retryState)
    {
      hide Punctual, Entering, Step, Verdicts, Policy, MostResidence;
      ghost var q, views, vs := outboundQueue, Views(), Verdicts(Views(), t as real, answers);
      NoDupSplit(q, others);
      ghost var states := States();
      forall x | x in others ensures x !in q && (x.retryState == null || x.retryState !in states) {
        assert Newcomer(x, t);
      }
      DrainOutbound(t as real, answers, arrivals);
      forall x | x in others ensures Newcomer(x, t) {
        assert old(Newcomer(x, t)) && x !in q;
      }
      forall x | x in outboundQueue
        ensures x.Owned() && Punctual(x.View(), t + 1) && (x in q || x in others)
        ensures t as real - x.queuedAt < MostResidence(Policy(x.View()))
      {
        if x in others {
          EntersPunctual(x.View(), t);
        } else {
          var k := Selected(q, vs, Retained, x);
          VerdictKept(views, t as real, answers, k);
          assert Processed(q[k], views[k], t as real, answers[k]);
          KeptPunctual(views[k], t, answers[k]);
        }
      }
    }
  }

  // ----- Whole runs of one sender -----

  /** Some calls refused at their send during tick t, with the records made for
      them; they are not in the queue yet. */
  method RefusedCalls(t: int) returns (ocs: seq<OutboundCall>)
    requires t >= 1
    ensures NoDup(ocs) && forall x :: x in ocs ==> fresh(x) && Newcomer(x, t)
    ensures forall x :: x in ocs ==> x.retryState == null || fresh(x.retryState)
  {
    ocs := [];
    var more: nat := *;
    while more > 0
      invariant NoDup(ocs) && forall x :: x in ocs ==> fresh(x) && Newcomer(x, t)
      invariant forall x :: x in ocs ==> x.retryState == null || fresh(x.retryState)
    {
      var call: Call, callee: NodeId, policy: RetryPolicy, own: bool := *, *, *, *;
      if Sane(policy) {
        var retry: RetryState? := null;
        if own { retry := new RetryState(policy); }
        var oc := new OutboundCall(call, callee, t as real, retry);
        AppendNoDup(ocs, oc);
        ocs := ocs + [oc];
      }
      more := more - 1;
    }
  }

  method AnyAnswers(n: nat) returns (answers: seq<Answer>)
    ensures |answers| == n
  {
    answers := [];
    while |answers| < n
      invariant |answers| <= n
    {
      var accepted: bool, r: Draw := *, *;
      answers := answers + [Answer(accepted, r)];
    }
  }

  /** The calls in n + 1 groups, cut anywhere. */
  method Grouped(ocs: seq<OutboundCall>, n: nat) returns (groups: seq<seq<OutboundCall>>)
    ensures |groups| == n + 1 && Flatten(groups) == ocs
  {
    groups := [];
    var i := 0;
    while |groups| < n
      invariant 0 <= i <= |ocs| && |groups| <= n && Flatten(groups) == ocs[..i]
    {
      var j: int := *;
      if j < i || j > |ocs| { j := i; }
      assert (groups + [ocs[i..j]])[..|groups|] == groups && ocs[..i] + ocs[i..j] == ocs[..j];
      groups := groups + [ocs[i..j]];
      i := j;
    }
    assert (groups + [ocs[i..]])[..|groups|] == groups && ocs[..i] + ocs[i..] == ocs;
    groups := groups + [ocs[i..]];
  }

  /** Calls refused after the drain of the tick join the queue. */
  method QueueAll(s: Sender, ocs: seq<OutboundCall>, t: int)
    modifies s`outboundQueue
    ensures s.outboundQueue == old(s.outboundQueue) + ocs
  {
    var i := 0;
    while i < |ocs|
      invariant 0 <= i <= |ocs| && s.outboundQueue == old(s.outboundQueue) + ocs[..i]
    {
      s.QueueOutbound(ocs[i], null, 0.0, t as real);
      i := i + 1;
    }
  }

  ghost predicate InTime(x: OutboundCall, t: int)
    reads x, x.retryState
  {
    && Punctual(x.View(), t + 1)
    && t as real - x.queuedAt < MostResidence(Policy(x.View()))
  }

  /** One tick of a sender: a drain, with calls refused during it and after it. */
  method SenderTick(s: Sender, t: int)
    requires s.Valid() && t >= 1 && forall x :: x in s.outboundQueue ==> Punctual(x.View(), t)
    modifies s, s.outboundQueue, s.States()
    ensures s.Valid() && forall x :: x in s.outboundQueue ==> InTime(x, t)
    ensures forall x :: x in s.outboundQueue ==> x in old(s.outboundQueue) || fresh(x)
    ensures forall x :: x in s.outboundQueue && x.retryState != null ==>
              x.retryState in old(s.States()) || fresh(x.retryState)
  {
    hide Punctual, Entering, Policy, MostResidence;
    ghost var q := s.outboundQueue;
    var during := RefusedCalls(t);
    var answers := AnyAnswers(|s.outboundQueue|);
    var groups := Grouped(during, |s.outboundQueue|);
    NoDupJoin(q, during);
    s.DrainTick(t, answers, groups, during);
    var late := RefusedCalls(t);
    ghost var kept := s.outboundQueue;
    NoDupJoin(kept, late);
    QueueAll(s, late, t);
    forall x | x in s.outboundQueue ensures x.Owned() && InTime(x, t) {
      if x in late { EntersPunctual(x.View(), t); } else { assert x in kept; }
    }
  }

  /** A sender's share of Loop.Run, with no cleanup: whatever is refused, and
      whenever, nothing outstays its bound in the queue. */
  method RunSender(s: Sender, start: int, ticks: nat)
    requires s.outboundQueue == [] && start >= 1
    modifies s
    ensures s.Valid()
    ensures forall x :: x in s.outboundQueue ==> InTime(x, start + ticks - 1)
  {
    var k := 0;
    while k < ticks
      invariant 0 <= k <= ticks && s.Valid()
      invariant forall x :: x in s.outboundQueue ==> InTime(x, start + k - 1)
      invariant forall x :: x in s.outboundQueue ==> fresh(x) && (x.retryState == null || fresh(x.retryState))
    {
      SenderTick(s, start + k);
      k := k + 1;
    }
  }

  lemma VerdictKept(views: seq<Pending>, now: real, answers: seq<Answer>, k: nat)
    requires k < |views| == |answers| && Verdicts(views, now, answers)[k] == Retained
    ensures Step(views[k], now, answers[k]).Keep?
    ensures Step(views[k], now, answers[k]).next.queuedAt == views[k].queuedAt
    ensures Policy(Step(views[k], now, answers[k]).next) == Policy(views[k])
  {}

  /** A call as SendCall queues it during tick t. */
  ghost predicate Newcomer(oc: OutboundCall, t: int)
    reads oc, oc.retryState
  {
    oc.Owned() && Entering(oc.View()) && oc.queuedAt == t as real && Sane(Policy(oc.View()))
  }

  lemma {:induction false} Selected<T>(q: seq<T>, vs: seq<Verdict>, v: Verdict, x: T) returns (k: nat)
    requires |q| == |vs| && x in Select(q, vs, v)
    ensures k < |q| && q[k] == x && vs[k] == v
  {
    var n := |q| - 1;
    if x in Select(q[..n], vs[..n], v) { k := Selected(q[..n], vs[..n], v, x); } else { k := n; }
  }

  ghost function ViewsOf(q: seq<OutboundCall>): (views: seq<Pending>)
    reads q, set oc | oc in q :: oc.retryState
    ensures |views| == |q| && forall k :: 0 <= k < |views| ==> views[k] == q[k].View()
  {
    if q == [] then [] else ViewsOf(q[..|q| - 1]) + [q[|q| - 1].View()]
  }

  lemma PutBackNoDup<T>(q: seq<T>, arrived: seq<T>, vs: seq<Verdict>)
    requires |q| == |vs| && NoDup(q + arrived)
    ensures NoDup(arrived + Select(q, vs, Retained))
  {
    NoDupSplit(q, arrived);
    SelectNoDup(q, vs, Retained);
    NoDupJoin(arrived, Select(q, vs, Retained));
  }

  /** The bookkeeping of a drain that has sorted q by the verdicts vs. */
  ghost predicate Tally(q: seq<OutboundCall>, vs: seq<Verdict>, remaining: seq<OutboundCall>,
                        accepted: seq<OutboundCall>, errors: seq<Reply>)
    requires |q| == |vs|
  {
    && remaining == Select(q, vs, Retained) && accepted == Select(q, vs, Accepted)
    && errors == ErrorReplies(Select(q, vs, Failed))
  }

  lemma TallyNone()
    ensures Tally([], [], [], [], []) && Flatten<OutboundCall>([]) == []
  {}

  lemma TallyDone(q: seq<OutboundCall>, vs: seq<Verdict>, remaining: seq<OutboundCall>,
                  accepted: seq<OutboundCall>, errors: seq<Reply>)
    requires |q| == |vs| && Tally(q, vs, remaining, accepted, errors)
    ensures remaining == Select(q, vs, Retained) && accepted == Select(q, vs, Accepted)
    ensures errors == ErrorReplies(Select(q, vs, Failed))
  {}

  lemma VerdictAt(views: seq<Pending>, now: real, answers: seq<Answer>, i: nat)
    requires i < |views| == |answers|
    ensures Verdicts(views, now, answers)[i] == VerdictOf(Step(views[i], now, answers[i]))
  {}

  lemma TallyNext(q: seq<OutboundCall>, vs: seq<Verdict>, i: nat, remaining: seq<OutboundCall>,
                  accepted: seq<OutboundCall>, errors: seq<Reply>)
    requires i < |q| == |vs| && Tally(q[..i], vs[..i], remaining, accepted, errors)
    ensures Tally(q[..i + 1], vs[..i + 1],
                  remaining + (if vs[i].Retained? then [q[i]] else []),
                  accepted + (if vs[i].Accepted? then [q[i]] else []),
                  errors + (if vs[i].Failed? then [ErrorReply(q[i].call)] else []))
  {
    assert q[..i + 1][..i] == q[..i] && vs[..i + 1][..i] == vs[..i];
    var failed, failed' := Select(q[..i], vs[..i], Failed), Select(q[..i + 1], vs[..i + 1], Failed);
    if vs[i].Failed? {
      assert failed'[..|failed|] == failed && failed'[|failed|] == q[i];
    } else {
      assert failed' == failed;
    }
  }

  ghost predicate Processed(oc: OutboundCall, view: Pending, now: real, answer: Answer)
    reads oc, oc.retryState
  {
    oc.Owned() && (Step(view, now, answer).Keep? ==> oc.View() == Step(view, now, answer).next)
  }

  ghost predicate Holds(oc: OutboundCall, view: Pending, states: set<RetryState>)
    reads oc, oc.retryState
  {
    oc.Owned() && oc.View() == view && (oc.retryState == null || oc.retryState in states)
  }

  function ErrorReplies(q: seq<OutboundCall>): seq<Reply> {
    if q == [] then [] else ErrorReplies(q[..|q| - 1]) + [ErrorReply(q[|q| - 1].call)]
  }
}
