/** The call and reply protocol between nodes (call.go, lb.go, node.go, task.go,
    resources.go) as a transition system at lock and channel granularity. */
module Protocol {
  import opened Types
  import opened Lists

  datatype Kind = App | Balancer | Source

  /** A call object once it has its request id; `origin` is the call a load
      balancer made it for. */
  datatype CallInfo = CallInfo(id: nat, caller: NodeId, callee: NodeId, origin: Option<nat>)

  /** A reply in a replyCh; `call` indexes the call objects. */
  datatype Rep = Rep(id: nat, call: nat, status: nat)

  /** A node's reply goroutine: idle, holding a received reply, having looked it
      up, or having deleted the entry and about to call back. */
  datatype Hand = Empty | Holding(r: Rep) | Matched(r: Rep, c: nat) | Deleted(r: Rep, c: nat)

  /** Where a call object can be. The first five and the two failures are kept
      by its sender, the rest by its callee. */
  datatype Place =
    | Issued       // has an id, not yet in pendingCallMap
    | Offering     // in pendingCallMap, the send not settled
    | Outbound     // sender's outboundQueue
    | Draining     // drainOutbound's copy of the queue
    | Remaining    // drainOutbound's retained list
    | Channel      // callee's callCh
    | Heap         // callee's calls heap
    | Batch        // taken out by handleCalls
    | Working      // turned into tasks
    | Refused      // by a node that was down
    | Dropped      // on a memory failure
    | Forwarded    // by a balancer, as a call of its own
    | Failed       // the sender answered with a timeout or exhaustion
    | LostOutbound // wiped with the sender's queue
    | LostHeap     // wiped with the callee's heap

  predicate SenderSide(p: Place) {
    p.Issued? || p.Offering? || p.Outbound? || p.Draining? || p.Remaining? || p.Failed? || p.LostOutbound?
  }

  /** The node that keeps call c when it is at p. */
  function Home(c: CallInfo, p: Place): NodeId {
    if SenderSide(p) then c.caller else c.callee
  }

  datatype State = State(
    kinds: seq<Kind>,
    nextId: nat,                              // callNumber
    calls: seq<CallInfo>,
    at: map<(Place, NodeId), seq<nat>>,       // the queues, channels and lists
    pending: map<(NodeId, nat), nat>,         // pendingCallMap of each node, by id
    replyCh: seq<seq<Rep>>,
    hand: seq<Hand>,
    loc: seq<Place>,                          // witness: the one place of each call
    accepted: seq<nat>,                       // history of successful tryAcceptCalls
    senderErrors: seq<nat>,                   // history of timeouts and exhaustions
    fired: seq<(NodeId, nat)>,                // history of callbacks, by node and id
    answers: seq<(nat, nat)>,                 // history of replies made, by call and status
    delivered: seq<(nat, nat)>,               // ... of those that reached a callback of a source or app
    unknown: seq<(nat, nat)>,                 // ... of those dropped for an unknown id
    amnesic: set<NodeId>)                     // nodes whose pendingCallMap was ever replaced

  function At(s: State, p: Place, n: NodeId): seq<nat> {
    if (p, n) in s.at then s.at[(p, n)] else []
  }

  function Without(q: seq<nat>, c: nat): seq<nat> {
    if q == [] then [] else if q[0] == c then q[1..] else [q[0]] + Without(q[1..], c)
  }

  /** Take call c out of the list at (p, n) and append it to the one at (q, m). */
  function Move(s: State, c: nat, p: Place, n: NodeId, q: Place, m: NodeId): State
    requires c < |s.loc|
  {
    var at1 := s.at[(p, n) := Without(At(s, p, n), c)];
    var to := if (q, m) in at1 then at1[(q, m)] else [];
    s.(at := at1[(q, m) := to + [c]], loc := s.loc[c := q])
  }

  /** A reply pushed on node n's replyCh. */
  function Push(s: State, n: NodeId, r: Rep): State
    requires n < |s.replyCh|
  {
    s.(replyCh := s.replyCh[n := s.replyCh[n] + [r]])
  }

  predicate Init(s: State) {
    && s.nextId == 22222 && s.calls == [] && s.at == map[] && s.pending == map[] && s.loc == []
    && s.replyCh == seq(|s.kinds|, _ => []) && s.hand == seq(|s.kinds|, _ => Empty)
    && s.accepted == [] && s.senderErrors == [] && s.fired == [] && s.amnesic == {}
    && s.answers == [] && s.delivered == [] && s.unknown == []
  }

  // ----- Sending -----

  /** IncrCallNumber for a new call object; ids are used once. */
  function NewCall(s: State, caller: NodeId, callee: NodeId, origin: Option<nat>): State {
    var c := |s.calls|;
    s.(nextId := s.nextId + 1,
       calls := s.calls + [CallInfo(s.nextId + 1, caller, callee, origin)],
       at := s.at[(Issued, caller) := At(s, Issued, caller) + [c]],
       loc := s.loc + [Issued])
  }

  /** MakeCall draws an id of its own, which sendCall then replaces. */
  ghost predicate Draw(s: State, s': State) {
    s' == s.(nextId := s.nextId + 1)
  }

  /** A source or an app task starts a call to a load balancer. */
  ghost predicate Start(s: State, s': State, n: NodeId, b: NodeId) {
    && n < |s.kinds| && b < |s.kinds| && !s.kinds[n].Balancer? && s.kinds[b].Balancer?
    && s' == NewCall(s, n, b, None)
  }

  /** The call enters its sender's pendingCallMap, before it is offered. */
  ghost predicate Register(s: State, s': State, n: NodeId, c: nat) {
    && c in At(s, Issued, n) && c < |s.calls| && c < |s.loc|
    && s' == Move(s, c, Issued, n, Offering, n).(pending := s.pending[(n, s.calls[c].id) := c])
  }

  /** tryAcceptCall succeeds for a call being sent (p is Offering) or drained
      (p is Draining): it is now in the callee's callCh. */
  ghost predicate Accept(s: State, s': State, n: NodeId, c: nat, p: Place) {
    && (p.Offering? || p.Draining?) && c in At(s, p, n) && c < |s.calls| && c < |s.loc|
    && s' == Move(s, c, p, n, Channel, s.calls[c].callee).(accepted := s.accepted + [c])
  }

  /** A call changes lists without further effect: refused and queued; copied
      for a drain; retained; put back; received by the runner; extracted when
      due; turned into tasks; dropped on a memory failure. */
  predicate PlainMove(p: Place, q: Place) {
    || (p.Offering? && q.Outbound?)
    || (p.Outbound? && q.Draining?)
    || (p.Draining? && q.Remaining?)
    || (p.Remaining? && q.Outbound?)
    || (p.Channel? && q.Heap?)
    || (p.Heap? && q.Batch?)
    || (p.Batch? && q.Working?)
    || (p.Batch? && q.Dropped?)
    || (p.Outbound? && q.LostOutbound?)
    || (p.Heap? && q.LostHeap?)
  }

  ghost predicate Shift(s: State, s': State, n: NodeId, c: nat, p: Place, q: Place) {
    && PlainMove(p, q) && c in At(s, p, n) && c < |s.loc|
    && (p.Channel? ==> At(s, p, n)[0] == c)
    && s' == Move(s, c, p, n, q, n)
  }

  /** processOutboundCall gives up: an error reply to the sender itself. */
  ghost predicate SenderFails(s: State, s': State, n: NodeId, c: nat) {
    && c in At(s, Draining, n) && c < |s.calls| && c < |s.loc| && n < |s.replyCh|
    && s' == Push(Move(s, c, Draining, n, Failed, n), n, Rep(s.calls[c].id, c, STATUS_UNAVAILABLE))
              .(senderErrors := s.senderErrors + [c], answers := s.answers + [(c, STATUS_UNAVAILABLE)])
  }

  // ----- Serving -----

  /** handleCall on a node that is down. */
  ghost predicate Refuse(s: State, s': State, n: NodeId, c: nat) {
    && c in At(s, Batch, n) && c < |s.calls| && c < |s.loc| && s.calls[c].caller < |s.replyCh|
    && s' == Push(Move(s, c, Batch, n, Refused, n), s.calls[c].caller, Rep(s.calls[c].id, c, STATUS_UNAVAILABLE))
              .(answers := s.answers + [(c, STATUS_UNAVAILABLE)])
  }

  /** A task of the call answers, with success or with an error. */
  ghost predicate Answer(s: State, s': State, n: NodeId, c: nat, status: nat) {
    && c in At(s, Working, n) && c < |s.calls| && s.calls[c].caller < |s.replyCh|
    && s' == Push(s, s.calls[c].caller, Rep(s.calls[c].id, c, status)).(answers := s.answers + [(c, status)])
  }

  /** A load balancer's handleCall: a new call of its own to one of its apps. */
  ghost predicate Forward(s: State, s': State, b: NodeId, c: nat, a: NodeId) {
    && b < |s.kinds| && a < |s.kinds| && s.kinds[b].Balancer? && s.kinds[a].App?
    && c in At(s, Batch, b) && c < |s.loc|
    && s' == NewCall(Move(s, c, Batch, b, Forwarded, b), b, a, Some(c))
  }

  // ----- The reply goroutine -----

  ghost predicate Receive(s: State, s': State, n: NodeId) {
    && n < |s.replyCh| && n < |s.hand| && s.hand[n].Empty? && s.replyCh[n] != []
    && s' == s.(replyCh := s.replyCh[n := s.replyCh[n][1..]], hand := s.hand[n := Holding(s.replyCh[n][0])])
  }

  ghost predicate Lookup(s: State, s': State, n: NodeId) {
    && n < |s.hand| && s.hand[n].Holding?
    && var r := s.hand[n].r;
       s' == if (n, r.id) in s.pending
             then s.(hand := s.hand[n := Matched(r, s.pending[(n, r.id)])])
             else s.(hand := s.hand[n := Empty], unknown := s.unknown + [(r.call, r.status)])
  }

  /** Deletes the entry if it is still there: a cleanup may have replaced the map. */
  ghost predicate Delete(s: State, s': State, n: NodeId) {
    && n < |s.hand| && s.hand[n].Matched?
    && var r := s.hand[n].r;
       s' == s.(pending := s.pending - {(n, r.id)}, hand := s.hand[n := Deleted(r, s.hand[n].c)])
  }

  /** The callback. A balancer's rewrites the reply's id to that of the call it
      forwarded and passes the same reply on. */
  ghost predicate CallBack(s: State, s': State, n: NodeId) {
    && n < |s.hand| && s.hand[n].Deleted?
    && var r, c := s.hand[n].r, s.hand[n].c;
       var t := s.(hand := s.hand[n := Empty], fired := s.fired + [(n, r.id)]);
       && c < |s.calls|
       && match s.calls[c].origin
          case None => s' == t.(delivered := s.delivered + [(r.call, r.status)])
          case Some(o) =>
            && o < |s.calls| && s.calls[o].caller < |s.replyCh|
            && s' == Push(t, s.calls[o].caller, r.(id := s.calls[o].id))
  }

  /** fullOOMCleanup replaces the node's pendingCallMap. */
  ghost predicate Forget(s: State, s': State, n: NodeId) {
    s' == s.(pending := map k | k in s.pending && k.0 != n :: s.pending[k], amnesic := s.amnesic + {n})
  }

  datatype Action =
    | ActDraw
    | ActStart(n: NodeId, b: NodeId)
    | ActRegister(n: NodeId, c: nat)
    | ActAccept(n: NodeId, c: nat, p: Place)
    | ActShift(n: NodeId, c: nat, p: Place, q: Place)
    | ActSenderFails(n: NodeId, c: nat)
    | ActRefuse(n: NodeId, c: nat)
    | ActAnswer(n: NodeId, c: nat, status: nat)
    | ActForward(n: NodeId, c: nat, a: NodeId)
    | ActReceive(n: NodeId)
    | ActLookup(n: NodeId)
    | ActDelete(n: NodeId)
    | ActCallBack(n: NodeId)
    | ActForget(n: NodeId)

  ghost predicate Next(s: State, s': State, act: Action) {
    match act
    case ActDraw => Draw(s, s')
    case ActStart(n, b) => Start(s, s', n, b)
    case ActRegister(n, c) => Register(s, s', n, c)
    case ActAccept(n, c, p) => Accept(s, s', n, c, p)
    case ActShift(n, c, p, q) => Shift(s, s', n, c, p, q)
    case ActSenderFails(n, c) => SenderFails(s, s', n, c)
    case ActRefuse(n, c) => Refuse(s, s', n, c)
    case ActAnswer(n, c, status) => Answer(s, s', n, c, status)
    case ActForward(n, c, a) => Forward(s, s', n, c, a)
    case ActReceive(n) => Receive(s, s', n)
    case ActLookup(n) => Lookup(s, s', n)
    case ActDelete(n) => Delete(s, s', n)
    case ActCallBack(n) => CallBack(s, s', n)
    case ActForget(n) => Forget(s, s', n)
  }

  // ----- The invariant -----

  /** The list at (p, n) holds, once each, the calls whose witness says so. */
  ghost predicate ListOk(s: State, p: Place, n: NodeId)
    requires |s.loc| == |s.calls|
  {
    && NoDup(At(s, p, n))
    && forall c: nat :: c in At(s, p, n) <==> c < |s.calls| && s.loc[c] == p && n == Home(s.calls[c], p)
  }

  /** Every call is on the list its witness says, once, and on no other. */
  ghost predicate Placed(s: State) {
    |s.loc| == |s.calls| && forall p: Place, n: NodeId :: ListOk(s, p, n)
  }

  /** Ids are used once; a balancer's call belongs to the one call it has taken
      off its batch and forwarded, and goes to an app. */
  ghost predicate Named(s: State) {
    && |s.loc| == |s.calls| && |s.replyCh| == |s.hand| == |s.kinds|
    && (forall i, j :: 0 <= i < j < |s.calls| ==> s.calls[i].id < s.calls[j].id)
    && (forall i :: 0 <= i < |s.calls| ==>
          s.calls[i].id <= s.nextId && s.calls[i].caller < |s.kinds| && s.calls[i].callee < |s.kinds|)
    && (forall i :: 0 <= i < |s.calls| && s.calls[i].origin.Some? ==> ForwardOf(s, i, s.calls[i].origin.value))
    && (forall i, j :: 0 <= i < j < |s.calls| && s.calls[i].origin.Some? ==> s.calls[i].origin != s.calls[j].origin)
  }

  ghost predicate ForwardOf(s: State, i: nat, o: nat) {
    && o < i < |s.calls| && |s.loc| == |s.calls|
    && s.calls[i].caller == s.calls[o].callee && s.loc[o].Forwarded?
    && s.calls[i].caller < |s.kinds| && s.calls[i].callee < |s.kinds|
    && s.kinds[s.calls[i].caller].Balancer? && s.kinds[s.calls[i].callee].App?
  }

  /** Node n sent call c with this id, and registered it. */
  predicate Registered(s: State, n: NodeId, id: nat, c: nat) {
    c < |s.calls| && c < |s.loc| && s.calls[c].caller == n && s.calls[c].id == id && !s.loc[c].Issued?
  }

  ghost predicate Pending(s: State) {
    forall k :: k in s.pending ==> Registered(s, k.0, k.1, s.pending[k])
  }

  /** The reply is for call c of node n: about c itself, or about the call a
      balancer forwarded for it. */
  predicate About(s: State, n: NodeId, r: Rep, c: nat) {
    && Registered(s, n, r.id, c) && r.call < |s.calls|
    && (r.call == c || s.calls[r.call].origin == Some(c))
  }

  ghost predicate Genuine(s: State, n: NodeId, r: Rep) {
    exists c :: About(s, n, r, c)
  }

  ghost predicate GoodHand(s: State, n: NodeId, h: Hand) {
    match h
    case Empty => true
    case Holding(r) => Genuine(s, n, r)
    case Matched(r, c) => About(s, n, r, c)
    case Deleted(r, c) => About(s, n, r, c)
  }

  ghost predicate Correlated(s: State) {
    && (forall n, k :: 0 <= n < |s.replyCh| && 0 <= k < |s.replyCh[n]| ==> Genuine(s, n, s.replyCh[n][k]))
    && (forall n :: 0 <= n < |s.hand| ==> GoodHand(s, n, s.hand[n]))
  }

  predicate InHand(h: Hand, id: nat) {
    (h.Matched? || h.Deleted?) && h.r.id == id
  }

  /** A callback that has fired can fire no more. */
  ghost predicate Spent(s: State, n: NodeId, id: nat) {
    && (n, id) !in s.pending
    && (n < |s.hand| ==> !InHand(s.hand[n], id))
    && exists c :: Registered(s, n, id, c)
  }

  ghost predicate FiredOnce(s: State) {
    && NoDup(s.fired)
    && (forall k :: 0 <= k < |s.fired| ==> Spent(s, s.fired[k].0, s.fired[k].1))
    && (forall n :: 0 <= n < |s.hand| && s.hand[n].Deleted? ==> (n, s.hand[n].r.id) !in s.pending)
  }

  predicate TakenIn(p: Place) {
    p.Channel? || p.Heap? || p.Batch? || p.Working? || p.Refused? || p.Dropped? || p.Forwarded? || p.LostHeap?
  }

  ghost predicate AcceptedOnce(s: State) {
    && |s.loc| == |s.calls|
    && NoDup(s.accepted) && (forall c: nat :: c in s.accepted <==> c < |s.calls| && TakenIn(s.loc[c]))
    && NoDup(s.senderErrors) && (forall c: nat :: c in s.senderErrors <==> c < |s.calls| && s.loc[c].Failed?)
  }

  /** Unless its map was ever replaced, a node still knows every id it has
      registered: it is pending, being called back, or has been called back. */
  ghost predicate Remembered(s: State) {
    forall c :: 0 <= c < |s.calls| && c < |s.loc| && !s.loc[c].Issued? && s.calls[c].caller !in s.amnesic ==>
      Remembers(s, s.calls[c].caller, s.calls[c].id)
  }

  predicate Remembers(s: State, n: NodeId, id: nat) {
    || (n, id) in s.pending
    || (n, id) in s.fired
    || (n < |s.hand| && s.hand[n].Deleted? && s.hand[n].r.id == id)
  }

  ghost predicate Inv(s: State) {
    Placed(s) && Named(s) && Pending(s) && Correlated(s) && FiredOnce(s) && AcceptedOnce(s) && Remembered(s)
  }

  lemma InitInv(s: State)
    requires Init(s)
    ensures Inv(s)
  {}

  // ----- Lists and moves -----

  lemma {:induction false} WithoutFacts(q: seq<nat>, c: nat)
    requires NoDup(q)
    ensures NoDup(Without(q, c)) && forall x :: x in Without(q, c) <==> x in q && x != c
  {
    if q != [] {
      TailNoDup(q);
      WithoutFacts(q[1..], c);
      assert q == [q[0]] + q[1..];
      if q[0] != c { PrependNoDup(q[0], Without(q[1..], c)); }
    }
  }

  lemma Found(s: State, c: nat, p: Place, n: NodeId)
    requires Placed(s) && c in At(s, p, n)
    ensures c < |s.calls| && s.loc[c] == p && n == Home(s.calls[c], p)
  {
    assert ListOk(s, p, n);
  }

  lemma PlacedMove(s: State, s': State, c: nat, p: Place, n: NodeId, q: Place, m: NodeId)
    requires Placed(s) && c < |s.calls| && s.loc[c] == p && n == Home(s.calls[c], p)
    requires p != q && m == Home(s.calls[c], q)
    requires s' == Move(s, c, p, n, q, m)
    ensures Placed(s')
  {
    forall p1: Place, n1: NodeId ensures ListOk(s', p1, n1) {
      assert ListOk(s, p1, n1);
      if (p1, n1) == (p, n) {
        WithoutFacts(At(s, p, n), c);
        assert At(s', p1, n1) == Without(At(s, p, n), c);
      } else if (p1, n1) == (q, m) {
        AppendNoDup(At(s, q, m), c);
        assert At(s', p1, n1) == At(s, q, m) + [c];
      } else {
        assert At(s', p1, n1) == At(s, p1, n1);
      }
    }
  }

  lemma PlacedNew(s: State, s': State, n: NodeId, m: NodeId, o: Option<nat>)
    requires Placed(s) && s' == NewCall(s, n, m, o)
    ensures Placed(s')
  {
    var c := |s.calls|;
    forall p1: Place, n1: NodeId ensures ListOk(s', p1, n1) {
      assert ListOk(s, p1, n1);
      if (p1, n1) == (Issued, n) {
        AppendNoDup(At(s, Issued, n), c);
        assert At(s', p1, n1) == At(s, Issued, n) + [c];
      } else {
        assert At(s', p1, n1) == At(s, p1, n1);
      }
    }
  }

  lemma PlacedSame(s: State, s': State)
    requires Placed(s) && s'.calls == s.calls && s'.at == s.at && s'.loc == s.loc
    ensures Placed(s')
  {
    forall p: Place, n: NodeId ensures ListOk(s', p, n) {
      assert ListOk(s, p, n) && At(s', p, n) == At(s, p, n);
    }
  }

  // ----- What later states keep -----

  /** Calls stay as they were sent, a registered one stays registered, and a
      forwarded one stays forwarded. */
  ghost predicate Grows(s: State, s': State) {
    && s.calls <= s'.calls && |s.loc| == |s.calls| && |s'.loc| == |s'.calls| && s.nextId <= s'.nextId
    && s'.kinds == s.kinds
    && forall c :: 0 <= c < |s.calls| ==>
         (!s.loc[c].Issued? ==> !s'.loc[c].Issued?) && (s.loc[c].Forwarded? ==> s'.loc[c].Forwarded?)
  }

  lemma GrowsRegistered(s: State, s': State, n: NodeId, id: nat, c: nat)
    requires Grows(s, s') && Registered(s, n, id, c)
    ensures Registered(s', n, id, c)
  {}

  lemma GrowsAbout(s: State, s': State, n: NodeId, r: Rep, c: nat)
    requires Grows(s, s') && About(s, n, r, c)
    ensures About(s', n, r, c)
  {}

  lemma GrowsGenuine(s: State, s': State, n: NodeId, r: Rep)
    requires Grows(s, s') && Genuine(s, n, r)
    ensures Genuine(s', n, r)
  {
    var c :| About(s, n, r, c);
    GrowsAbout(s, s', n, r, c);
  }

  lemma GrowsHand(s: State, s': State, n: NodeId, h: Hand)
    requires Grows(s, s') && GoodHand(s, n, h)
    ensures GoodHand(s', n, h)
  {
    if h.Holding? {
      GrowsGenuine(s, s', n, h.r);
    } else if !h.Empty? {
      GrowsAbout(s, s', n, h.r, h.c);
    }
  }

  lemma NamedSame(s: State, s': State)
    requires Named(s) && Grows(s, s') && s'.calls == s.calls
    requires |s'.replyCh| == |s.replyCh| && |s'.hand| == |s.hand|
    ensures Named(s')
  {
    forall i | 0 <= i < |s'.calls| && s'.calls[i].origin.Some? ensures ForwardOf(s', i, s'.calls[i].origin.value) {
      assert ForwardOf(s, i, s.calls[i].origin.value);
    }
  }

  lemma GrowsNew(s: State, n: NodeId, m: NodeId, o: Option<nat>)
    requires |s.loc| == |s.calls|
    ensures Grows(s, NewCall(s, n, m, o))
  {}

  lemma GrowsForward(s: State, s': State, i: nat, o: nat)
    requires Grows(s, s') && ForwardOf(s, i, o) && i < |s.calls|
    ensures ForwardOf(s', i, o)
  {}

  lemma NamedNew(s: State, s': State, n: NodeId, m: NodeId, o: Option<nat>)
    requires Named(s) && s' == NewCall(s, n, m, o) && n < |s.kinds| && m < |s.kinds|
    requires o.Some? ==> o.value < |s.calls| && n == s.calls[o.value].callee && s.loc[o.value].Forwarded?
    requires o.Some? ==> s.kinds[n].Balancer? && s.kinds[m].App?
    requires o.Some? ==> forall i :: 0 <= i < |s.calls| ==> s.calls[i].origin != o
    ensures Named(s') && Grows(s, s')
  {
    GrowsNew(s, n, m, o);
    assert o.Some? ==> ForwardOf(s', |s.calls|, o.value);
    hide ForwardOf, Grows;
    forall i | 0 <= i < |s'.calls| && s'.calls[i].origin.Some? ensures ForwardOf(s', i, s'.calls[i].origin.value) {
      if i < |s.calls| { GrowsForward(s, s', i, s.calls[i].origin.value); }
    }
  }

  lemma PendingSame(s: State, s': State)
    requires Pending(s) && Grows(s, s')
    requires forall k :: k in s'.pending ==> k in s.pending && s'.pending[k] == s.pending[k]
    ensures Pending(s')
  {
    forall k | k in s'.pending ensures Registered(s', k.0, k.1, s'.pending[k]) {
      GrowsRegistered(s, s', k.0, k.1, s.pending[k]);
    }
  }

  lemma CorrelatedSame(s: State, s': State)
    requires Correlated(s) && Grows(s, s') && s'.replyCh == s.replyCh && s'.hand == s.hand
    ensures Correlated(s')
  {
    forall n, k | 0 <= n < |s'.replyCh| && 0 <= k < |s'.replyCh[n]| ensures Genuine(s', n, s'.replyCh[n][k]) {
      GrowsGenuine(s, s', n, s.replyCh[n][k]);
    }
    forall n | 0 <= n < |s'.hand| ensures GoodHand(s', n, s'.hand[n]) {
      GrowsHand(s, s', n, s.hand[n]);
    }
  }

  lemma CorrelatedPush(s: State, s': State, n: NodeId, r: Rep)
    requires Correlated(s) && Grows(s, s') && s'.hand == s.hand
    requires n < |s.replyCh| && s'.replyCh == s.replyCh[n := s.replyCh[n] + [r]] && Genuine(s', n, r)
    ensures Correlated(s')
  {
    forall m, k | 0 <= m < |s'.replyCh| && 0 <= k < |s'.replyCh[m]| ensures Genuine(s', m, s'.replyCh[m][k]) {
      if !(m == n && k == |s.replyCh[n]|) { GrowsGenuine(s, s', m, s.replyCh[m][k]); }
    }
    forall m | 0 <= m < |s'.hand| ensures GoodHand(s', m, s'.hand[m]) {
      GrowsHand(s, s', m, s.hand[m]);
    }
  }

  lemma FiredSame(s: State, s': State)
    requires FiredOnce(s) && Grows(s, s') && s'.hand == s.hand && s'.fired == s.fired
    requires forall k :: k in s'.pending ==> k in s.pending
    ensures FiredOnce(s')
  {
    forall k | 0 <= k < |s'.fired| ensures Spent(s', s'.fired[k].0, s'.fired[k].1) {
      SpentSame(s, s', s.fired[k].0, s.fired[k].1);
    }
  }

  lemma SpentSame(s: State, s': State, n: NodeId, id: nat)
    requires Spent(s, n, id) && Grows(s, s') && ((n, id) in s'.pending ==> (n, id) in s.pending)
    requires n < |s'.hand| ==> n < |s.hand| && (InHand(s'.hand[n], id) ==> InHand(s.hand[n], id))
    ensures Spent(s', n, id)
  {
    var c :| Registered(s, n, id, c);
    GrowsRegistered(s, s', n, id, c);
  }

  lemma RememberedSame(s: State, s': State)
    requires Remembered(s) && Grows(s, s')
    requires forall c :: 0 <= c < |s'.calls| && !s'.loc[c].Issued? ==> c < |s.calls| && !s.loc[c].Issued?
    requires s'.pending == s.pending && s'.hand == s.hand && s'.fired == s.fired && s'.amnesic == s.amnesic
    ensures Remembered(s')
  {
    forall c | 0 <= c < |s'.calls| && c < |s'.loc| && !s'.loc[c].Issued? && s'.calls[c].caller !in s'.amnesic
      ensures Remembers(s', s'.calls[c].caller, s'.calls[c].id)
    {
      assert Remembers(s, s.calls[c].caller, s.calls[c].id);
    }
  }

  lemma AcceptedSame(s: State, s': State)
    requires AcceptedOnce(s) && s'.accepted == s.accepted && s'.senderErrors == s.senderErrors
    requires |s'.loc| == |s'.calls| && |s.calls| <= |s'.calls|
    requires forall c :: 0 <= c < |s'.calls| ==>
               && (TakenIn(s'.loc[c]) <==> c < |s.calls| && TakenIn(s.loc[c]))
               && (s'.loc[c].Failed? <==> c < |s.calls| && s.loc[c].Failed?)
    ensures AcceptedOnce(s')
  {}

  // ----- The invariant, change by change -----

  /** All of the invariant but the acceptance histories. */
  ghost predicate Base(s: State) {
    Placed(s) && Named(s) && Pending(s) && Correlated(s) && FiredOnce(s) && Remembered(s)
  }

  lemma BaseSame(s: State, s': State)
    requires Base(s)
    requires s' == s.(accepted := s'.accepted, senderErrors := s'.senderErrors,
                      answers := s'.answers, delivered := s'.delivered, unknown := s'.unknown)
    ensures Base(s')
  {
    hide Placed, Named, Pending, Correlated, FiredOnce, Remembered;
    GrowsRefl(s, s');
    PlacedSame(s, s');
    NamedSame(s, s');
    PendingSame(s, s');
    CorrelatedSame(s, s');
    FiredSame(s, s');
    RememberedSame(s, s');
  }

  lemma GrowsRefl(s: State, s': State)
    requires Placed(s) && s'.calls == s.calls && s'.loc == s.loc && s'.nextId == s.nextId && s'.kinds == s.kinds
    ensures Grows(s, s')
  {}

  lemma BasePush(s: State, n: NodeId, r: Rep)
    requires Base(s) && n < |s.replyCh| && Genuine(s, n, r)
    ensures Base(Push(s, n, r))
  {
    var s' := Push(s, n, r);
    GrowsRefl(s, s');
    GrowsGenuine(s, s', n, r);
    hide Placed, Named, Pending, Correlated, FiredOnce, Remembered, Genuine;
    PlacedSame(s, s');
    NamedSame(s, s');
    PendingSame(s, s');
    CorrelatedPush(s, s', n, r);
    FiredSame(s, s');
    RememberedSame(s, s');
  }

  lemma BaseMove(s: State, c: nat, p: Place, n: NodeId, q: Place, m: NodeId)
    requires Base(s) && c < |s.calls| && c < |s.loc| && s.loc[c] == p && n == Home(s.calls[c], p)
    requires p != q && m == Home(s.calls[c], q) && !p.Issued? && !q.Issued? && !p.Forwarded?
    ensures Base(Move(s, c, p, n, q, m)) && Grows(s, Move(s, c, p, n, q, m))
  {
    var s' := Move(s, c, p, n, q, m);
    PlacedMove(s, s', c, p, n, q, m);
    hide Placed, Named, Pending, Correlated, FiredOnce, Remembered;
    assert Grows(s, s') by { GrowsMove(s, c, p, n, q, m); }
    NamedSame(s, s');
    PendingSame(s, s');
    CorrelatedSame(s, s');
    FiredSame(s, s');
    RememberedSame(s, s');
  }

  lemma GrowsMove(s: State, c: nat, p: Place, n: NodeId, q: Place, m: NodeId)
    requires Placed(s) && c < |s.calls| && s.loc[c] == p && !q.Issued? && !p.Forwarded?
    ensures Grows(s, Move(s, c, p, n, q, m))
  {}

  lemma BaseNew(s: State, n: NodeId, m: NodeId, o: Option<nat>)
    requires Base(s) && n < |s.kinds| && m < |s.kinds|
    requires o.Some? ==> o.value < |s.calls| == |s.loc| && n == s.calls[o.value].callee && s.loc[o.value].Forwarded?
    requires o.Some? ==> s.kinds[n].Balancer? && s.kinds[m].App?
    requires o.Some? ==> forall i :: 0 <= i < |s.calls| ==> s.calls[i].origin != o
    ensures Base(NewCall(s, n, m, o))
  {
    var s' := NewCall(s, n, m, o);
    hide Placed, Named, Pending, Correlated, FiredOnce, Remembered;
    PlacedNew(s, s', n, m, o);
    NamedNew(s, s', n, m, o);
    PendingSame(s, s');
    CorrelatedSame(s, s');
    FiredSame(s, s');
    RememberedSame(s, s');
  }

  lemma DrawInv(s: State, s': State)
    requires Inv(s) && Draw(s, s')
    ensures Inv(s')
  {
    hide Placed, Named, Pending, Correlated, FiredOnce, Remembered;
    assert Grows(s, s') by { SizeOk(s); }
    PlacedSame(s, s');
    NamedSame(s, s');
    PendingSame(s, s');
    CorrelatedSame(s, s');
    FiredSame(s, s');
    RememberedSame(s, s') by { SizeOk(s); }
    AcceptedSame(s, s') by { SizeOk(s); }
  }

  lemma StartInv(s: State, s': State, n: NodeId, b: NodeId)
    requires Inv(s) && Start(s, s', n, b)
    ensures Inv(s')
  {
    hide Placed, Named, Pending, Correlated, FiredOnce, Remembered;
    BaseNew(s, n, b, None);
    AcceptedSame(s, s');
  }

  lemma AcceptInv(s: State, s': State, n: NodeId, c: nat, p: Place)
    requires Inv(s) && Accept(s, s', n, c, p)
    ensures Inv(s')
  {
    hide Placed, Named, Pending, Correlated, FiredOnce, Remembered;
    Found(s, c, p, n);
    BaseMove(s, c, p, n, Channel, s.calls[c].callee);
    BaseSame(Move(s, c, p, n, Channel, s.calls[c].callee), s');
    AppendNoDup(s.accepted, c);
  }

  lemma ShiftInv(s: State, s': State, n: NodeId, c: nat, p: Place, q: Place)
    requires Inv(s) && Shift(s, s', n, c, p, q)
    ensures Inv(s')
  {
    hide Placed, Named, Pending, Correlated, FiredOnce, Remembered;
    Found(s, c, p, n);
    BaseMove(s, c, p, n, q, n);
    AcceptedSame(s, s');
  }

  lemma SenderFailsInv(s: State, s': State, n: NodeId, c: nat)
    requires Inv(s) && SenderFails(s, s', n, c)
    ensures Inv(s')
  {
    hide Placed, Named, Pending, Correlated, FiredOnce, Remembered;
    Found(s, c, Draining, n);
    BaseMove(s, c, Draining, n, Failed, n);
    var t, r := Move(s, c, Draining, n, Failed, n), Rep(s.calls[c].id, c, STATUS_UNAVAILABLE);
    assert About(t, n, r, c);
    BasePush(t, n, r);
    BaseSame(Push(t, n, r), s');
    AppendNoDup(s.senderErrors, c);
  }

  lemma RefuseInv(s: State, s': State, n: NodeId, c: nat)
    requires Inv(s) && Refuse(s, s', n, c)
    ensures Inv(s')
  {
    hide Placed, Named, Pending, Correlated, FiredOnce, Remembered;
    Found(s, c, Batch, n);
    BaseMove(s, c, Batch, n, Refused, n);
    var t, r := Move(s, c, Batch, n, Refused, n), Rep(s.calls[c].id, c, STATUS_UNAVAILABLE);
    assert About(t, s.calls[c].caller, r, c);
    BasePush(t, s.calls[c].caller, r);
    BaseSame(Push(t, s.calls[c].caller, r), s');
    AcceptedSame(s, s');
  }

  lemma AnswerInv(s: State, s': State, n: NodeId, c: nat, status: nat)
    requires Inv(s) && Answer(s, s', n, c, status)
    ensures Inv(s')
  {
    hide Placed, Named, Pending, Correlated, FiredOnce, Remembered;
    Found(s, c, Working, n);
    var r := Rep(s.calls[c].id, c, status);
    assert About(s, s.calls[c].caller, r, c);
    BasePush(s, s.calls[c].caller, r);
    BaseSame(Push(s, s.calls[c].caller, r), s');
    AcceptedSame(s, s');
  }

  lemma ForwardInv(s: State, s': State, b: NodeId, c: nat, a: NodeId)
    requires Inv(s) && Forward(s, s', b, c, a)
    ensures Inv(s')
  {
    hide Placed, Pending, Correlated, FiredOnce, Remembered;
    Found(s, c, Batch, b);
    BaseMove(s, c, Batch, b, Forwarded, b);
    var t := Move(s, c, Batch, b, Forwarded, b);
    forall i | 0 <= i < |t.calls| ensures t.calls[i].origin != Some(c) {
      assert s.calls[i].origin.Some? ==> ForwardOf(s, i, s.calls[i].origin.value);
    }
    BaseNew(t, b, a, Some(c));
    AcceptedSame(s, s');
  }

  lemma SameId(s: State, a: nat, b: nat)
    requires Named(s) && a < |s.calls| && b < |s.calls| && s.calls[a].id == s.calls[b].id
    ensures a == b
  {}

  /** A call not yet registered has not been called back, nor is it about to be. */
  lemma Untouched(s: State, n: NodeId, c: nat)
    requires Named(s) && Correlated(s) && FiredOnce(s) && c < |s.calls| && s.loc[c].Issued?
    ensures (n, s.calls[c].id) !in s.fired
    ensures n < |s.hand| ==> !InHand(s.hand[n], s.calls[c].id)
  {
    var id := s.calls[c].id;
    forall k | 0 <= k < |s.fired| ensures s.fired[k] != (n, id) {
      assert Spent(s, s.fired[k].0, s.fired[k].1);
      var d :| Registered(s, s.fired[k].0, s.fired[k].1, d);
      if d != c && s.fired[k].1 == id { SameId(s, c, d); }
    }
    if n < |s.hand| {
      assert GoodHand(s, n, s.hand[n]);
      if s.hand[n].Matched? || s.hand[n].Deleted? {
        if s.hand[n].c != c && s.hand[n].r.id == id { SameId(s, c, s.hand[n].c); }
      }
    }
  }

  lemma RegisterInv(s: State, s': State, n: NodeId, c: nat)
    requires Inv(s) && Register(s, s', n, c)
    ensures Inv(s')
  {
    hide Placed, Named, Correlated, FiredOnce, Remembered;
    Found(s, c, Issued, n);
    var t := Move(s, c, Issued, n, Offering, n);
    PlacedMove(s, t, c, Issued, n, Offering, n);
    PlacedSame(t, s');
    assert Grows(s, s') by { assert |s.loc| == |s.calls| by { SizeOk(s); } }
    NamedSame(s, s');
    CorrelatedSame(s, s');
    AcceptedSame(s, s');
    Untouched(s, n, c);
    assert Pending(s') by {
      forall k | k in s'.pending ensures Registered(s', k.0, k.1, s'.pending[k]) {
        if k != (n, s.calls[c].id) { GrowsRegistered(s, s', k.0, k.1, s.pending[k]); }
      }
    }
    RegisterFired(s, s', n, c);
    RegisterRemembered(s, s', n, c);
  }

  lemma SizeOk(s: State)
    requires Placed(s)
    ensures |s.loc| == |s.calls|
  {}

  lemma RegisterFired(s: State, s': State, n: NodeId, c: nat)
    requires FiredOnce(s) && Grows(s, s') && c < |s.calls| && s'.hand == s.hand && s'.fired == s.fired
    requires s'.pending == s.pending[(n, s.calls[c].id) := c]
    requires (n, s.calls[c].id) !in s.fired && (n < |s.hand| ==> !InHand(s.hand[n], s.calls[c].id))
    ensures FiredOnce(s')
  {
    forall k | 0 <= k < |s'.fired| ensures Spent(s', s'.fired[k].0, s'.fired[k].1) {
      assert s.fired[k] in s.fired;
      SpentSame(s, s', s.fired[k].0, s.fired[k].1);
    }
  }

  lemma RegisterRemembered(s: State, s': State, n: NodeId, c: nat)
    requires Remembered(s) && Grows(s, s') && c < |s.calls| && s.calls[c].caller == n && s'.calls == s.calls
    requires s'.hand == s.hand && s'.fired == s.fired && s'.amnesic == s.amnesic
    requires s'.pending == s.pending[(n, s.calls[c].id) := c]
    requires forall d :: 0 <= d < |s.calls| && d != c ==> s'.loc[d] == s.loc[d]
    ensures Remembered(s')
  {
    forall d | 0 <= d < |s'.calls| && d < |s'.loc| && !s'.loc[d].Issued? && s'.calls[d].caller !in s'.amnesic
      ensures Remembers(s', s'.calls[d].caller, s'.calls[d].id)
    {
      if d != c { assert Remembers(s, s.calls[d].caller, s.calls[d].id); }
    }
  }

  // ----- The reply goroutine's steps -----

  /** Only node n's hand, reply channel, pending entries or callbacks change. */
  ghost predicate ReplyStep(s: State, s': State, n: NodeId) {
    && s'.calls == s.calls && s'.loc == s.loc && s'.at == s.at && s'.nextId == s.nextId && s'.kinds == s.kinds
    && s'.accepted == s.accepted && s'.senderErrors == s.senderErrors
    && n < |s.hand| == |s'.hand| && |s'.replyCh| == |s.replyCh|
    && (forall m :: 0 <= m < |s.hand| && m != n ==> s'.hand[m] == s.hand[m])
    && (forall k :: k in s'.pending ==> k in s.pending && s'.pending[k] == s.pending[k])
  }

  lemma ReplyStepInv(s: State, s': State, n: NodeId)
    requires Inv(s) && ReplyStep(s, s', n) && Correlated(s') && FiredOnce(s') && Remembered(s')
    ensures Inv(s')
  {
    hide Placed, Named, Correlated, FiredOnce, Remembered;
    GrowsRefl(s, s');
    PlacedSame(s, s');
    NamedSame(s, s');
    PendingSame(s, s');
    AcceptedSame(s, s') by { SizeOk(s); }
  }

  /** Correlation when only node n's hand changes, and its channel may shrink. */
  lemma CorrelatedHand(s: State, s': State, n: NodeId)
    requires Correlated(s) && Placed(s) && ReplyStep(s, s', n) && GoodHand(s, n, s'.hand[n])
    requires forall m, k :: 0 <= m < |s'.replyCh| && 0 <= k < |s'.replyCh[m]| ==> s'.replyCh[m][k] in s.replyCh[m]
    ensures Correlated(s')
  {
    GrowsRefl(s, s');
    forall m, k | 0 <= m < |s'.replyCh| && 0 <= k < |s'.replyCh[m]| ensures Genuine(s', m, s'.replyCh[m][k]) {
      GrowsGenuine(s, s', m, s'.replyCh[m][k]);
    }
    forall m | 0 <= m < |s'.hand| ensures GoodHand(s', m, s'.hand[m]) {
      GrowsHand(s, s', m, s'.hand[m]);
    }
  }

  lemma ReceiveInv(s: State, s': State, n: NodeId)
    requires Inv(s) && Receive(s, s', n)
    ensures Inv(s')
  {
    GrowsRefl(s, s');
    hide Placed, Named, Pending, AcceptedOnce;
    assert Genuine(s, n, s.replyCh[n][0]);
    assert Correlated(s') by {
      hide FiredOnce, Remembered, Genuine;
      forall m, k | 0 <= m < |s'.replyCh| && 0 <= k < |s'.replyCh[m]| ensures s'.replyCh[m][k] in s.replyCh[m] {}
      CorrelatedHand(s, s', n);
    }
    assert FiredOnce(s') by {
      hide Correlated, Remembered;
      forall k | 0 <= k < |s'.fired| ensures Spent(s', s'.fired[k].0, s'.fired[k].1) {
        SpentSame(s, s', s.fired[k].0, s.fired[k].1);
      }
    }
    assert Remembered(s') by {
      hide Correlated, FiredOnce;
      forall c | 0 <= c < |s'.calls| && c < |s'.loc| && !s'.loc[c].Issued? && s'.calls[c].caller !in s'.amnesic
        ensures Remembers(s', s'.calls[c].caller, s'.calls[c].id)
      {
        assert Remembers(s, s.calls[c].caller, s.calls[c].id);
      }
    }
    ReplyStepInv(s, s', n);
  }

  lemma LookupInv(s: State, s': State, n: NodeId)
    requires Inv(s) && Lookup(s, s', n)
    ensures Inv(s')
  {
    var r := s.hand[n].r;
    GrowsRefl(s, s');
    hide Placed, AcceptedOnce;
    assert GoodHand(s, n, s.hand[n]);
    assert GoodHand(s, n, s'.hand[n]) by {
      hide FiredOnce, Remembered;
      if (n, r.id) in s.pending {
        var c, d :| c == s.pending[(n, r.id)] && About(s, n, r, d);
        assert Registered(s, n, r.id, c);
        SameId(s, c, d);
      }
    }
    CorrelatedHand(s, s', n);
    assert FiredOnce(s') by {
      hide Correlated, Remembered, Named, Pending;
      forall k | 0 <= k < |s'.fired| ensures Spent(s', s'.fired[k].0, s'.fired[k].1) {
        assert Spent(s, s.fired[k].0, s.fired[k].1);
        SpentSame(s, s', s.fired[k].0, s.fired[k].1);
      }
    }
    assert Remembered(s') by {
      hide Correlated, FiredOnce, Named, Pending;
      forall c | 0 <= c < |s'.calls| && c < |s'.loc| && !s'.loc[c].Issued? && s'.calls[c].caller !in s'.amnesic
        ensures Remembers(s', s'.calls[c].caller, s'.calls[c].id)
      {
        assert Remembers(s, s.calls[c].caller, s.calls[c].id);
      }
    }
    ReplyStepInv(s, s', n);
  }

  lemma DeleteInv(s: State, s': State, n: NodeId)
    requires Inv(s) && Delete(s, s', n)
    ensures Inv(s')
  {
    GrowsRefl(s, s');
    hide Placed, AcceptedOnce, Named, Pending;
    assert GoodHand(s, n, s.hand[n]);
    CorrelatedHand(s, s', n);
    assert FiredOnce(s') by {
      hide Correlated, Remembered;
      forall k | 0 <= k < |s'.fired| ensures Spent(s', s'.fired[k].0, s'.fired[k].1) {
        SpentSame(s, s', s.fired[k].0, s.fired[k].1);
      }
    }
    assert Remembered(s') by {
      hide Correlated, FiredOnce;
      forall c | 0 <= c < |s'.calls| && c < |s'.loc| && !s'.loc[c].Issued? && s'.calls[c].caller !in s'.amnesic
        ensures Remembers(s', s'.calls[c].caller, s'.calls[c].id)
      {
        assert Remembers(s, s.calls[c].caller, s.calls[c].id);
      }
    }
    ReplyStepInv(s, s', n);
  }

  /** The reply a balancer passes on is genuine for the caller it goes to. */
  lemma ForwardedReplyGenuine(s: State, b: NodeId, r: Rep, c: nat, o: nat)
    requires Named(s) && About(s, b, r, c) && s.calls[c].origin == Some(o)
    ensures o < |s.calls| && About(s, s.calls[o].caller, r.(id := s.calls[o].id), o)
  {
    assert ForwardOf(s, c, o);
    assert s.calls[r.call].origin.Some? ==> ForwardOf(s, r.call, s.calls[r.call].origin.value);
  }

  /** The record of the callback, before anything is passed on. */
  ghost predicate Called(s: State, t: State, n: NodeId, r: Rep, c: nat) {
    && n < |s.hand| && s.hand[n] == Deleted(r, c)
    && t == s.(hand := s.hand[n := Empty], fired := s.fired + [(n, r.id)])
  }

  lemma CalledFired(s: State, t: State, n: NodeId, r: Rep, c: nat)
    requires FiredOnce(s) && Called(s, t, n, r, c) && Grows(s, t) && Registered(s, n, r.id, c)
    ensures FiredOnce(t)
  {
    forall k | 0 <= k < |s.fired| ensures Spent(t, s.fired[k].0, s.fired[k].1) && s.fired[k] != (n, r.id) {
      assert Spent(s, s.fired[k].0, s.fired[k].1);
      SpentSame(s, t, s.fired[k].0, s.fired[k].1);
    }
    assert Registered(t, n, r.id, c);
    AppendNoDup(s.fired, (n, r.id));
  }

  lemma CalledRemembered(s: State, t: State, n: NodeId, r: Rep, c: nat)
    requires Remembered(s) && Called(s, t, n, r, c)
    ensures Remembered(t)
  {
    assert (n, r.id) in t.fired;
    forall d | 0 <= d < |t.calls| && d < |t.loc| && !t.loc[d].Issued? && t.calls[d].caller !in t.amnesic
      ensures Remembers(t, t.calls[d].caller, t.calls[d].id)
    {
      assert Remembers(s, s.calls[d].caller, s.calls[d].id);
      assert (s.calls[d].caller, s.calls[d].id) in s.fired ==> (s.calls[d].caller, s.calls[d].id) in t.fired;
    }
  }

  lemma CalledInv(s: State, t: State, n: NodeId, r: Rep, c: nat)
    requires Inv(s) && Called(s, t, n, r, c)
    ensures Inv(t) && About(t, n, r, c)
  {
    GrowsRefl(s, t);
    hide Placed, AcceptedOnce, Pending, Named, FiredOnce, Remembered;
    assert GoodHand(s, n, s.hand[n]);
    CorrelatedHand(s, t, n);
    hide Correlated;
    CalledFired(s, t, n, r, c);
    CalledRemembered(s, t, n, r, c);
    ReplyStepInv(s, t, n);
  }

  lemma CallBackInv(s: State, s': State, n: NodeId)
    requires Inv(s) && CallBack(s, s', n)
    ensures Inv(s')
  {
    hide Placed, AcceptedOnce, Pending, Correlated, FiredOnce, Remembered;
    var r, c := s.hand[n].r, s.hand[n].c;
    var t := s.(hand := s.hand[n := Empty], fired := s.fired + [(n, r.id)]);
    CalledInv(s, t, n, r, c);
    if s.calls[c].origin.Some? {
      var o := s.calls[c].origin.value;
      ForwardedReplyGenuine(t, n, r, c, o);
      hide Named;
      BasePush(t, t.calls[o].caller, r.(id := t.calls[o].id));
      AcceptedSame(t, s') by { SizeOk(t); }
    } else {
      hide Named;
      BaseSame(t, s');
      AcceptedSame(t, s') by { SizeOk(t); }
    }
  }

  lemma ForgetInv(s: State, s': State, n: NodeId)
    requires Inv(s) && Forget(s, s', n)
    ensures Inv(s')
  {
    GrowsRefl(s, s');
    hide Placed, AcceptedOnce, Named, Correlated, FiredOnce, Pending;
    PlacedSame(s, s');
    NamedSame(s, s');
    PendingSame(s, s');
    CorrelatedSame(s, s');
    FiredSame(s, s');
    AcceptedSame(s, s') by { SizeOk(s); }
    forall c | 0 <= c < |s'.calls| && c < |s'.loc| && !s'.loc[c].Issued? && s'.calls[c].caller !in s'.amnesic
      ensures Remembers(s', s'.calls[c].caller, s'.calls[c].id)
    {
      assert Remembers(s, s.calls[c].caller, s.calls[c].id);
    }
  }

  lemma NextInv(s: State, s': State, act: Action)
    requires Inv(s) && Next(s, s', act)
    ensures Inv(s')
  {
    hide Inv;
    match act
    case ActDraw => DrawInv(s, s');
    case ActStart(n, b) => StartInv(s, s', n, b);
    case ActRegister(n, c) => RegisterInv(s, s', n, c);
    case ActAccept(n, c, p) => AcceptInv(s, s', n, c, p);
    case ActShift(n, c, p, q) => ShiftInv(s, s', n, c, p, q);
    case ActSenderFails(n, c) => SenderFailsInv(s, s', n, c);
    case ActRefuse(n, c) => RefuseInv(s, s', n, c);
    case ActAnswer(n, c, status) => AnswerInv(s, s', n, c, status);
    case ActForward(n, c, a) => ForwardInv(s, s', n, c, a);
    case ActReceive(n) => ReceiveInv(s, s', n);
    case ActLookup(n) => LookupInv(s, s', n);
    case ActDelete(n) => DeleteInv(s, s', n);
    case ActCallBack(n) => CallBackInv(s, s', n);
    case ActForget(n) => ForgetInv(s, s', n);
  }

  // ----- Whole runs: any number of nodes, calls and interleavings -----

  ghost predicate Run(run: seq<State>, acts: seq<Action>) {
    && |run| == |acts| + 1 && Init(run[0])
    && forall k :: 0 <= k < |acts| ==> Next(run[k], run[k + 1], acts[k])
  }

  lemma {:induction false} RunInv(run: seq<State>, acts: seq<Action>, k: nat)
    requires Run(run, acts) && k < |run|
    ensures Inv(run[k])
  {
    hide Inv, Next;
    if k == 0 {
      InitInv(run[0]);
    } else {
      RunInv(run, acts, k - 1);
      NextInv(run[k - 1], run[k], acts[k - 1]);
    }
  }

  /** Every reply waiting at a node carries the id of a call that this node
      sent, and is about that call or about the one a balancer forwarded for it. */
  lemma RepliesAreOwn(run: seq<State>, acts: seq<Action>, k: nat, n: NodeId, j: nat)
    requires Run(run, acts) && k < |run| && n < |run[k].replyCh| && j < |run[k].replyCh[n]|
    ensures Genuine(run[k], n, run[k].replyCh[n][j])
  {
    RunInv(run, acts, k);
  }

  /** When a callback fires at node n for reply r, the pending entry is the call
      that n sent under r's id; the reply is about it or about the forward made
      for it, of which there is only one; and this id's callback never fired
      before. */
  lemma CallBackCorrelated(run: seq<State>, acts: seq<Action>, k: nat, n: NodeId)
    requires Run(run, acts) && k < |acts| && acts[k] == ActCallBack(n)
    ensures n < |run[k].hand| && run[k].hand[n].Deleted?
    ensures About(run[k], n, run[k].hand[n].r, run[k].hand[n].c)
    ensures forall c :: About(run[k], n, run[k].hand[n].r, c) ==> c == run[k].hand[n].c
    ensures forall i, j | 0 <= i < |run[k].calls| && 0 <= j < |run[k].calls| &&
                          run[k].calls[i].origin == run[k].calls[j].origin == Some(run[k].hand[n].c) :: i == j
    ensures (n, run[k].hand[n].r.id) !in run[k].fired
  {
    RunInv(run, acts, k);
    var s := run[k];
    assert CallBack(s, run[k + 1], n);
    assert GoodHand(s, n, s.hand[n]);
    forall c | About(s, n, s.hand[n].r, c) ensures c == s.hand[n].c {
      SameId(s, c, s.hand[n].c);
    }
    forall j | 0 <= j < |s.fired| ensures s.fired[j] != (n, s.hand[n].r.id) {
      assert Spent(s, s.fired[j].0, s.fired[j].1);
    }
  }

  /** Each registered id's callback fires at most once, whatever the cleanups do. */
  lemma CallbacksFireOnce(run: seq<State>, acts: seq<Action>, k: nat)
    requires Run(run, acts) && k < |run|
    ensures NoDup(run[k].fired)
  {
    RunInv(run, acts, k);
  }

  /** A lookup drops its reply only if the reply's callback has already fired or
      the node's map was replaced: calls are registered before they are offered. */
  lemma UnknownMeansAnswered(run: seq<State>, acts: seq<Action>, k: nat, n: NodeId)
    requires Run(run, acts) && k < |acts| && acts[k] == ActLookup(n)
    ensures n < |run[k].hand| && run[k].hand[n].Holding? && n < |run[k + 1].hand|
    ensures !run[k + 1].hand[n].Matched? ==> n in run[k].amnesic || (n, run[k].hand[n].r.id) in run[k].fired
  {
    RunInv(run, acts, k);
    var s := run[k];
    assert Lookup(s, run[k + 1], n);
    var r := s.hand[n].r;
    assert GoodHand(s, n, s.hand[n]);
    var c :| About(s, n, r, c);
    if n !in s.amnesic { assert Remembers(s, n, r.id); }
  }

  /** Token conservation: in every reachable state each call is on exactly one
      list, once. */
  lemma OnePlace(run: seq<State>, acts: seq<Action>, k: nat, c: nat)
    requires Run(run, acts) && k < |run| && c < |run[k].calls|
    ensures var s := run[k];
            exists p: Place, n: NodeId ::
              c in At(s, p, n) && NoDup(At(s, p, n))
              && forall p1: Place, n1: NodeId :: c in At(s, p1, n1) ==> p1 == p && n1 == n
  {
    RunInv(run, acts, k);
    var s := run[k];
    var p, n := s.loc[c], Home(s.calls[c], s.loc[c]);
    assert ListOk(s, p, n);
    forall p1: Place, n1: NodeId | c in At(s, p1, n1) ensures p1 == p && n1 == n {
      assert ListOk(s, p1, n1);
    }
  }

  /** A call is accepted at most once; and once the sender has answered it with
      a timeout or an exhaustion, which also happens at most once, it never was
      and never is accepted. */
  lemma AcceptedAtMostOnce(run: seq<State>, acts: seq<Action>, k: nat)
    requires Run(run, acts) && k < |run|
    ensures NoDup(run[k].accepted) && NoDup(run[k].senderErrors)
    ensures forall c :: c in run[k].accepted ==> c !in run[k].senderErrors
  {
    RunInv(run, acts, k);
  }

  /** The callback step is never stuck: the call, the call it was forwarded for
      and that call's reply channel all exist. */
  lemma CallBackEnabled(run: seq<State>, acts: seq<Action>, k: nat, n: NodeId)
    requires Run(run, acts) && k < |run| && n < |run[k].hand| && run[k].hand[n].Deleted?
    ensures exists s' :: CallBack(run[k], s', n)
  {
    RunInv(run, acts, k);
    var s := run[k];
    assert GoodHand(s, n, s.hand[n]);
    var r, c := s.hand[n].r, s.hand[n].c;
    var t := s.(hand := s.hand[n := Empty], fired := s.fired + [(n, r.id)]);
    match s.calls[c].origin
    case None =>
      assert CallBack(s, t.(delivered := s.delivered + [(r.call, r.status)]), n);
    case Some(o) =>
      assert ForwardOf(s, c, o);
      assert CallBack(s, Push(t, s.calls[o].caller, r.(id := s.calls[o].id)), n);
  }

  // ----- The ledger of replies: their statuses, and where each of them is -----

  function Pair(r: Rep): (nat, nat) {
    (r.call, r.status)
  }

  /** How often x occurs. */
  function Times<T(==)>(q: seq<T>, x: T): nat {
    if q == [] then 0 else Times(q[..|q| - 1], x) + (if q[|q| - 1] == x then 1 else 0)
  }

  lemma TimesNext<T>(q: seq<T>, y: T, x: T)
    ensures Times(q + [y], x) == Times(q, x) + (if y == x then 1 else 0)
  {
    assert (q + [y])[..|q|] == q;
  }

  lemma {:induction false} TimesHere<T>(q: seq<T>, x: T)
    ensures Times(q, x) > 0 <==> x in q
  {
    if q != [] {
      TimesHere(q[..|q| - 1], x);
      assert q == q[..|q| - 1] + [q[|q| - 1]];
    }
  }

  /** How often a reply with this call and status waits in the channel. */
  function Waiting(q: seq<Rep>, x: (nat, nat)): nat {
    if q == [] then 0 else (if Pair(q[0]) == x then 1 else 0) + Waiting(q[1..], x)
  }

  function Held(h: Hand, x: (nat, nat)): nat {
    if !h.Empty? && Pair(h.r) == x then 1 else 0
  }

  /** ... in any channel or in any hand. */
  function Flight(chs: seq<seq<Rep>>, hs: seq<Hand>, x: (nat, nat)): nat
    requires |chs| == |hs|
  {
    if chs == [] then 0
    else Flight(chs[..|chs| - 1], hs[..|hs| - 1], x) + Waiting(chs[|chs| - 1], x) + Held(hs[|hs| - 1], x)
  }

  lemma {:induction false} WaitingNext(q: seq<Rep>, r: Rep, x: (nat, nat))
    ensures Waiting(q + [r], x) == Waiting(q, x) + (if Pair(r) == x then 1 else 0)
  {
    if q == [] {
      assert q + [r] == [r] && [r][1..] == [];
    } else {
      assert (q + [r])[1..] == q[1..] + [r];
      WaitingNext(q[1..], r, x);
    }
  }

  lemma {:induction false} FlightNode(chs: seq<seq<Rep>>, hs: seq<Hand>, n: nat, q: seq<Rep>, h: Hand, x: (nat, nat))
    requires |chs| == |hs| && n < |chs|
    ensures Flight(chs[n := q], hs[n := h], x) + Waiting(chs[n], x) + Held(hs[n], x)
         == Flight(chs, hs, x) + Waiting(q, x) + Held(h, x)
  {
    var m := |chs| - 1;
    if n < m {
      FlightNode(chs[..m], hs[..m], n, q, h, x);
      assert chs[n := q][..m] == chs[..m][n := q] && hs[n := h][..m] == hs[..m][n := h];
    } else {
      assert chs[n := q][..m] == chs[..m] && hs[n := h][..m] == hs[..m];
    }
  }

  lemma {:induction false} FlightHas(chs: seq<seq<Rep>>, hs: seq<Hand>, n: nat, x: (nat, nat))
    requires |chs| == |hs| && n < |chs|
    ensures Waiting(chs[n], x) + Held(hs[n], x) <= Flight(chs, hs, x)
  {
    if n < |chs| - 1 { FlightHas(chs[..|chs| - 1], hs[..|hs| - 1], n, x); }
  }

  lemma {:induction false} WaitingHere(q: seq<Rep>, j: nat)
    requires j < |q|
    ensures Waiting(q, Pair(q[j])) > 0
  {
    if j > 0 { WaitingHere(q[1..], j - 1); }
  }

  function CountFor(answers: seq<(nat, nat)>, c: nat): nat {
    if answers == [] then 0
    else CountFor(answers[..|answers| - 1], c) + (if answers[|answers| - 1].0 == c then 1 else 0)
  }

  lemma CountNext(answers: seq<(nat, nat)>, x: (nat, nat), c: nat)
    ensures CountFor(answers + [x], c) == CountFor(answers, c) + (if x.0 == c then 1 else 0)
  {
    assert (answers + [x])[..|answers|] == answers;
  }

  lemma {:induction false} CountNew(answers: seq<(nat, nat)>, c: nat)
    requires forall k :: 0 <= k < |answers| ==> answers[k].0 < c
    ensures CountFor(answers, c) == 0
  {
    if answers != [] { CountNew(answers[..|answers| - 1], c); }
  }

  /** The answers a call has had, by where it is: exactly one, an error, if it was
      refused or its sender gave up; any if it was turned into tasks; else none. */
  ghost predicate AnswersFit(s: State, c: nat)
    requires c < |s.loc|
  {
    match s.loc[c]
    case Refused => CountFor(s.answers, c) == 1 && (c, STATUS_UNAVAILABLE) in s.answers
    case Failed => CountFor(s.answers, c) == 1 && (c, STATUS_UNAVAILABLE) in s.answers
    case Working => true
    case _ => CountFor(s.answers, c) == 0
  }

  ghost predicate Fitting(s: State) {
    && |s.loc| == |s.calls|
    && (forall k :: 0 <= k < |s.answers| ==> s.answers[k].0 < |s.calls|)
    && (forall c :: 0 <= c < |s.loc| ==> AnswersFit(s, c))
  }

  /** Every reply made, with its status, is in a channel, in a hand, delivered to
      a callback that passes it on no more, or dropped as unknown: once. */
  ghost predicate Kept(s: State) {
    |s.replyCh| == |s.hand| && forall x: (nat, nat) :: KeptOne(s, x)
  }

  ghost predicate KeptOne(s: State, x: (nat, nat))
    requires |s.replyCh| == |s.hand|
  {
    Times(s.answers, x) == Flight(s.replyCh, s.hand, x) + Times(s.delivered, x) + Times(s.unknown, x)
  }

  lemma {:induction false} FlightStart(chs: seq<seq<Rep>>, hs: seq<Hand>, x: (nat, nat))
    requires |chs| == |hs| && forall n :: 0 <= n < |chs| ==> chs[n] == [] && hs[n].Empty?
    ensures Flight(chs, hs, x) == 0
  {
    if chs != [] { FlightStart(chs[..|chs| - 1], hs[..|hs| - 1], x); }
  }

  lemma KeptStart(s: State)
    requires Init(s)
    ensures Kept(s) && Fitting(s)
  {
    forall x: (nat, nat) ensures KeptOne(s, x) { FlightStart(s.replyCh, s.hand, x); }
  }

  lemma KeptSame(s: State, s': State)
    requires Kept(s) && s'.replyCh == s.replyCh && s'.hand == s.hand
    requires s'.answers == s.answers && s'.delivered == s.delivered && s'.unknown == s.unknown
    ensures Kept(s')
  {
    forall x: (nat, nat) ensures KeptOne(s', x) { assert KeptOne(s, x); }
  }

  /** A reply is made and pushed on node n's channel. */
  lemma KeptPush(s: State, s': State, n: NodeId, r: Rep)
    requires Kept(s) && n < |s.replyCh| && s'.replyCh == s.replyCh[n := s.replyCh[n] + [r]] && s'.hand == s.hand
    requires s'.answers == s.answers + [Pair(r)] && s'.delivered == s.delivered && s'.unknown == s.unknown
    ensures Kept(s')
  {
    hide Flight, Times, Waiting;
    assert s.hand[n := s.hand[n]] == s.hand;
    forall x: (nat, nat) ensures KeptOne(s', x) {
      assert KeptOne(s, x);
      WaitingNext(s.replyCh[n], r, x);
      TimesNext(s.answers, Pair(r), x);
      FlightNode(s.replyCh, s.hand, n, s.replyCh[n] + [r], s.hand[n], x);
    }
  }

  lemma KeptReceive(s: State, s': State, n: NodeId)
    requires Kept(s) && Receive(s, s', n)
    ensures Kept(s')
  {
    hide Flight, Times;
    var q := s.replyCh[n];
    forall x: (nat, nat) ensures KeptOne(s', x) {
      assert KeptOne(s, x);
      FlightNode(s.replyCh, s.hand, n, q[1..], Holding(q[0]), x);
    }
  }

  /** Lookup, delete or a callback that ends its reply: only a hand moves on. */
  lemma KeptHand(s: State, s': State, n: NodeId)
    requires Kept(s) && n < |s.hand| == |s'.hand| && !s.hand[n].Empty? && s'.hand == s.hand[n := s'.hand[n]]
    requires s'.replyCh == s.replyCh && s'.answers == s.answers
    requires var x := Pair(s.hand[n].r);
             if s'.hand[n].Empty? then
               || (s'.unknown == s.unknown + [x] && s'.delivered == s.delivered)
               || (s'.delivered == s.delivered + [x] && s'.unknown == s.unknown)
             else s'.hand[n].r == s.hand[n].r && s'.unknown == s.unknown && s'.delivered == s.delivered
    ensures Kept(s')
  {
    hide Flight, Times, Waiting;
    var y := Pair(s.hand[n].r);
    assert s.replyCh[n := s.replyCh[n]] == s.replyCh;
    forall x: (nat, nat) ensures KeptOne(s', x) {
      assert KeptOne(s, x);
      FlightNode(s.replyCh, s.hand, n, s.replyCh[n], s'.hand[n], x);
      TimesNext(s.unknown, y, x);
      TimesNext(s.delivered, y, x);
    }
  }

  lemma KeptCallBack(s: State, s': State, n: NodeId)
    requires Kept(s) && CallBack(s, s', n)
    ensures Kept(s')
  {
    hide Flight, Times, Waiting;
    var r, c := s.hand[n].r, s.hand[n].c;
    if s.calls[c].origin.None? {
      KeptHand(s, s', n);
    } else {
      var o := s.calls[c].origin.value;
      var m, passed, hs := s.calls[o].caller, r.(id := s.calls[o].id), s.hand[n := Empty];
      assert s.replyCh[n := s.replyCh[n]] == s.replyCh && hs[m := hs[m]] == hs;
      forall x: (nat, nat) ensures KeptOne(s', x) {
        assert KeptOne(s, x);
        FlightNode(s.replyCh, s.hand, n, s.replyCh[n], Empty, x);
        WaitingNext(s.replyCh[m], passed, x);
        FlightNode(s.replyCh, hs, m, s.replyCh[m] + [passed], hs[m], x);
      }
    }
  }

  /** No new answers, and only call c moved, from and to places without any. */
  lemma FittingMove(s: State, s': State)
    requires Fitting(s) && s'.answers == s.answers && |s'.loc| == |s'.calls| && |s.calls| <= |s'.calls|
    requires forall c :: 0 <= c < |s'.loc| ==>
               if c < |s.loc| then
                 s'.loc[c] == s.loc[c]
                 || (!s.loc[c].Working? && !s.loc[c].Refused? && !s.loc[c].Failed?
                     && !s'.loc[c].Refused? && !s'.loc[c].Failed?)
               else s'.loc[c].Issued?
    ensures Fitting(s')
  {
    forall c | 0 <= c < |s'.loc| ensures AnswersFit(s', c) {
      if c < |s.loc| { assert AnswersFit(s, c); } else { CountNew(s.answers, c); }
    }
  }

  /** One new answer about call c, which it ends with an error, or which is work. */
  lemma FittingAnswer(s: State, s': State, c: nat, status: nat)
    requires Fitting(s) && c < |s.calls| && s'.answers == s.answers + [(c, status)] && s'.calls == s.calls
    requires |s'.loc| == |s.loc| && forall d :: 0 <= d < |s.loc| && d != c ==> s'.loc[d] == s.loc[d]
    requires if s.loc[c].Working? then s'.loc[c].Working?
             else !s.loc[c].Refused? && !s.loc[c].Failed? && (s'.loc[c].Refused? || s'.loc[c].Failed?)
                  && status == STATUS_UNAVAILABLE
    ensures Fitting(s')
  {
    forall d | 0 <= d < |s'.loc| ensures AnswersFit(s', d) {
      assert AnswersFit(s, d);
      CountNext(s.answers, (c, status), d);
      if d != c && (s.loc[d].Refused? || s.loc[d].Failed?) { assert (d, STATUS_UNAVAILABLE) in s'.answers; }
      if d == c { assert s'.answers[|s.answers|] == (c, status); }
    }
  }

  lemma LedgerNext(s: State, s': State, act: Action)
    requires Inv(s) && Kept(s) && Fitting(s) && Next(s, s', act)
    ensures Kept(s') && Fitting(s')
  {
    hide Named, Pending, Correlated, FiredOnce, AcceptedOnce, Remembered;
    SizeOk(s);
    match act
    case ActSenderFails(n, c) => Found(s, c, Draining, n); LedgerAnswer(s, s', n, c, STATUS_UNAVAILABLE);
    case ActRefuse(n, c) => Found(s, c, Batch, n); LedgerAnswer(s, s', s.calls[c].caller, c, STATUS_UNAVAILABLE);
    case ActAnswer(n, c, status) => Found(s, c, Working, n); LedgerAnswer(s, s', s.calls[c].caller, c, status);
    case ActReceive(n) => LedgerReply(s, s', n, act);
    case ActLookup(n) => LedgerReply(s, s', n, act);
    case ActDelete(n) => LedgerReply(s, s', n, act);
    case ActCallBack(n) => LedgerReply(s, s', n, act);
    case _ => LedgerMove(s, s', act);
  }

  lemma LedgerAnswer(s: State, s': State, n: NodeId, c: nat, status: nat)
    requires Kept(s) && Fitting(s) && c < |s.calls| && c < |s.loc| && n < |s.replyCh|
    requires s'.replyCh == Push(s, n, Rep(s.calls[c].id, c, status)).replyCh && s'.hand == s.hand && s'.calls == s.calls
    requires s'.answers == s.answers + [(c, status)] && s'.delivered == s.delivered && s'.unknown == s.unknown
    requires |s'.loc| == |s.loc| && forall d :: 0 <= d < |s.loc| && d != c ==> s'.loc[d] == s.loc[d]
    requires if s.loc[c].Working? then s'.loc[c].Working?
             else !s.loc[c].Refused? && !s.loc[c].Failed? && (s'.loc[c].Refused? || s'.loc[c].Failed?)
                  && status == STATUS_UNAVAILABLE
    ensures Kept(s') && Fitting(s')
  {
    hide Kept, Fitting;
    KeptPushed(s, s', n, Rep(s.calls[c].id, c, status));
    FittingAnswer(s, s', c, status);
  }

  lemma KeptPushed(s: State, s': State, n: NodeId, r: Rep)
    requires Kept(s) && n < |s.replyCh| && s'.replyCh == Push(s, n, r).replyCh && s'.hand == s.hand
    requires s'.answers == s.answers + [(r.call, r.status)] && s'.delivered == s.delivered && s'.unknown == s.unknown
    ensures Kept(s')
  {
    KeptPush(s, s', n, r);
  }

  lemma LedgerReply(s: State, s': State, n: NodeId, act: Action)
    requires Kept(s) && Fitting(s) && Next(s, s', act)
    requires act == ActReceive(n) || act == ActLookup(n) || act == ActDelete(n) || act == ActCallBack(n)
    ensures Kept(s') && Fitting(s')
  {
    assert Fitting(s') by { FittingMove(s, s'); }
    hide Fitting;
    match act
    case ActReceive(_) => KeptReceive(s, s', n);
    case ActLookup(_) => KeptHand(s, s', n);
    case ActDelete(_) => KeptHand(s, s', n);
    case ActCallBack(_) => KeptCallBack(s, s', n);
  }

  lemma LedgerMove(s: State, s': State, act: Action)
    requires Placed(s) && Kept(s) && Fitting(s) && Next(s, s', act)
    requires act.ActDraw? || act.ActStart? || act.ActRegister? || act.ActAccept? || act.ActShift? || act.ActForward?
          || act.ActForget?
    ensures Kept(s') && Fitting(s')
  {
    match act {
      case ActRegister(n, c) => Found(s, c, Issued, n);
      case ActAccept(n, c, p) => Found(s, c, p, n);
      case ActShift(n, c, p, q) => Found(s, c, p, n);
      case ActForward(n, c, a) => Found(s, c, Batch, n);
      case _ =>
    }
    hide Placed;
    KeptSame(s, s');
    FittingMove(s, s');
  }

  lemma {:induction false} RunLedger(run: seq<State>, acts: seq<Action>, k: nat)
    requires Run(run, acts) && k < |run|
    ensures Kept(run[k]) && Fitting(run[k])
  {
    hide Inv, Next, Kept, Fitting;
    if k == 0 {
      KeptStart(run[0]);
    } else {
      RunInv(run, acts, k - 1);
      RunLedger(run, acts, k - 1);
      LedgerNext(run[k - 1], run[k], acts[k - 1]);
    }
  }

  /** In every reachable state each reply ever made is, with the status it was
      made with, in exactly one place: a channel, a reply goroutine's hand, the
      callback of a source or an app, or dropped as unknown. */
  lemma RepliesConserved(run: seq<State>, acts: seq<Action>, k: nat)
    requires Run(run, acts) && k < |run|
    ensures var s := run[k];
            && |s.replyCh| == |s.hand|
            && forall x: (nat, nat) ::
                 Times(s.answers, x) == Flight(s.replyCh, s.hand, x) + Times(s.delivered, x) + Times(s.unknown, x)
  {
    RunLedger(run, acts, k);
    var s := run[k];
    forall x: (nat, nat)
      ensures Times(s.answers, x) == Flight(s.replyCh, s.hand, x) + Times(s.delivered, x) + Times(s.unknown, x)
    {
      assert KeptOne(s, x);
    }
  }

  /** So every reply in a channel or a hand has the status that an answer about
      its call was made with: none turns into another on its way. */
  lemma StatusKept(run: seq<State>, acts: seq<Action>, k: nat, n: NodeId)
    requires Run(run, acts) && k < |run| && n < |run[k].replyCh|
    ensures forall j :: 0 <= j < |run[k].replyCh[n]| ==>
              (run[k].replyCh[n][j].call, run[k].replyCh[n][j].status) in run[k].answers
    ensures n < |run[k].hand|
    ensures !run[k].hand[n].Empty? ==> (run[k].hand[n].r.call, run[k].hand[n].r.status) in run[k].answers
  {
    RunLedger(run, acts, k);
    var s := run[k];
    forall j | 0 <= j < |s.replyCh[n]| ensures Pair(s.replyCh[n][j]) in s.answers {
      WaitingHere(s.replyCh[n], j);
      InAnswers(s, n, Pair(s.replyCh[n][j]));
    }
    if !s.hand[n].Empty? { InAnswers(s, n, Pair(s.hand[n].r)); }
  }

  lemma InAnswers(s: State, n: NodeId, x: (nat, nat))
    requires Kept(s) && n < |s.replyCh| && Waiting(s.replyCh[n], x) + Held(s.hand[n], x) > 0
    ensures x in s.answers
  {
    FlightHas(s.replyCh, s.hand, n, x);
    assert KeptOne(s, x);
    TimesHere(s.answers, x);
  }

  /** A call that was refused, or that its sender gave up, has been answered
      exactly once, with an error; one that was not turned into tasks either has
      not been answered at all. */
  lemma AnsweredByPlace(run: seq<State>, acts: seq<Action>, k: nat, c: nat)
    requires Run(run, acts) && k < |run| && c < |run[k].calls|
    ensures c < |run[k].loc|
    ensures var p := run[k].loc[c];
            if p.Refused? || p.Failed? then
              CountFor(run[k].answers, c) == 1 && (c, STATUS_UNAVAILABLE) in run[k].answers
            else p.Working? || CountFor(run[k].answers, c) == 0
  {
    RunLedger(run, acts, k);
    assert AnswersFit(run[k], c);
  }

  /** The callback of a forward puts exactly one more reply in the channel of the
      first call's sender: under that call's id, about the same call and with the
      same status. Any other callback is the end of its reply. */
  lemma CallBackPassesOn(run: seq<State>, acts: seq<Action>, k: nat, n: NodeId)
    requires Run(run, acts) && k < |acts| && acts[k] == ActCallBack(n)
    ensures n < |run[k].hand| && run[k].hand[n].Deleted? && run[k].hand[n].c < |run[k].calls|
    ensures var s, s', r := run[k], run[k + 1], run[k].hand[n].r;
            match s.calls[s.hand[n].c].origin
            case None => s'.replyCh == s.replyCh && s'.delivered == s.delivered + [(r.call, r.status)]
            case Some(o) =>
              && o < |s.calls| && s.calls[o].caller < |s.replyCh|
              && s'.replyCh == s.replyCh[s.calls[o].caller :=
                   s.replyCh[s.calls[o].caller] + [Rep(s.calls[o].id, r.call, r.status)]]
              && s'.delivered == s.delivered
  {
    assert CallBack(run[k], run[k + 1], n);
  }
}
