/** lb.go: round-robin choice of the instance a call is forwarded to, the call
    made for it and the reply passed back. */
module LoadBalancing {
  import opened Types

  // ----- Arithmetic of the cyclic index -----

  lemma Scale(a: int, b: int, n: int)
    requires a <= b && n >= 0
    ensures a * n <= b * n
  {}

  lemma DivMod(x: int, n: int, q: int, r: int)
    requires n >= 1 && x == q * n + r && 0 <= r < n
    ensures x / n == q && x % n == r
  {
    var q' := x / n;
    if q < q' { Scale(q + 1, q', n); }
    if q' < q { Scale(q' + 1, q, n); }
  }

  /** The next index of a cycle of n. */
  function Next(i: int, n: nat): int {
    if i + 1 == n then 0 else i + 1
  }

  lemma ModNext(x: int, n: nat)
    requires n >= 1
    ensures (x + 1) % n == Next(x % n, n)
  {
    var q, r := x / n, x % n;
    if r + 1 == n {
      assert x + 1 == (q + 1) * n + 0;
      DivMod(x + 1, n, q + 1, 0);
    } else {
      DivMod(x + 1, n, q, r + 1);
    }
  }

  /** How many of the m forwards that follow index i pick instance r. */
  function Picks(n: nat, i: int, m: nat, r: int): nat
    decreases m
  {
    if m == 0 then 0 else (if Next(i, n) == r then 1 else 0) + Picks(n, Next(i, n), m - 1, r)
  }

  /** The number of forwards after index i up to the first that picks r. */
  function Gap(n: nat, i: int, r: int): int {
    if r > i then r - i else r - i + n
  }

  /** Instance r is picked once every n forwards, first after its gap. */
  lemma {:induction false} PicksCount(n: nat, i: int, m: nat, r: int, c: nat)
    requires n >= 1 && 0 <= i < n && 0 <= r < n
    requires (c as int - 1) * n + Gap(n, i, r) <= m < c * n + Gap(n, i, r)
    ensures Picks(n, i, m, r) == c
    decreases m
  {
    if m == 0 {
      if c >= 1 { Scale(0, c - 1, n); }
    } else if Next(i, n) == r {
      assert Gap(n, i, r) == 1 && Gap(n, r, r) == n;
      assert (c - 1) * n == (c - 2) * n + n && c * n == (c - 1) * n + n;
      PicksCount(n, r, m - 1, r, c - 1);
    } else {
      assert Gap(n, Next(i, n), r) == Gap(n, i, r) - 1;
      PicksCount(n, Next(i, n), m - 1, r, c);
    }
  }

  /** Balance: among any m consecutive forwards each instance of n is picked
      floor(m/n) or ceil(m/n) times. */
  lemma Balance(n: nat, i: int, m: nat, r: int)
    requires n >= 1 && 0 <= i < n && 0 <= r < n
    ensures m / n <= Picks(n, i, m, r) <= (m + n - 1) / n
  {
    var q: nat, s := m / n, m % n;
    Rows(n, q, s, m);
    if s < Gap(n, i, r) {
      PicksCount(n, i, m, r, q);
    } else {
      PicksCount(n, i, m, r, q + 1);
    }
  }

  lemma Rows(n: nat, q: nat, s: int, m: nat)
    requires n >= 1 && q == m / n && s == m % n
    ensures m == q * n + s && (q + 1) * n == q * n + n && (q - 1) * n == q * n - n
    ensures (m + n - 1) / n == if s == 0 then q else q + 1
  {
    if s == 0 { DivMod(m + n - 1, n, q, n - 1); } else { DivMod(m + n - 1, n, q + 1, s - 1); }
  }

  // ----- The balancer -----

  const NETWORK_DELAY := 5.0    // networkDelayConst
  const FORWARD_TIMEOUT := 90.0

  class LB {
    const self: NodeId
    const poolSize: nat        // len(appInstances)
    var lastSent: int
    var forwarded: seq<int>    // the instance each handled call was sent to, in order

    constructor (self: NodeId, poolSize: nat)
      ensures this.self == self && this.poolSize == poolSize && lastSent == 0 && forwarded == []
    {
      this.self := self;
      this.poolSize := poolSize;
      lastSent := 0;
      forwarded := [];
    }

    ghost predicate Valid()
      reads this
    {
      poolSize >= 1 && lastSent == |forwarded| && InTurn(forwarded, poolSize)
    }

    /** handleCall: step the counter, pick its instance and make the call for
        it, under the request id that sendCall draws. Go panics on an empty
        pool (division by zero). */
    method HandleCall(c: Call, now: real, id: int) returns (instance: int, newCall: Call)
      requires poolSize >= 1 && Valid()
      modifies this
      ensures Valid() && 0 <= instance < poolSize
      ensures forwarded == old(forwarded) + [instance]
      ensures instance == Next(if old(forwarded) == [] then 0 else old(forwarded[|forwarded| - 1]), poolSize)
      ensures newCall.reqID == id && newCall.caller == self
      ensures newCall.timeoutMs == 90.0 && newCall.wakeup == now + 5.0
    {
      ModNext(lastSent, poolSize);
      lastSent := lastSent + 1;
      instance := lastSent % poolSize;
      newCall := Call(id, self, now + NETWORK_DELAY, FORWARD_TIMEOUT);
      forwarded := forwarded + [instance];
    }
  }

  ghost predicate InTurn(s: seq<int>, n: nat)
    requires n >= 1
  {
    forall k :: 0 <= k < |s| ==> s[k] == (k + 1) % n
  }

  function Count(s: seq<int>, r: int): nat {
    if s == [] then 0 else (if s[0] == r then 1 else 0) + Count(s[1..], r)
  }

  lemma {:induction false} CountIsPicks(s: seq<int>, n: nat, a: nat, b: nat, r: int)
    requires n >= 1 && InTurn(s, n) && a <= b <= |s|
    ensures Count(s[a..b], r) == Picks(n, a % n, b - a, r)
    decreases b - a
  {
    if a < b {
      ModNext(a, n);
      assert s[a..b][1..] == s[a + 1..b];
      CountIsPicks(s, n, a + 1, b, r);
    }
  }

  /** In every contiguous window of the calls a balancer has handled, each
      instance was chosen floor(m/n) or ceil(m/n) times. */
  lemma WindowBalanced(s: seq<int>, n: nat, a: nat, b: nat, r: int)
    requires n >= 1 && InTurn(s, n) && a <= b <= |s| && 0 <= r < n
    ensures (b - a) / n <= Count(s[a..b], r) <= (b - a + n - 1) / n
  {
    CountIsPicks(s, n, a, b, r);
    Balance(n, a % n, b - a, r);
  }
}
