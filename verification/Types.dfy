/** The records that travel between nodes (call.go, reply.go) and small shared types. */
module Types {

  datatype Option<+T> = None | Some(value: T)

  type NodeId = nat

  /** A random cost: "should be >= 0 for all p" (distributions.go:13-15). */
  type Cost = x: real | x >= 0.0 witness 0.0

  /** A call as its callee sees it; nothing below writes to one after it is sent. */
  datatype Call = Call(reqID: int, caller: NodeId, wakeup: real, timeoutMs: real)

  datatype Reply = Reply(reqID: int, status: nat, call: Call)

  const STATUS_OK: nat := 0
  const STATUS_UNAVAILABLE: nat := 503

  function ErrorReply(c: Call): Reply {
    Reply(c.reqID, STATUS_UNAVAILABLE, c)
  }

  function Min(a: real, b: real): real {
    if a <= b then a else b
  }

  function Max(a: real, b: real): real {
    if a >= b then a else b
  }

  /** Go's conversion from float64 to int truncates toward zero. */
  function Trunc(x: real): int {
    if x >= 0.0 then x.Floor else -(-x).Floor
  }

  function Ceil(x: real): int {
    -(-x).Floor
  }

  lemma CeilIsLeastAbove(x: real)
    ensures Ceil(x) as real >= x > Ceil(x) as real - 1.0
  {}

  lemma Scale(a: real, b: real, f: real)
    requires a <= b && f >= 0.0
    ensures a * f <= b * f && f * a <= f * b
  {}

  /** Repeating a positive amount often enough passes any target. */
  lemma Enough(amount: real, target: real) returns (n: nat)
    requires amount > 0.0 && target >= 0.0
    ensures n as real * amount >= target
  {
    var q := target / amount;
    n := Ceil(q);
    Scale(q, n as real, amount);
    assert q * amount == target;
  }

  lemma OneMore(k: nat, eps: real)
    ensures (k + 1) as real * eps == k as real * eps + eps
  {
    var x := k as real;
    assert (k + 1) as real == x + 1.0;
    assert (x + 1.0) * eps == x * eps + eps;
  }
}
