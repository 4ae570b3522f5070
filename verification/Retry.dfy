/** retry.go: capped exponential backoff with jitter. */
module Retry {
  import opened Types

  datatype RetryPolicy = RetryPolicy(
    maxRetries: int, initialDelay: real, backoffFactor: real, maxDelay: real, jitter: real)

  /** rand.Float64. */
  type Draw = r: real | 0.0 <= r < 1.0 witness 0.0

  const DEFAULT_POLICY := RetryPolicy(3, 100.0, 2.0, 5000.0, 0.2)

  function Pow(b: real, n: nat): real {
    if n == 0 then 1.0 else b * Pow(b, n - 1)
  }

  /** Exponential growth: one factor per attempt. */
  lemma {:induction false} PowAdds(b: real, m: nat, n: nat)
    ensures Pow(b, 1) == b
    ensures Pow(b, m + n) == Pow(b, m) * Pow(b, n)
    decreases m
  {
    assert Pow(b, 1) == b * Pow(b, 0);
    if m > 0 {
      PowAdds(b, m - 1, n);
      assert Pow(b, m + n) == b * Pow(b, m - 1 + n);
      assert b * (Pow(b, m - 1) * Pow(b, n)) == (b * Pow(b, m - 1)) * Pow(b, n);
    }
  }

  /** The delay before jitter: exponential, cut off at the policy's maximum. */
  function BaseDelay(p: RetryPolicy, attempt: nat): real {
    Min(p.initialDelay * Pow(p.backoffFactor, attempt), p.maxDelay)
  }

  function Jittered(delay: real, jitter: real, r: Draw): real {
    if jitter > 0.0 then delay + (r * 2.0 - 1.0) * (delay * jitter) else delay
  }

  function DelayForAttempt(p: RetryPolicy, attempt: nat, r: Draw): real {
    var delay := p.initialDelay * Pow(p.backoffFactor, attempt);
    Jittered(if delay > p.maxDelay then p.maxDelay else delay, p.jitter, r)
  }

  /** Delays are durations: what every policy in the repository satisfies. */
  predicate Sane(p: RetryPolicy) {
    p.initialDelay >= 0.0 && p.backoffFactor >= 0.0 && p.maxDelay >= 0.0
  }

  lemma {:induction false} PowNonNegative(b: real, n: nat)
    requires b >= 0.0
    ensures Pow(b, n) >= 0.0
  {
    if n > 0 { PowNonNegative(b, n - 1); }
  }

  lemma BaseNonNegative(p: RetryPolicy, attempt: nat)
    requires Sane(p)
    ensures BaseDelay(p, attempt) >= 0.0
  {
    PowNonNegative(p.backoffFactor, attempt);
  }

  lemma {:induction false} PowGrows(b: real, m: nat, n: nat)
    requires b >= 1.0 && m <= n
    ensures 0.0 <= Pow(b, m) <= Pow(b, n)
    decreases n
  {
    PowNonNegative(b, m);
    if m < n {
      PowGrows(b, m, n - 1);
      Scale(1.0, b, Pow(b, n - 1));
    }
  }

  /** With a factor of at least 1 the pre-jitter delay never shrinks from one
      attempt to a later one, and once at the cap it stays there. */
  lemma BackoffGrowsToCap(p: RetryPolicy, m: nat, n: nat)
    requires p.backoffFactor >= 1.0 && p.initialDelay >= 0.0 && m <= n
    ensures BaseDelay(p, m) <= BaseDelay(p, n)
    ensures BaseDelay(p, m) == p.maxDelay ==> BaseDelay(p, n) == p.maxDelay
  {
    PowGrows(p.backoffFactor, m, n);
    Scale(Pow(p.backoffFactor, m), Pow(p.backoffFactor, n), p.initialDelay);
  }

  /** Bernoulli: the powers of a factor below 1 shrink at least harmonically. */
  lemma {:induction false} PowShrinks(f: real, n: nat)
    requires 0.0 <= f <= 1.0
    ensures 0.0 <= Pow(f, n) && Pow(f, n) * (1.0 + n as real * (1.0 - f)) <= 1.0
  {
    PowNonNegative(f, n);
    if n > 0 {
      PowShrinks(f, n - 1);
      var x, m, g := Pow(f, n - 1), (n - 1) as real, 1.0 - f;
      assert n as real == m + 1.0 && Pow(f, n) == f * x;
      BernoulliStep(f, x, m, g);
    }
  }

  lemma BernoulliStep(f: real, x: real, m: real, g: real)
    requires 0.0 <= f && 0.0 <= g && f + g == 1.0 && 0.0 <= x && 0.0 <= m && x * (1.0 + m * g) <= 1.0
    ensures f * x * (1.0 + (m + 1.0) * g) <= 1.0
  {
    var d := g * g * (m + 1.0);
    Scale(0.0, g * g, m + 1.0);
    assert f * (1.0 + (m + 1.0) * g) == 1.0 + m * g - d;
    Scale(1.0 + m * g - d, 1.0 + m * g, x);
    assert f * x * (1.0 + (m + 1.0) * g) == x * (f * (1.0 + (m + 1.0) * g));
  }

  /** With a factor below 1, exponential decay gets below any positive bound. */
  lemma DecaysBelow(initial: real, f: real, bound: real) returns (n: nat)
    requires initial > 0.0 && 0.0 <= f < 1.0 && bound > 0.0
    ensures initial * Pow(f, n) < bound
  {
    var g := bound * (1.0 - f);
    n := Enough(g, initial);
    PowShrinks(f, n);
    var x, y := Pow(f, n), 1.0 + n as real * (1.0 - f);
    assert bound * y == bound + n as real * g;
    assert initial * x * y == initial * (x * y);
    Scale(x * y, 1.0, initial);
    if initial * x >= bound { Scale(bound, initial * x, y); }
  }

  /** The pre-jitter delay never shrinks from one attempt to a later one exactly
      when the factor is at least 1, or the initial or the maximum delay makes
      every delay the same. */
  lemma BackoffGrowsExactly(p: RetryPolicy)
    requires p.initialDelay >= 0.0 && p.backoffFactor >= 0.0
    ensures (forall m: nat, n: nat :: m <= n ==> BaseDelay(p, m) <= BaseDelay(p, n))
       <==> p.backoffFactor >= 1.0 || p.initialDelay == 0.0 || p.maxDelay <= 0.0
  {
    if p.backoffFactor >= 1.0 {
      forall m: nat, n: nat | m <= n ensures BaseDelay(p, m) <= BaseDelay(p, n) { BackoffGrowsToCap(p, m, n); }
    } else if p.initialDelay == 0.0 || p.maxDelay <= 0.0 {
      forall m: nat ensures BaseDelay(p, m) == Min(p.initialDelay, p.maxDelay) {
        PowNonNegative(p.backoffFactor, m);
        Scale(0.0, Pow(p.backoffFactor, m), p.initialDelay);
      }
    } else {
      var n := DecaysBelow(p.initialDelay, p.backoffFactor, Min(p.initialDelay, p.maxDelay));
      assert BaseDelay(p, 0) == Min(p.initialDelay, p.maxDelay);
      assert BaseDelay(p, n) < BaseDelay(p, 0);
    }
  }

  /** The longest and shortest the jittered delay can be. */
  function MostDelay(p: RetryPolicy, attempt: nat): real {
    if p.jitter > 0.0 then BaseDelay(p, attempt) * (1.0 + p.jitter) else BaseDelay(p, attempt)
  }

  function LeastDelay(p: RetryPolicy, attempt: nat): real {
    if p.jitter > 0.0 then BaseDelay(p, attempt) * (1.0 - p.jitter) else BaseDelay(p, attempt)
  }

  lemma Spread(base: real, jitter: real, u: real)
    requires base >= 0.0 && jitter > 0.0 && -1.0 <= u <= 1.0
    ensures base * (1.0 - jitter) == base - base * jitter && base * (1.0 + jitter) == base + base * jitter
    ensures 0.0 <= base * jitter
    ensures -(base * jitter) <= u * (base * jitter) <= base * jitter
  {
    var spread := base * jitter;
    assert spread >= 0.0;
    Scale(-1.0, u, spread);
    Scale(u, 1.0, spread);
  }

  lemma Stretch(base: real, jitter: real, r: Draw)
    requires base >= 0.0 && jitter > 0.0
    ensures base * (1.0 - jitter) <= Jittered(base, jitter, r) <= base * (1.0 + jitter)
    ensures base <= base * (1.0 + jitter)
  {
    Spread(base, jitter, r * 2.0 - 1.0);
  }

  /** The jittered delay lies within the fraction `jitter` of the base delay. */
  lemma JitterBand(p: RetryPolicy, attempt: nat, r: Draw)
    requires Sane(p)
    ensures LeastDelay(p, attempt) <= DelayForAttempt(p, attempt, r) <= MostDelay(p, attempt)
    ensures 0.0 <= BaseDelay(p, attempt) <= MostDelay(p, attempt)
  {
    BaseNonNegative(p, attempt);
    if p.jitter > 0.0 {
      Stretch(BaseDelay(p, attempt), p.jitter, r);
    }
  }

  lemma DelayIsJittered(p: RetryPolicy, attempt: nat, r: Draw)
    ensures DelayForAttempt(p, attempt, r) == Jittered(BaseDelay(p, attempt), p.jitter, r)
    ensures BaseDelay(p, attempt) <= p.maxDelay
  {}

  lemma JitterMarks(base: real, jitter: real)
    requires jitter > 0.0
    ensures Jittered(base, jitter, 0.0) == base * (1.0 - jitter) && Jittered(base, jitter, 0.5) == base
  {
    var w := base * jitter;
    assert base * (1.0 - jitter) == base - w;
  }

  /** Jitter is linear in the draw, over the width of its band. */
  lemma JitterLinear(base: real, jitter: real, r: Draw, r': Draw)
    requires jitter > 0.0
    ensures Jittered(base, jitter, r') - Jittered(base, jitter, r)
         == (r' - r) * (base * (1.0 + jitter) - base * (1.0 - jitter))
  {
    var w := base * jitter;
    assert base * (1.0 + jitter) - base * (1.0 - jitter) == 2.0 * w;
    assert (r' * 2.0 - 1.0) * w - (r * 2.0 - 1.0) * w == (r' - r) * (2.0 * w);
  }

  lemma NoJitter(base: real, jitter: real, r: Draw)
    requires jitter <= 0.0
    ensures Jittered(base, jitter, r) == base
  {}

  lemma SignOfLeast(base: real, jitter: real)
    requires base > 0.0
    ensures base * (1.0 - jitter) >= 0.0 <==> jitter <= 1.0
  {
    if jitter <= 1.0 { Scale(0.0, 1.0 - jitter, base); } else { assert base * (jitter - 1.0) > 0.0; }
  }

  /** No draw schedules a retry in the past exactly when the base delay is not
      negative and jitter cannot outweigh it. */
  lemma NeverInThePast(p: RetryPolicy, attempt: nat)
    ensures (forall r: Draw :: DelayForAttempt(p, attempt, r) >= 0.0)
       <==> BaseDelay(p, attempt) >= 0.0 && (BaseDelay(p, attempt) == 0.0 || p.jitter <= 1.0)
  {
    hide DelayForAttempt, Jittered, BaseDelay;
    var base, j := BaseDelay(p, attempt), p.jitter;
    forall r: Draw ensures DelayForAttempt(p, attempt, r) == Jittered(base, j, r) { DelayIsJittered(p, attempt, r); }
    var zero: Draw, half: Draw := 0.0, 0.5;
    assert DelayForAttempt(p, attempt, zero) == Jittered(base, j, zero);
    assert DelayForAttempt(p, attempt, half) == Jittered(base, j, half);
    if j <= 0.0 {
      forall r: Draw ensures Jittered(base, j, r) == base { NoJitter(base, j, r); }
    } else {
      JitterMarks(base, j);
      if base > 0.0 { SignOfLeast(base, j); }
      if base >= 0.0 {
        forall r: Draw ensures base * (1.0 - j) <= Jittered(base, j, r) { Stretch(base, j, r); }
      }
    }
  }

  /** The draw at which a delay that jitter may lift over the bound is over it. */
  lemma JitterLifts(base: real, jitter: real, bound: real) returns (r: Draw)
    requires base > 0.0 && jitter > 0.0 && base * (1.0 + jitter) > bound
    ensures Jittered(base, jitter, r) > bound
  {
    var w, d := base * jitter, base * (1.0 + jitter) - bound;
    assert w > 0.0;
    var e := Min(1.0, d / (4.0 * w));
    Scale(e, d / (4.0 * w), w);
    assert d / (4.0 * w) * w == d / 4.0;
    r := 1.0 - e;
    assert (r * 2.0 - 1.0) * w == w - 2.0 * (e * w);
  }

  lemma BelowZero(base: real, jitter: real, r: Draw)
    requires base <= 0.0 && jitter > 0.0
    ensures base * (1.0 + jitter) <= base * (1.0 - jitter)
    ensures Jittered(base, jitter, r) <= base * (1.0 - jitter)
  {
    var w := -(base * jitter);
    Scale(0.0, -base, jitter);
    assert base * (1.0 - jitter) == base + w && base * (1.0 + jitter) == base - w;
    Scale(-1.0, r * 2.0 - 1.0, w);
  }

  /** Jitter comes after the cap. No draw lifts a delay over the maximum exactly
      when there is no jitter or both ends of its band are within the maximum. */
  lemma NeverOverMax(p: RetryPolicy, attempt: nat)
    ensures (forall r: Draw :: DelayForAttempt(p, attempt, r) <= p.maxDelay)
       <==> p.jitter <= 0.0
            || (BaseDelay(p, attempt) * (1.0 - p.jitter) <= p.maxDelay
                && BaseDelay(p, attempt) * (1.0 + p.jitter) <= p.maxDelay)
  {
    hide DelayForAttempt, Jittered, BaseDelay;
    var base, j, max := BaseDelay(p, attempt), p.jitter, p.maxDelay;
    DelayIsJittered(p, attempt, 0.0);
    forall r: Draw ensures DelayForAttempt(p, attempt, r) == Jittered(base, j, r) { DelayIsJittered(p, attempt, r); }
    if j <= 0.0 {
      forall r: Draw ensures Jittered(base, j, r) == base { NoJitter(base, j, r); }
    } else {
      JitterMarks(base, j);
      var zero: Draw := 0.0;
      assert DelayForAttempt(p, attempt, zero) == Jittered(base, j, zero);
      if base <= 0.0 {
        forall r: Draw ensures Jittered(base, j, r) <= base * (1.0 - j) { BelowZero(base, j, r); }
        BelowZero(base, j, 0.0);
      } else if base * (1.0 + j) > max {
        var r := JitterLifts(base, j, max);
        assert DelayForAttempt(p, attempt, r) == Jittered(base, j, r);
      } else {
        forall r: Draw ensures base * (1.0 - j) <= Jittered(base, j, r) <= base * (1.0 + j) { Stretch(base, j, r); }
      }
    }
  }
}
