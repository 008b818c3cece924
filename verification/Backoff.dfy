/**
  The bounded backoff after a failed attempt, over the reals.
  (src/hermes_life_bridge/retry_engine.py, retry_delay_seconds)
*/
module Backoff {
  import opened Basics
  import opened ReliabilityContract

  function Power(base: real, n: nat): real {
    if n == 0 then 1.0 else base * Power(base, n - 1)
  }

  /** min(max, initial * multiplier^(attempt - 1)) */
  function Nominal(p: RetryPolicy, attempt: int): real
    requires attempt >= 1
  {
    MinReal(p.maxBackoff, p.initialBackoff * Power(p.multiplier, attempt - 1))
  }

  function Jittered(nominal: real, unit: real, jitter: real): real {
    nominal * (1.0 + (unit * 2.0 - 1.0) * jitter)
  }

  /** The nominal backoff, spread by `unit` in [0, 1]. */
  function Delay(p: RetryPolicy, attempt: int, unit: real): real
    requires attempt >= 1
  {
    var nominal := Nominal(p, attempt);
    if p.jitter == 0.0 || nominal == 0.0 then nominal
    else MinReal(p.maxBackoff, Jittered(nominal, unit, p.jitter))
  }

  lemma {:induction false} PowerGrows(base: real, n: nat)
    requires base >= 1.0
    ensures 1.0 <= Power(base, n) <= Power(base, n + 1)
  {
    if n > 0 {
      PowerGrows(base, n - 1);
    }
    assert base * Power(base, n) >= 1.0 * Power(base, n);
  }

  lemma Times(a: real, b: real, c: real)
    requires 0.0 <= a && b <= c
    ensures a * b <= a * c
  {
  }

  lemma {:induction false} PowerMonotone(base: real, m: nat, n: nat)
    requires base >= 1.0 && m <= n
    ensures Power(base, m) <= Power(base, n)
    decreases n - m
  {
    if m < n {
      PowerGrows(base, m);
      PowerMonotone(base, m + 1, n);
    }
  }

  /** The wait never shrinks from one attempt to the next and never passes the cap. */
  lemma NominalGrows(p: RetryPolicy, a: int, b: int)
    requires ValidPolicy(p) && 1 <= a <= b
    ensures p.initialBackoff <= Nominal(p, a) <= Nominal(p, b) <= p.maxBackoff
  {
    PowerMonotone(p.multiplier, a - 1, b - 1);
    PowerMonotone(p.multiplier, 0, a - 1);
    Times(p.initialBackoff, Power(p.multiplier, a - 1), Power(p.multiplier, b - 1));
    Times(p.initialBackoff, 1.0, Power(p.multiplier, a - 1));
  }

  /** Jitter keeps the wait within a `jitter` share of the nominal, and under the cap. */
  lemma DelayIsBounded(p: RetryPolicy, attempt: int, unit: real)
    requires ValidPolicy(p) && attempt >= 1 && 0.0 <= unit <= 1.0
    ensures var nominal := Nominal(p, attempt);
            && nominal * (1.0 - p.jitter) <= Delay(p, attempt, unit)
            && Delay(p, attempt, unit) <= MinReal(p.maxBackoff, nominal * (1.0 + p.jitter))
            && 0.0 <= Delay(p, attempt, unit) <= p.maxBackoff
  {
    NominalGrows(p, attempt, attempt);
    JitterBound(Nominal(p, attempt), unit, p.jitter);
    hide Nominal, Jittered;
  }

  lemma JitterBound(nominal: real, unit: real, j: real)
    requires 0.0 <= nominal && 0.0 <= unit <= 1.0 && 0.0 <= j <= 1.0
    ensures 0.0 <= nominal * (1.0 - j) <= Jittered(nominal, unit, j) <= nominal * (1.0 + j)
    ensures nominal * (1.0 - j) <= nominal <= nominal * (1.0 + j)
  {
    var x := unit * 2.0 - 1.0;
    SwingBound(x, j);
    var swing := x * j;
    SpreadBound(nominal, swing, j);
  }

  /**
    The unit places the delay: the nominal one less the jitter at 0, the nominal
    one at 1/2, that plus the jitter at 1 unless capped, and no shorter for a
    greater unit.
  */
  lemma UnitSpreadsDelay(p: RetryPolicy, attempt: int, unit: real, more: real)
    requires ValidPolicy(p) && attempt >= 1 && 0.0 <= unit <= more <= 1.0
    ensures var nominal := Nominal(p, attempt);
            && Delay(p, attempt, 0.0) == nominal * (1.0 - p.jitter)
            && Delay(p, attempt, 0.5) == nominal
            && Delay(p, attempt, 1.0) == MinReal(p.maxBackoff, nominal * (1.0 + p.jitter))
            && Delay(p, attempt, unit) <= Delay(p, attempt, more)
  {
    var nominal := Nominal(p, attempt);
    NominalGrows(p, attempt, attempt);
    JitterBound(nominal, 0.0, p.jitter);
    Ends(nominal, p.jitter);
    Swings(nominal, p.jitter, unit, more);
    Times(nominal, 0.0, p.jitter);
    hide Nominal, Jittered;
  }

  lemma Swings(nominal: real, j: real, unit: real, more: real)
    requires 0.0 <= nominal && 0.0 <= j && unit <= more
    ensures Jittered(nominal, unit, j) <= Jittered(nominal, more, j)
  {
    Times(j, unit * 2.0 - 1.0, more * 2.0 - 1.0);
    Times(nominal, 1.0 + (unit * 2.0 - 1.0) * j, 1.0 + (more * 2.0 - 1.0) * j);
  }

  lemma Ends(nominal: real, j: real)
    ensures Jittered(nominal, 0.0, j) == nominal * (1.0 - j)
    ensures Jittered(nominal, 0.5, j) == nominal
    ensures Jittered(nominal, 1.0, j) == nominal * (1.0 + j)
    ensures j == 0.0 || nominal == 0.0 ==> nominal * (1.0 - j) == nominal == nominal * (1.0 + j)
  {
    assert (0.0 * 2.0 - 1.0) * j == -j && (0.5 * 2.0 - 1.0) * j == 0.0 && (1.0 * 2.0 - 1.0) * j == j;
  }

  lemma SwingBound(x: real, j: real)
    requires -1.0 <= x <= 1.0 && 0.0 <= j
    ensures -j <= x * j <= j
  {
    if x >= 0.0 {
      assert (1.0 - x) * j >= 0.0;
    } else {
      assert (x + 1.0) * j >= 0.0;
    }
  }

  lemma SpreadBound(nominal: real, swing: real, j: real)
    requires 0.0 <= nominal && -j <= swing <= j && 0.0 <= j <= 1.0
    ensures 0.0 <= nominal * (1.0 - j) <= nominal * (1.0 + swing) <= nominal * (1.0 + j)
    ensures nominal * (1.0 - j) <= nominal <= nominal * (1.0 + j)
  {
    Times(nominal, 0.0, 1.0 - j);
    Times(nominal, 1.0 - j, 1.0 + swing);
    Times(nominal, 1.0 + swing, 1.0 + j);
    Times(nominal, 1.0 - j, 1.0);
    Times(nominal, 1.0, 1.0 + j);
  }

  /** `n` waits of `m` each. */
  function Caps(n: nat, m: real): real {
    if n == 0 then 0.0 else Caps(n - 1, m) + m
  }

  lemma {:induction false} CapsAre(n: nat, m: real)
    ensures Caps(n, m) == n as real * m
  {
    if n > 0 {
      CapsAre(n - 1, m);
      var k := (n - 1) as real;
      assert n as real == k + 1.0;
      OneMore(k, m);
    }
  }

  lemma OneMore(k: real, m: real)
    ensures (k + 1.0) * m == k * m + m
  {
  }

  lemma {:induction false} CapsGrow(a: nat, b: nat, m: real)
    requires a <= b && 0.0 <= m
    ensures 0.0 <= Caps(a, m) <= Caps(b, m)
  {
    if a < b {
      CapsGrow(a, b - 1, m);
    } else if a > 0 {
      CapsGrow(a - 1, a - 1, m);
    }
  }

  /**
    retry_delay_seconds: the loop stops growing at the cap, and its result is
    the closed form. `unit` stands for the hash-derived number in [0, 1].
  */
  method RetryDelaySeconds(op: Operation, p: RetryPolicy, unit: real) returns (r: Result<real>)
    requires ValidPolicy(p) && 0.0 <= unit <= 1.0
    ensures r.Ok? <==> op.kind == p.retryClass && op.attempt >= 1
    ensures r.Ok? ==> r.value == Delay(p, op.attempt, unit)
    ensures r.Err? ==> r.error == PolicyError
  {
    if op.kind != p.retryClass || op.attempt < 1 {
      return Err(PolicyError);
    }
    hide Nominal, Jittered;
    var nominal := p.initialBackoff;
    var remaining := op.attempt - 1;
    NominalFirst(p);
    while remaining > 0 && nominal < p.maxBackoff
      invariant 0 <= remaining < op.attempt
      invariant nominal == Nominal(p, op.attempt - remaining)
      decreases remaining
    {
      NominalStep(p, op.attempt - remaining);
      nominal := MinReal(p.maxBackoff, nominal * p.multiplier);
      remaining := remaining - 1;
    }
    NominalGrows(p, op.attempt - remaining, op.attempt);
    DelayIsBounded(p, op.attempt, unit);
    if p.jitter == 0.0 || nominal == 0.0 {
      return Ok(nominal);
    }
    var capped := MinReal(p.maxBackoff, Jittered(nominal, unit, p.jitter));
    return Ok(if capped > 0.0 then capped else 0.0);
  }

  /** Below the cap, one growth step is one more power. */
  lemma NominalFirst(p: RetryPolicy)
    requires ValidPolicy(p)
    ensures Nominal(p, 1) == p.initialBackoff
  {
  }

  lemma NominalStep(p: RetryPolicy, attempt: int)
    requires attempt >= 1 && Nominal(p, attempt) < p.maxBackoff
    ensures Nominal(p, attempt + 1) == MinReal(p.maxBackoff, Nominal(p, attempt) * p.multiplier)
  {
    Reassociate(p.initialBackoff, p.multiplier, Power(p.multiplier, attempt - 1));
  }

  lemma Reassociate(a: real, b: real, c: real)
    ensures a * (b * c) == (a * c) * b
  {
  }
}
