/** The reconnection delay of the push connection: three seconds, growing by
    half each failed attempt, never above thirty seconds. Exact rationals stand
    for the JavaScript numbers; up to the cap every value involved is exact in
    double precision too. */
module Backoff {

  const BaseDelay: real := 3000.0
  const MaxDelay: real := 30000.0

  /** 1.5 raised to the k-th power. */
  function Growth(k: nat): (g: real)
    ensures g >= 1.0
  {
    if k == 0 then 1.0 else 1.5 * Growth(k - 1)
  }

  /** Milliseconds to wait before the next connection attempt, after k
      attempts since the last successful open. */
  function Delay(k: nat): (d: real)
    ensures BaseDelay <= d <= MaxDelay
  {
    var raw := BaseDelay * Growth(k);
    if raw < MaxDelay then raw else MaxDelay
  }

  lemma DelayFirstValues()
    ensures Delay(0) == 3000.0
    ensures Delay(1) == 4500.0
    ensures Delay(2) == 6750.0
    ensures Delay(5) == 22781.25
  {
    assert Growth(5) == 7.59375 by {
      assert Growth(3) == 3.375;
    }
  }

  lemma {:induction false} GrowthMonotone(k: nat, m: nat)
    requires k <= m
    ensures Growth(k) <= Growth(m)
  {
    if k < m {
      GrowthMonotone(k, m - 1);
    }
  }

  /** A later attempt never waits less than an earlier one. */
  lemma DelayMonotone(k: nat, m: nat)
    requires k <= m
    ensures Delay(k) <= Delay(m)
  {
    GrowthMonotone(k, m);
  }

  /** From the sixth attempt on the delay sits at the cap; before it, below. */
  lemma DelaySaturates(k: nat)
    ensures Delay(k) == MaxDelay <==> k >= 6
  {
    assert Growth(6) == 11.390625 by {
      assert Growth(3) == 3.375;
    }
    if k >= 6 {
      GrowthMonotone(6, k);
    } else {
      GrowthMonotone(k, 5);
      DelayFirstValues();
    }
  }
}
