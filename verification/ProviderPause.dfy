/** The pauses after provider failures, and how far apart they keep the failures of one outage. */
module ProviderPause {
  import opened Reals

  const BACKOFF_FIRST := 5.0
  const BACKOFF_MAX := 300.0
  /** The first exponent whose power of two is no longer a double, so that `5.0 * 2 ** e` raises an error. */
  const OVERFLOW_EXPONENT := 1024
  const FALLBACK_FIRST := 30.0

  datatype Pause = Pause(failures: nat, retryAt: real)

  function Power(e: nat): (p: nat)
    ensures p >= 1
  {
    if e == 0 then 1 else 2 * Power(e - 1)
  }

  /** The pause after failure number `n` of an outage. */
  function Delay(first: real, n: nat): real
    requires n > 0
  {
    Min(BACKOFF_MAX, first * Power(n - 1) as real)
  }

  /** Only the provider's pause is computed in floating point. */
  predicate Overflows(p: Pause) {
    p.failures >= OVERFLOW_EXPONENT
  }

  function Failed(p: Pause, at: real): Pause {
    var n := p.failures + 1;
    if Overflows(p) then p.(failures := n) else Pause(n, at + Delay(BACKOFF_FIRST, n))
  }

  function FallbackFailed(p: Pause, at: real): Pause {
    Pause(p.failures + 1, at + Delay(FALLBACK_FIRST, p.failures + 1))
  }

  function Succeeded(p: Pause): Pause {
    p.(failures := 0)
  }

  /** The total of the first `n` pauses. */
  function Waited(n: nat): real {
    if n == 0 then 0.0 else Waited(n - 1) + Delay(BACKOFF_FIRST, n)
  }

  lemma {:induction false} DelayIsCapped(n: nat)
    requires n >= 7
    ensures Delay(BACKOFF_FIRST, n) == BACKOFF_MAX && Power(n - 1) >= 64
  {
    if n == 7 {
      assert Power(6) == 64;
    } else {
      DelayIsCapped(n - 1);
    }
  }

  /** 5 + 10 + 20 + 40 + 80 + 160 seconds, then five minutes each. */
  lemma {:induction false} WaitedInClosedForm(n: nat)
    requires n >= 6
    ensures Waited(n) == 315.0 + 300.0 * (n - 6) as real
  {
    if n == 6 {
      assert Power(5) == 32 && Power(4) == 16 && Power(3) == 8;
      assert Waited(3) == 35.0;
    } else {
      WaitedInClosedForm(n - 1);
      DelayIsCapped(n);
    }
  }

  /** What a run keeps about the failures since the last success and the pause in force. */
  predicate Paced(outage: seq<real>, p: Pause) {
    && p.failures == |outage|
    && (forall i :: 0 < i < |outage| && i <= OVERFLOW_EXPONENT ==> outage[i - 1] + Delay(BACKOFF_FIRST, i) <= outage[i])
    && (0 < |outage| <= OVERFLOW_EXPONENT ==> p.retryAt == outage[|outage| - 1] + Delay(BACKOFF_FIRST, |outage|))
  }

  lemma FailedKeepsPaced(outage: seq<real>, p: Pause, at: real)
    requires Paced(outage, p) && at >= p.retryAt
    ensures Paced(outage + [at], Failed(p, at))
  {
    hide Delay;
  }

  /** Up to failure 1025 of an outage, failure `k` comes no sooner after the first than the pauses before it. */
  lemma {:induction false} OutageIsSpaced(outage: seq<real>, p: Pause, k: nat)
    requires Paced(outage, p) && 0 < k <= |outage| && k <= OVERFLOW_EXPONENT + 1
    ensures outage[0] + Waited(k - 1) <= outage[k - 1]
  {
    hide Delay;
    if k > 1 {
      OutageIsSpaced(outage, p, k - 1);
      assert outage[k - 2] + Delay(BACKOFF_FIRST, k - 1) <= outage[k - 1];
    }
  }
}
