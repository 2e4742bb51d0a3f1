/** The limiter that spaces calls to the speech provider. */
module RateLimiter {
  import opened Numeric

  function MinInterval(ratePerSecond: real): (seconds: real)
    ensures 0.0 < seconds <= 10.0
    ensures ratePerSecond >= 0.1 ==> seconds * ratePerSecond == 1.0
  {
    1.0 / Max(ratePerSecond, 0.1)
  }

  class TokenBucketRateLimiter {
    const minInterval: real
    var nextAvailable: real

    constructor (ratePerSecond: real)
      ensures minInterval == MinInterval(ratePerSecond) && nextAvailable == 0.0
    {
      minInterval := 1.0 / Max(ratePerSecond, 0.1);
      nextAvailable := 0.0;
    }

    /** One caller reads the clock under the lock, reserves its slot and sleeps until it. */
    method Wait(now: real) returns (waitSeconds: real)
      modifies this`nextAvailable
      ensures waitSeconds >= 0.0
      ensures now + waitSeconds == Max(now, old(nextAvailable))
      ensures nextAvailable == now + waitSeconds + minInterval
    {
      waitSeconds := Max(0.0, nextAvailable - now);
      nextAvailable := Max(now, nextAvailable) + minInterval;
    }

    /** Callers served one after the other, in the order they take the lock. */
    method ServeAll(arrivals: seq<real>) returns (grants: seq<real>)
      requires nextAvailable == 0.0
      modifies this`nextAvailable
      ensures grants == Grants(arrivals, minInterval)
    {
      grants := [];
      for k := 0 to |arrivals|
        invariant grants == Grants(arrivals[..k], minInterval)
        invariant nextAvailable == NextAvailable(arrivals[..k], minInterval)
      {
        assert arrivals[..k + 1][..k] == arrivals[..k];
        var waitSeconds := Wait(arrivals[k]);
        grants := grants + [arrivals[k] + waitSeconds];
      }
      assert arrivals[..|arrivals|] == arrivals;
    }
  }

  function NextAvailable(arrivals: seq<real>, interval: real): real {
    if arrivals == [] then 0.0
    else Max(arrivals[|arrivals| - 1], NextAvailable(arrivals[..|arrivals| - 1], interval)) + interval
  }

  /** When each caller proceeds. */
  function Grants(arrivals: seq<real>, interval: real): (grants: seq<real>)
    ensures |grants| == |arrivals|
  {
    if arrivals == [] then []
    else
      var last := |arrivals| - 1;
      Grants(arrivals[..last], interval) + [Max(arrivals[last], NextAvailable(arrivals[..last], interval))]
  }

  /** Each grant is the later of the arrival and the previous grant plus the interval; the first
      one only waits for time zero. */
  lemma {:induction false} GrantRecurrence(arrivals: seq<real>, interval: real, k: nat)
    requires k < |arrivals|
    ensures var grants := Grants(arrivals, interval);
            grants[k] == Max(arrivals[k], if k == 0 then 0.0 else grants[k - 1] + interval)
    decreases |arrivals|
  {
    var last := |arrivals| - 1;
    if k < last {
      GrantRecurrence(arrivals[..last], interval, k);
    } else if k > 0 {
      var earlier := arrivals[..last];
      assert NextAvailable(earlier, interval) == Grants(earlier, interval)[k - 1] + interval;
    }
  }

  lemma {:induction false} GrantsAreSpaced(arrivals: seq<real>, interval: real, i: nat, j: nat)
    requires interval > 0.0 && i <= j < |arrivals|
    ensures var grants := Grants(arrivals, interval);
            grants[j] - grants[i] >= (j - i) as real * interval
    decreases j - i
  {
    if i < j {
      GrantsAreSpaced(arrivals, interval, i, j - 1);
      GrantRecurrence(arrivals, interval, j);
      assert (j - i) as real * interval == (j - 1 - i) as real * interval + interval;
    }
  }

  /** Any window of length `width` holds at most floor(width / interval) + 1 grants. */
  lemma WindowHoldsFewGrants(arrivals: seq<real>, interval: real, from: real, width: real, i: nat, j: nat)
    requires interval > 0.0 && width >= 0.0 && i <= j < |arrivals|
    requires var grants := Grants(arrivals, interval);
             from <= grants[i] && grants[j] <= from + width
    ensures j - i + 1 <= (width / interval).Floor + 1
  {
    GrantsAreSpaced(arrivals, interval, i, j);
    QuotientBound((j - i) as real, interval, width);
  }

  lemma QuotientBound(steps: real, interval: real, width: real)
    requires interval > 0.0 && steps * interval <= width
    ensures steps <= width / interval
  {
    var quotient := width / interval;
    assert quotient * interval == width;
    if steps > quotient {
      assert (steps - quotient) * interval > 0.0;
    }
  }

  /** No caller waits longer than the spacing forces: any schedule that serves the callers in the
      same order, none before its arrival, and keeps the interval, serves each one no earlier. */
  lemma {:induction false} GrantsAreEarliest(arrivals: seq<real>, interval: real, others: seq<real>, k: nat)
    requires |others| == |arrivals| && k < |arrivals| && others[0] >= 0.0
    requires forall i :: 0 <= i < |arrivals| ==> others[i] >= arrivals[i]
    requires forall i :: 0 < i < |arrivals| ==> others[i] >= others[i - 1] + interval
    ensures Grants(arrivals, interval)[k] <= others[k]
    decreases k
  {
    GrantRecurrence(arrivals, interval, k);
    if k > 0 {
      GrantsAreEarliest(arrivals, interval, others, k - 1);
    }
  }
}
