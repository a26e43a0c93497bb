/**
 * The project cache's hit and miss counters. Clock readings are passed in;
 * the log lines themselves are not modelled, only whether one is due.
 */
module PerformanceMetrics {
  import Numbers

  /** An automatic log is due when the operation count reaches a positive multiple of the interval. */
  predicate AutoLogDue(total: int, interval: int)
    requires interval >= 1
  {
    total > 0 && total % interval == 0
  }

  /** How many of the operation counts 1, ..., n make a log due. */
  function CountDue(n: nat, interval: int): nat
    requires interval >= 1
  {
    if n == 0 then 0 else CountDue(n - 1, interval) + (if AutoLogDue(n, interval) then 1 else 0)
  }

  lemma DivStep(n: nat, interval: int)
    requires interval >= 1 && n >= 1
    ensures n / interval == (n - 1) / interval + (if n % interval == 0 then 1 else 0)
  {
    var q, r := (n - 1) / interval, (n - 1) % interval;
    assert n - 1 == q * interval + r && 0 <= r < interval;
    if r + 1 == interval {
      assert n == (q + 1) * interval;
      DivUnique(n, interval, q + 1, 0);
    } else {
      assert n == q * interval + (r + 1);
      DivUnique(n, interval, q, r + 1);
    }
  }

  lemma DivUnique(n: int, d: int, q: int, r: int)
    requires d >= 1 && 0 <= r < d && n == q * d + r
    ensures n / d == q && n % d == r
  {
    var k := n / d - q;
    assert k * d == r - n % d;
    if k >= 1 {
      AtLeastDivisor(k, d);
      assert false;
    } else if k <= -1 {
      AtLeastDivisor(-k, d);
      assert false;
    }
  }

  lemma AtLeastDivisor(k: int, d: int)
    requires k >= 1 && d >= 1
    ensures k * d >= d
  {
  }

  /** Over a run of `n` operations from zero, one log is due every `interval` operations. */
  lemma {:induction false} AutoLogFrequency(n: nat, interval: int)
    requires interval >= 1
    ensures CountDue(n, interval) == n / interval
  {
    if n > 0 {
      AutoLogFrequency(n - 1, interval);
      DivStep(n, interval);
    }
  }

  /** `PerformanceMetrics`. */
  class Metrics {
    var hits: nat
    var misses: nat
    var startTime: int
    var lastReset: int
    var logInterval: int

    predicate Valid()
      reads this
    {
      logInterval >= 1
    }

    /** A fresh tracker has counted nothing and logs every 100 operations. */
    constructor(now: int)
      ensures Valid()
      ensures hits == 0 && misses == 0 && logInterval == 100
      ensures startTime == now && lastReset == now
      ensures HitRatio() == 0.0
    {
      hits, misses := 0, 0;
      startTime, lastReset := now, now;
      logInterval := 100;
    }

    /** `get_total_operations`. */
    function Total(): nat
      reads this
    {
      hits + misses
    }

    /** `get_hit_ratio`: hits over all operations, rounded to two places; 0 before any operation. */
    function HitRatio(): (r: real)
      reads this
      ensures 0.0 <= r <= 1.0
      ensures Total() == 0 ==> r == 0.0
      ensures Total() > 0 ==> -0.005 <= r - hits as real / Total() as real <= 0.005
      ensures Total() > 0 && misses == 0 ==> r == 1.0
    {
      if Total() == 0 then 0.0
      else
        var x := hits as real / Total() as real;
        assert 0.0 <= x <= 1.0;
        if misses == 0 then
          assert x == 1.0;
          Numbers.RoundHundredths(x)
        else Numbers.RoundHundredths(x)
    }

    /** `record_cache_hit`: one more hit, nothing else counted; says whether the automatic log fires. */
    method RecordCacheHit() returns (logged: bool)
      requires Valid()
      modifies this`hits
      ensures hits == old(hits) + 1 && Total() == old(Total()) + 1
      ensures logged == AutoLogDue(Total(), logInterval)
    {
      hits := hits + 1;
      logged := CheckAutoLog();
    }

    /** `record_cache_miss`: one more miss, nothing else counted; says whether the automatic log fires. */
    method RecordCacheMiss() returns (logged: bool)
      requires Valid()
      modifies this`misses
      ensures misses == old(misses) + 1 && Total() == old(Total()) + 1
      ensures logged == AutoLogDue(Total(), logInterval)
    {
      misses := misses + 1;
      logged := CheckAutoLog();
    }

    /** `_check_auto_log`. */
    method CheckAutoLog() returns (due: bool)
      requires Valid()
      ensures due == AutoLogDue(Total(), logInterval)
    {
      var total := hits + misses;
      due := total > 0 && total % logInterval == 0;
    }

    /** `reset`: the counters and clocks start over; the interval stays. */
    method Reset(now: int)
      modifies this`hits, this`misses, this`startTime, this`lastReset
      ensures hits == 0 && misses == 0 && startTime == now && lastReset == now
      ensures HitRatio() == 0.0
    {
      hits, misses := 0, 0;
      startTime, lastReset := now, now;
    }

    /** `set_log_interval`: never below one. */
    method SetLogInterval(interval: int)
      modifies this`logInterval
      ensures Valid()
      ensures logInterval == if interval < 1 then 1 else interval
    {
      logInterval := if interval < 1 then 1 else interval;
    }
  }
}
