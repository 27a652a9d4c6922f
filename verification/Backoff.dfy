/** The polling interval that grows while nothing happens
    (internal/service/email_receive_command.go, `adaptivePollInterval`).  Durations are in nanoseconds. */
module Backoff {

  const SECOND := 1_000_000_000
  const DEFAULT_BASE := 15 * SECOND
  const DEFAULT_STEP := 5 * SECOND
  const DEFAULT_MAX := 300 * SECOND
  const DEFAULT_EVERY := 3

  function Min(a: int, b: int): int {
    if a < b then a else b
  }

  lemma DivStep(k: nat, n: nat)
    requires n > 0
    ensures (k + 1) / n == k / n + (if (k + 1) % n == 0 then 1 else 0)
  {
    var q, r := k / n, k % n;
    assert k == q * n + r;
    if r + 1 == n {
      assert k + 1 == (q + 1) * n;
      DivUnique(k + 1, n, q + 1, 0);
    } else {
      DivUnique(k + 1, n, q, r + 1);
    }
  }

  lemma MultipleIsFar(d: int, n: nat)
    ensures d > 0 ==> d * n >= n
    ensures d < 0 ==> d * n + n <= 0
  {
    if d > 0 {
      assert (d - 1) * n >= 0;
    } else if d < 0 {
      assert (-d - 1) * n >= 0;
    }
  }

  lemma DivUnique(a: nat, n: nat, q: nat, r: nat)
    requires n > 0 && a == q * n + r && r < n
    ensures a / n == q && a % n == r
  {
    var d := a / n - q;
    assert d * n == r - a % n by {
      assert a == (a / n) * n + a % n;
      assert (a / n) * n - q * n == d * n;
    }
    MultipleIsFar(d, n);
  }

  class AdaptivePollInterval {
    const base: int
    const step: int
    const max: int
    const increaseEveryN: int
    var current: int
    var emptyCount: nat

    /** The interval after k empty polls in a row. */
    function Interval(k: nat): int
      requires increaseEveryN > 0
    {
      Min(max, base + step * (k / increaseEveryN))
    }

    predicate Valid()
      reads this
    {
      && 0 < base <= max && 0 < step && 0 < increaseEveryN
      && current == Interval(emptyCount)
    }

    constructor (base: int, step: int, max: int, increaseEveryN: int)
      ensures Valid() && emptyCount == 0 && current == this.base
      ensures this.max == (if max <= 0 then DEFAULT_MAX else max)
      ensures this.base == Min(if base <= 0 then DEFAULT_BASE else base, this.max)
      ensures this.step == (if step <= 0 then DEFAULT_STEP else step)
      ensures this.increaseEveryN == (if increaseEveryN <= 0 then DEFAULT_EVERY else increaseEveryN)
    {
      var b, s, m, n := base, step, max, increaseEveryN;
      if b <= 0 {
        b := DEFAULT_BASE;
      }
      if s <= 0 {
        s := DEFAULT_STEP;
      }
      if m <= 0 {
        m := DEFAULT_MAX;
      }
      if n <= 0 {
        n := DEFAULT_EVERY;
      }
      if b > m {
        b := m;
      }
      this.base, this.step, this.max, this.increaseEveryN, this.current, this.emptyCount := b, s, m, n, b, 0;
    }

    /** One more empty poll. */
    method OnNoNew() returns (interval: int)
      requires Valid()
      modifies this
      ensures Valid() && emptyCount == old(emptyCount) + 1 && interval == current
    {
      DivStep(emptyCount, increaseEveryN);
      emptyCount := emptyCount + 1;
      if emptyCount % increaseEveryN == 0 && current < max {
        var next := current + step;
        if next > max {
          next := max;
        }
        current := next;
      }
      assert old(emptyCount) / increaseEveryN >= 0;
      NextInterval(step, old(emptyCount) / increaseEveryN);
      interval := current;
    }

    method OnDetected() returns (interval: int)
      requires Valid()
      modifies this
      ensures Valid() && emptyCount == 0 && interval == current == base
    {
      emptyCount := 0;
      current := base;
      interval := current;
    }
  }

  lemma NextInterval(step: int, q: int)
    ensures step * (q + 1) == step * q + step
  {
  }

  /* ----- Whole runs ----- */

  /** The empty polls since the last detected message. */
  function EmptyPolls(polls: seq<bool>): nat {
    if |polls| == 0 || polls[|polls| - 1] then 0 else EmptyPolls(polls[..|polls| - 1]) + 1
  }

  /** Any mix of empty and detected polls (`true` is a detected one): the interval depends on the empty polls
      since the last detected one only, and it stays between base and maximum. */
  method RunPolls(a: AdaptivePollInterval, polls: seq<bool>)
    requires a.Valid() && a.emptyCount == 0
    modifies a
    ensures a.Valid() && a.current == Min(a.max, a.base + a.step * (EmptyPolls(polls) / a.increaseEveryN))
    ensures a.base <= a.current <= a.max
  {
    for i := 0 to |polls|
      invariant a.Valid() && a.emptyCount == EmptyPolls(polls[..i])
    {
      assert polls[..i + 1][..i] == polls[..i];
      if polls[i] {
        var d := a.OnDetected();
      } else {
        var d := a.OnNoNew();
      }
    }
    assert polls[..|polls|] == polls;
    IntervalInRange(a.base, a.step, a.max, a.increaseEveryN, a.emptyCount);
  }

  lemma IntervalInRange(base: int, step: int, max: int, n: int, k: nat)
    requires 0 < base <= max && 0 < step && 0 < n
    ensures base <= Min(max, base + step * (k / n)) <= max
  {
    assert k / n >= 0;
    assert step * (k / n) >= 0;
  }
}
