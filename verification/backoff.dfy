/** The two exponential backoffs: the outbox publisher's (internal/outbox/publisher.go)
    and the delivery worker's (internal/deliveryworker/worker.go). Durations are
    nanoseconds in 64-bit integers. */
module Backoff {
  import opened Text

  newtype Duration = x: int | -0x8000_0000_0000_0000 <= x < 0x8000_0000_0000_0000

  const DELAY_CAP := 10_000_000_000
  const DEFAULT_BASE := 500_000_000

  function Pow2(n: nat): (r: nat)
    ensures r >= 1
  {
    if n == 0 then 1 else 2 * Pow2(n - 1)
  }

  function Min(a: int, b: int): int {
    if a <= b then a else b
  }

  /** The documented law of both backoffs: base * 2^(attempt-1), at most `max`. */
  function Capped(base: nat, max: nat, attempt: nat): nat
    requires attempt >= 1
  {
    Min(max, base * Pow2(attempt - 1))
  }

  lemma {:induction false} Pow2Monotone(a: nat, b: nat)
    requires a <= b
    ensures Pow2(a) <= Pow2(b)
    decreases b
  {
    if a < b {
      Pow2Monotone(a, b - 1);
    }
  }

  lemma ProductMonotone(base: nat, a: nat, b: nat)
    requires a <= b
    ensures base * Pow2(a) <= base * Pow2(b)
  {
    Pow2Monotone(a, b);
    MulMonotone(base, Pow2(a), Pow2(b));
  }

  lemma MulMonotone(k: nat, a: nat, b: nat)
    requires a <= b
    ensures k * a <= k * b
  {
    assert k * b == k * a + k * (b - a);
  }

  /** The delay never shrinks from one failed attempt to the next, and never leaves base..max. */
  lemma CappedMonotone(base: nat, max: nat, a: nat, b: nat)
    requires 1 <= a <= b && base <= max
    ensures base <= Capped(base, max, a) <= Capped(base, max, b) <= max
  {
    ProductMonotone(base, a - 1, b - 1);
    ProductMonotone(base, 0, a - 1);
  }

  /** outboxBackoff. The result type makes every doubling checked against 64 bits. */
  method OutboxBackoff(base: Duration, max: Duration, attempt: int) returns (delay: Duration)
    requires 0 < base <= max
    ensures delay as int == Capped(base as int, max as int, if attempt <= 1 then 1 else attempt)
  {
    if attempt <= 1 {
      return base;
    }
    delay := base;
    var i := 1;
    while i < attempt
      invariant 1 <= i <= attempt
      invariant delay as int == base as int * Pow2(i - 1)
      invariant 0 < delay <= max
    {
      if delay >= max || delay > max / 2 {
        assert 2 * (delay as int) >= max as int;
        assert 2 * (delay as int) == base as int * Pow2(i);
        ProductMonotone(base as int, i, attempt - 1);
        return max;
      }
      delay := delay * 2;
      i := i + 1;
    }
    if delay > max {
      return max;
    }
  }

  /** Two's complement reduction to 64 bits. */
  function Wrap64(v: int): (r: int)
    ensures -INT64_LIMIT <= r < INT64_LIMIT
    ensures -INT64_LIMIT <= v < INT64_LIMIT ==> r == v
    ensures INT64_LIMIT <= v < 2 * INT64_LIMIT ==> r == v - 2 * INT64_LIMIT
  {
    (v + INT64_LIMIT) % (2 * INT64_LIMIT) - INT64_LIMIT
  }

  /** backoffDelay: the shift and the product both wrap, and only then is the cap applied.
      A shift by a negative count would panic. */
  function BackoffDelay(base: int, retry: int): int
    requires retry >= 1
  {
    var mult := Wrap64(Pow2(retry - 1));
    Min(Wrap64(mult * base), DELAY_CAP)
  }

  predicate Exact(base: int, retry: nat)
    requires base >= 1 && retry >= 1
  {
    BackoffDelay(base, retry) == Capped(base, DELAY_CAP, retry)
  }

  lemma ExactBelowLimit(base: int, retry: nat)
    requires base >= 1 && retry >= 1
    requires base * Pow2(retry - 1) < INT64_LIMIT
    ensures Exact(base, retry)
  {
    assert Pow2(retry - 1) <= base * Pow2(retry - 1) by {
      MulMonotone(Pow2(retry - 1), 1, base);
    }
  }

  /** The first product that leaves 63 bits wraps to a negative delay. */
  lemma NegativeAtFirstOverflow(base: int, retry: nat)
    requires 1 <= base < INT64_LIMIT && retry >= 2
    requires base * Pow2(retry - 2) < INT64_LIMIT <= base * Pow2(retry - 1)
    ensures BackoffDelay(base, retry) < 0
  {
    var product := base * Pow2(retry - 1);
    assert product == 2 * (base * Pow2(retry - 2));
    if base == 1 {
      assert Pow2(retry - 1) == product;
    } else {
      MulMonotone(Pow2(retry - 1), 2, base);
      assert 2 * Pow2(retry - 1) <= product;
      assert Wrap64(Pow2(retry - 1)) == Pow2(retry - 1);
      assert Pow2(retry - 1) * base == product;
    }
  }

  lemma {:induction false} FirstOverflow(base: int, retry: nat) returns (k: nat)
    requires 1 <= base < INT64_LIMIT && retry >= 1
    requires base * Pow2(retry - 1) >= INT64_LIMIT
    ensures 2 <= k <= retry
    ensures base * Pow2(k - 2) < INT64_LIMIT <= base * Pow2(k - 1)
  {
    if retry == 1 {
      assert false;
    } else if base * Pow2(retry - 2) < INT64_LIMIT {
      k := retry;
    } else {
      k := FirstOverflow(base, retry - 1);
    }
  }

  /** A single delay is right exactly when its product fits 63 bits or wraps to something that the
      cap cuts off. */
  lemma ExactIff(base: int, retry: nat)
    requires 1 <= base < INT64_LIMIT && retry >= 1
    ensures Exact(base, retry) <==>
            base * Pow2(retry - 1) < INT64_LIMIT || Wrap64(Wrap64(Pow2(retry - 1)) * base) >= DELAY_CAP
  {
    if base * Pow2(retry - 1) < INT64_LIMIT {
      ExactBelowLimit(base, retry);
    }
  }

  /** Such an accident: the product is five times 2^62 and wraps to 2^62. */
  lemma LuckyWrap()
    ensures var base := 0x5000_0000_0000_0000;
            base * Pow2(2) >= INT64_LIMIT && Exact(base, 3)
  {
    assert Pow2(2) == 4;
    assert Wrap64(4) == 4;
    assert Wrap64(4 * 0x5000_0000_0000_0000) == 0x4000_0000_0000_0000;
    ExactIff(0x5000_0000_0000_0000, 3);
  }

  /** A worker configured with `maxRetries` computes every one of its delays as documented
      exactly when the last product still fits 63 bits. */
  lemma BackoffDelayExactIff(base: int, maxRetries: nat)
    requires 1 <= base < INT64_LIMIT && maxRetries >= 1
    ensures (forall retry :: 1 <= retry <= maxRetries ==> Exact(base, retry))
            <==> base * Pow2(maxRetries - 1) < INT64_LIMIT
  {
    if base * Pow2(maxRetries - 1) < INT64_LIMIT {
      forall retry | 1 <= retry <= maxRetries ensures Exact(base, retry) {
        ProductMonotone(base, retry - 1, maxRetries - 1);
        ExactBelowLimit(base, retry);
      }
    } else {
      var k := FirstOverflow(base, maxRetries);
      NegativeAtFirstOverflow(base, k);
      assert !Exact(base, k);
    }
  }

  lemma Pow2At34()
    ensures Pow2(34) == 0x4_0000_0000
  {
    assert Pow2(8) == 256;
    assert Pow2(16) == 65536;
    assert Pow2(24) == 0x100_0000;
    assert Pow2(32) == 0x1_0000_0000;
  }

  /** With the default base of 500ms the bound is 35 retries, and MAX_RETRIES is only
      checked to be positive. */
  lemma DefaultBackoffBound(maxRetries: nat)
    requires maxRetries >= 1
    ensures (forall retry :: 1 <= retry <= maxRetries ==> Exact(DEFAULT_BASE, retry))
            <==> maxRetries <= 35
  {
    BackoffDelayExactIff(DEFAULT_BASE, maxRetries);
    Pow2At34();
    if maxRetries <= 35 {
      ProductMonotone(DEFAULT_BASE, maxRetries - 1, 34);
    } else {
      assert Pow2(35) == 2 * Pow2(34);
      ProductMonotone(DEFAULT_BASE, 35, maxRetries - 1);
    }
  }
}
