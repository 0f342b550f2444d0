/** What the 64-bit backoff arithmetic of a retry policy computes, where it is
    exact and where it wraps around. */
module BackoffTheorems {
  import opened Domain

  lemma {:induction false} Pow2Grows(n: nat, m: nat)
    requires n <= m
    ensures Pow2(n) <= Pow2(m)
    decreases m
  {
    if n < m {
      Pow2Grows(n, m - 1);
    }
  }

  lemma {:induction false} Pow2Exceeds(n: nat)
    ensures n < Pow2(n)
  {
    if n > 0 {
      Pow2Exceeds(n - 1);
    }
  }

  lemma {:induction false} Pow2Adds(n: nat, k: nat)
    ensures Pow2(n + k) == Pow2(n) * Pow2(k)
    decreases k
  {
    if k > 0 {
      Pow2Adds(n, k - 1);
      assert Pow2(n + k) == 2 * (Pow2(n) * Pow2(k - 1));
      assert Pow2(n) * (2 * Pow2(k - 1)) == 2 * (Pow2(n) * Pow2(k - 1));
    }
  }

  lemma Pow2Of63()
    ensures Pow2(63) == TWO_63
  {
    assert Pow2(8) == 256;
    Pow2Adds(8, 8);
    Pow2Adds(16, 16);
    Pow2Adds(32, 16);
    Pow2Adds(48, 8);
    assert Pow2(7) == 128;
    Pow2Adds(56, 7);
  }

  lemma Pow2Fits(n: nat)
    ensures Pow2(n) < TWO_63 <==> n < 63
  {
    Pow2Of63();
    if n < 63 {
      Pow2Grows(n, 62);
      assert Pow2(63) == 2 * Pow2(62);
    } else {
      Pow2Grows(63, n);
    }
  }

  lemma ProductGrows(a: int, b: int, base: int)
    requires 0 <= base && a <= b
    ensures a * base <= b * base
  {}

  lemma ProductBounds(a: int, base: int)
    requires 1 <= base && 0 <= a
    ensures a <= a * base
  {}

  lemma WrapExactIff(x: int)
    requires x >= 0
    ensures Wrap(x) == x <==> x < TWO_63
  {}

  lemma FactorExact(n: nat, oor: Int64)
    requires n < 63
    ensures PowFactor(n, oor) == Pow2(n)
  {
    Pow2Fits(n);
  }

  /** The exponential delay before the cap is the exact product if and only if
      that product is below 2^63, whatever the machine makes of an out-of-range
      conversion. */
  lemma ExponentialExactIff(rp: RetryPolicy, n: nat, oor: Int64)
    requires rp.strategy == Exponential && rp.baseDelay >= 0
    ensures RawDelay(rp, n, oor) == Pow2(n) * rp.baseDelay <==> Pow2(n) * rp.baseDelay < TWO_63
  {
    if rp.baseDelay == 0 {
      assert PowFactor(n, oor) * rp.baseDelay == 0;
    } else if n < 63 {
      FactorExact(n, oor);
      ProductBounds(Pow2(n), rp.baseDelay);
      WrapExactIff(Pow2(n) * rp.baseDelay);
    } else {
      Pow2Fits(n);
      ProductBounds(Pow2(n), rp.baseDelay);
    }
  }

  /** With the cap, the delay is the smaller of the exact product and the cap if and only
      if the product fits, or what 64 bits make of it still reaches the cap: the product
      wrapped around while the power is below 2^63, and from there on the wrapped product
      of whatever the conversion yields. */
  lemma ExponentialCappedIff(rp: RetryPolicy, n: nat, oor: Int64)
    requires rp.strategy == Exponential && rp.baseDelay >= 0
    ensures var exact := Pow2(n) * rp.baseDelay;
            Delay(rp, n, oor) == (if exact > rp.maxDelay then rp.maxDelay else exact)
            <==> exact < TWO_63 || Wrap((if n < 63 then Pow2(n) else oor) * rp.baseDelay) >= rp.maxDelay
  {
    ExponentialExactIff(rp, n, oor);
    if n < 63 {
      FactorExact(n, oor);
    }
  }

  /** While the products fit, waiting times never shrink from one attempt to the next. */
  lemma ExponentialMonotone(rp: RetryPolicy, n: nat, m: nat, oor: Int64)
    requires rp.strategy == Exponential && rp.baseDelay >= 0 && n <= m
    requires Pow2(m) * rp.baseDelay < TWO_63
    ensures Delay(rp, n, oor) <= Delay(rp, m, oor)
  {
    Pow2Grows(n, m);
    ProductGrows(Pow2(n), Pow2(m), rp.baseDelay);
    ExponentialExactIff(rp, n, oor);
    ExponentialExactIff(rp, m, oor);
  }

  /** The delay before the cap in unbounded arithmetic. */
  function ExactDelay(rp: RetryPolicy, n: nat): int {
    match rp.strategy
    case Linear => n * rp.baseDelay
    case Exponential => Pow2(n) * rp.baseDelay
    case _ => rp.baseDelay
  }

  /** Whatever the strategy: the delay computed is the exact one if and only if that fits
      in 64 bits. */
  lemma DelayExactIff(rp: RetryPolicy, n: nat, oor: Int64)
    requires rp.baseDelay >= 0
    ensures RawDelay(rp, n, oor) == ExactDelay(rp, n) <==> ExactDelay(rp, n) < TWO_63
  {
    match rp.strategy
    case Linear =>
      if rp.baseDelay == 0 {
        assert Wrap(n) * rp.baseDelay == 0;
      } else {
        ProductBounds(n, rp.baseDelay);
      }
    case Exponential => ExponentialExactIff(rp, n, oor);
    case _ =>
  }

  /** What 64 bits make of the delay before the cap, for any number of attempts: the exact
      product modulo 2^64 for linear backoff and, up to 2^62, for exponential backoff; no
      delay for a negative power; and the base delay for any other strategy. */
  lemma DelayWraps(rp: RetryPolicy, n: int, oor: Int64)
    ensures rp.strategy == Linear ==> (RawDelay(rp, n, oor) - n * rp.baseDelay) % TWO_64 == 0
    ensures rp.strategy == Exponential ==>
              && (n < 0 ==> RawDelay(rp, n, oor) == 0)
              && (0 <= n < 63 ==> (RawDelay(rp, n, oor) - Pow2(n) * rp.baseDelay) % TWO_64 == 0)
    ensures rp.strategy != Linear && rp.strategy != Exponential ==> RawDelay(rp, n, oor) == rp.baseDelay
    ensures Delay(rp, n, oor) == if RawDelay(rp, n, oor) <= rp.maxDelay then RawDelay(rp, n, oor) else rp.maxDelay
  {
    if rp.strategy == Linear {
      WrapTwice(n, rp.baseDelay);
    } else if rp.strategy == Exponential && 0 <= n < 63 {
      FactorExact(n, oor);
    }
  }

  lemma WrapTwice(n: int, base: int)
    ensures (Wrap(Wrap(n) * base) - n * base) % TWO_64 == 0
  {
    var d, e := (Wrap(n) - n) / TWO_64, (Wrap(Wrap(n) * base) - Wrap(n) * base) / TWO_64;
    assert Wrap(n) == n + d * TWO_64 && Wrap(Wrap(n) * base) == Wrap(n) * base + e * TWO_64;
    SumTimes(n, d, base);
    MultipleOf(d * base + e);
  }

  lemma SumTimes(n: int, d: int, base: int)
    ensures (n + d * TWO_64) * base == n * base + (d * base) * TWO_64
  {}

  lemma MultipleOf(m: int)
    ensures (m * TWO_64) % TWO_64 == 0
  {}

  lemma ExactDelayGrows(rp: RetryPolicy, n: nat, m: nat)
    requires rp.baseDelay >= 0 && n <= m
    ensures ExactDelay(rp, n) <= ExactDelay(rp, m)
  {
    Pow2Grows(n, m);
    ProductGrows(n, m, rp.baseDelay);
    ProductGrows(Pow2(n), Pow2(m), rp.baseDelay);
  }

  lemma LinearExact(rp: RetryPolicy, n: nat, oor: Int64)
    requires rp.strategy == Linear && rp.baseDelay >= 0
    requires Pow2(n) * rp.baseDelay < TWO_63
    ensures RawDelay(rp, n, oor) == n * rp.baseDelay <= Pow2(n) * rp.baseDelay
  {
    Pow2Exceeds(n);
    ProductGrows(n, Pow2(n), rp.baseDelay);
    DelayExactIff(rp, n, oor);
  }

  /** The strategies are ordered: fixed, then linear, then exponential. */
  lemma StrategiesOrdered(rp: RetryPolicy, n: nat, oor: Int64)
    requires rp.baseDelay >= 0 && n >= 1
    requires Pow2(n) * rp.baseDelay < TWO_63
    ensures Delay(rp.(strategy := Fixed), n, oor) <= Delay(rp.(strategy := Linear), n, oor)
    ensures Delay(rp.(strategy := Linear), n, oor) <= Delay(rp.(strategy := Exponential), n, oor)
  {
    LinearExact(rp.(strategy := Linear), n, oor);
    ExponentialExactIff(rp.(strategy := Exponential), n, oor);
    ProductGrows(1, n, rp.baseDelay);
  }

  /** A retry that CanRetry lets through computes its delay without overflow, whatever the
      strategy, as soon as the largest delay the budget allows fits. */
  lemma RetryPathExact(j: JobRecord, oor: Int64)
    requires CanRetry(j) && j.retry.currentAttempts >= 0 && j.retry.baseDelay >= 0
    requires j.retry.maxAttempts >= 1 && ExactDelay(j.retry, j.retry.maxAttempts - 1) < TWO_63
    ensures RawDelay(j.retry, j.retry.currentAttempts, oor) == ExactDelay(j.retry, j.retry.currentAttempts)
  {
    ExactDelayGrows(j.retry, j.retry.currentAttempts, j.retry.maxAttempts - 1);
    DelayExactIff(j.retry, j.retry.currentAttempts, oor);
  }

  lemma Pow2At28()
    ensures Pow2(28) == 0x1000_0000 && Pow2(29) == 0x2000_0000
  {
    assert Pow2(4) == 16 && Pow2(5) == 32 && Pow2(8) == 256;
    Pow2Adds(8, 8);
    Pow2Adds(16, 8);
    Pow2Adds(24, 4);
    Pow2Adds(24, 5);
  }

  /** With the default base of 30 s the product is exact up to 28 attempts and
      for no larger number; after 29 attempts the retry would lie in the past. */
  lemma DefaultBoundary(n: nat, oor: Int64)
    ensures RawDelay(DEFAULT_POLICY, n, oor) == Pow2(n) * DEFAULT_POLICY.baseDelay <==> n <= 28
    ensures n == 29 ==> Delay(DEFAULT_POLICY, n, oor) < 0
  {
    Pow2At28();
    if n <= 28 {
      Pow2Grows(n, 28);
    } else {
      Pow2Grows(29, n);
    }
    ExponentialExactIff(DEFAULT_POLICY, n, oor);
  }

  /** The waits of an uncapped exponential policy add up to base * (2^(m+1) - 2). */
  lemma {:induction false} ExponentialSum(origin: RetryPolicy, m: nat, oor: Int64)
    requires origin.strategy == Exponential && origin.baseDelay >= 0 && origin.currentAttempts == 0
    requires Pow2(m) * origin.baseDelay < TWO_63
    requires Pow2(m) * origin.baseDelay <= origin.maxDelay
    ensures DelaySum(origin, m, oor) == origin.baseDelay * (Pow2(m + 1) - 2)
    decreases m
  {
    if m > 0 {
      Pow2Grows(m - 1, m);
      ProductGrows(Pow2(m - 1), Pow2(m), origin.baseDelay);
      ExponentialSum(origin, m - 1, oor);
      LastWait(origin, m, oor);
      Telescopes(origin.baseDelay, Pow2(m));
    }
  }

  lemma LastWait(origin: RetryPolicy, m: nat, oor: Int64)
    requires origin.strategy == Exponential && origin.baseDelay >= 0
    requires Pow2(m) * origin.baseDelay < TWO_63
    requires Pow2(m) * origin.baseDelay <= origin.maxDelay
    ensures Delay(origin, m, oor) == Pow2(m) * origin.baseDelay
  {
    ExponentialExactIff(origin, m, oor);
  }

  lemma Telescopes(base: int, p: int)
    ensures base * (p - 2) + p * base == base * (2 * p - 2)
  {}
}
