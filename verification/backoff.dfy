/** The exponential delays of internal/backoff/backoff.go. */
module Backoff {
  type int64 = x: int | -0x8000_0000_0000_0000 <= x < 0x8000_0000_0000_0000

  function Pow2(k: nat): nat {
    if k == 0 then 1 else 2 * Pow2(k - 1)
  }

  /** base doubled k times. */
  function Doubled(base: int, k: nat): int {
    base * Pow2(k)
  }

  /** The delay before retry number attempt. */
  function Delay(base: int, limit: int, attempt: int): int {
    if base <= 0 || base >= limit then limit
    else if attempt <= 1 then base
    else if Doubled(base, attempt - 2) >= limit / 2 then limit
    else Doubled(base, attempt - 1)
  }

  lemma DoubledNext(base: int, k: nat)
    ensures Doubled(base, k + 1) == 2 * Doubled(base, k)
  {
    var p := Pow2(k);
    assert Pow2(k + 1) == 2 * p;
    assert base * (2 * p) == 2 * (base * p);
  }

  lemma {:induction false} DoubledGrows(base: int, j: nat, k: nat)
    requires base > 0 && j <= k
    ensures 0 < Doubled(base, j) <= Doubled(base, k)
    decreases k
  {
    if j < k {
      DoubledGrows(base, j, k - 1);
      DoubledNext(base, k - 1);
    } else {
      assert Pow2(j) >= 1 by { Pow2IsPositive(j); }
      assert base * Pow2(j) >= 1;
    }
  }

  lemma {:induction false} Pow2IsPositive(k: nat)
    ensures Pow2(k) >= 1
  {
    if k > 0 { Pow2IsPositive(k - 1); }
  }

  /** exponential: no step leaves the 64-bit range, however large attempt is. */
  method Exponential(base: int64, limit: int64, attempt: int64) returns (delay: int64)
    ensures delay as int == Delay(base, limit, attempt)
  {
    hide Doubled;
    var n: int64 := if attempt < 1 then 1 else attempt;
    if base <= 0 || base >= limit { return limit; }
    delay := base;
    FirstDelay(base);
    var i: int64 := 1;
    while i < n
      invariant 1 <= i <= n && delay as int == Doubled(base, i - 1)
      invariant 0 < delay < limit && delay as int == Delay(base, limit, i)
      decreases n - i
    {
      if delay >= limit / 2 {
        if i < n { DoubledGrows(base, i - 1, n - 2); }
        return limit;
      }
      DoubledNext(base, i - 1);
      delay := delay * 2;
      i := i + 1;
      DelaySoFar(base, limit, i);
    }
  }

  lemma FirstDelay(base: int)
    ensures Doubled(base, 0) == base
  {
  }

  /** A delay that was doubled is the specified one. */
  lemma DelaySoFar(base: int, limit: int, i: int)
    requires 0 < base < limit && i >= 2 && Doubled(base, i - 1) < 2 * (limit / 2)
    ensures Delay(base, limit, i) == Doubled(base, i - 1)
  {
    DoubledNext(base, i - 2);
  }

  /** More attempts never wait less, and every delay lies between base and limit. */
  lemma DelayGrows(base: int, limit: int, a: int, b: int)
    requires 0 < base < limit && a <= b
    ensures base <= Delay(base, limit, a) <= Delay(base, limit, b) <= limit
  {
    hide Doubled;
    DelayInRange(base, limit, a);
    DelayInRange(base, limit, b);
    if 2 <= a {
      DoubledGrows(base, a - 2, b - 2);
      DoubledGrows(base, a - 1, b - 1);
    }
  }

  lemma DelayInRange(base: int, limit: int, a: int)
    requires 0 < base < limit
    ensures base <= Delay(base, limit, a) <= limit
  {
    hide Doubled;
    if 2 <= a {
      FirstDelay(base);
      DoubledGrows(base, 0, a - 1);
      DoubledNext(base, a - 2);
    }
  }

  /**
   The documented rule, base doubled attempt - 1 times and capped at limit, holds
   exactly unless the doubled value is one below the limit after at least one
   doubling: the halved limit is rounded down, and the delay is then the limit.
   */
  lemma CappedDoublingIff(base: int, limit: int, attempt: int)
    requires 0 < base && 0 < limit && 1 <= attempt
    ensures var d := Doubled(base, attempt - 1);
      Delay(base, limit, attempt) == (if d < limit then d else limit) <==>
        !(attempt > 1 && base < limit && d == limit - 1)
    ensures var d := Doubled(base, attempt - 1);
      0 <= Delay(base, limit, attempt) - (if d < limit then d else limit) <= 1
  {
    hide Doubled;
    FirstDelay(base);
    DoubledGrows(base, 0, attempt - 1);
    if attempt > 1 { DoubledNext(base, attempt - 2); }
  }

  /** The rule does fail: 100 doubled once with a limit of 201 gives 201. */
  lemma CappedDoublingCanFail()
    ensures Delay(100, 201, 2) == 201 && Doubled(100, 1) == 200
  {
    assert Pow2(0) == 1 && Pow2(1) == 2;
  }
}
