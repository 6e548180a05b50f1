/** The integer rules that spread chains over fanouts (internal/engine/bootstrap.go). */
module Widths {
  import opened Ledger

  /** Go's integer division, which truncates toward zero. */
  function GoDiv(a: int, b: int): int
    requires b > 0
  {
    if a >= 0 then a / b else -(-a / b)
  }

  function CeilDiv(n: int, d: int): int {
    if d <= 0 then 0 else GoDiv(n + d - 1, d)
  }

  function L2Width(numChains: int, parentCount: int, index: int): (w: int)
    ensures w >= 0
  {
    if numChains <= 0 || parentCount <= 0 || index < 0 || index >= parentCount then 0
    else numChains / parentCount + if index < numChains % parentCount then 1 else 0
  }

  /** The widths of all parents, in drain order. */
  function L2Widths(numChains: int, parentCount: nat): (ws: seq<nat>)
    ensures |ws| == parentCount
    ensures forall i :: 0 <= i < parentCount ==> ws[i] == L2Width(numChains, parentCount, i)
  {
    seq(parentCount, i => L2Width(numChains, parentCount, i))
  }

  lemma {:induction false} SumSnoc(s: seq<nat>, x: nat)
    ensures Sum(s + [x]) == Sum(s) + x
  {
    if s == [] {
      assert s + [x] == [x];
    } else {
      assert (s + [x])[1..] == s[1..] + [x];
      SumSnoc(s[1..], x);
    }
  }

  /** The sum of the first k of widths that are q, the first r of them one more. */
  lemma {:induction false} WidthPrefixSum(ws: seq<nat>, q: nat, r: nat, k: nat)
    requires k <= |ws|
    requires forall i :: 0 <= i < |ws| ==> ws[i] == q + if i < r then 1 else 0
    ensures Sum(ws[..k]) == k * q + if k < r then k else r
  {
    if k > 0 {
      WidthPrefixSum(ws, q, r, k - 1);
      assert ws[..k] == ws[..k - 1] + [ws[k - 1]];
      SumSnoc(ws[..k - 1], ws[k - 1]);
      assert k * q == (k - 1) * q + q;
    }
  }

  /** The widths share out exactly numChains outputs, whatever the number of parents. */
  lemma WidthsSumToChains(numChains: nat, parentCount: nat)
    requires 0 < parentCount && 0 < numChains
    ensures Sum(L2Widths(numChains, parentCount)) == numChains
  {
    var ws := L2Widths(numChains, parentCount);
    WidthPrefixSum(ws, numChains / parentCount, numChains % parentCount, parentCount);
    assert ws[..parentCount] == ws;
  }

  lemma QuotientAtLeast(n: nat, d: nat, q: nat)
    requires d > 0 && d * q <= n
    ensures n / d >= q
  {
    var p := n / d;
    assert n == d * p + n % d;
    assert p + 1 <= q ==> d * (p + 1) <= d * q;
  }

  lemma QuotientIsOne(n: nat, d: nat)
    requires 0 < d <= n < 2 * d
    ensures n / d == 1 && n % d == n - d
  {
    QuotientAtLeast(n, d, 1);
    var q := n / d;
    assert n == d * q + n % d;
    assert q >= 2 ==> d * q >= d * 2;
  }

  /** No parent is left without outputs as long as there are at most numChains parents. */
  lemma WidthsArePositive(numChains: nat, parentCount: nat, i: nat)
    requires i < parentCount <= numChains
    ensures 1 <= L2Width(numChains, parentCount, i)
    ensures 2 * parentCount <= numChains ==> 2 <= L2Width(numChains, parentCount, i)
  {
    QuotientAtLeast(numChains, parentCount, 1);
    if 2 * parentCount <= numChains {
      QuotientAtLeast(numChains, parentCount, 2);
    }
  }

  /** The bounds of a quotient q of n + d - 1 by d. */
  lemma CeilBounds(n: nat, d: nat, q: int, rem: nat)
    requires d > 0 && rem < d && n + d - 1 == q * d + rem
    ensures (q - 1) * d < n <= q * d
    ensures n > 0 ==> 1 <= q <= n
    ensures n == 0 ==> q == 0
  {
    assert (q - 1) * d == q * d - d;
    assert q <= 0 ==> q * d <= 0;
    assert q > n ==> (q - 1) * d >= n * d >= n;
    assert q >= 1 ==> q * d >= d;
    assert q <= -1 ==> (q + 1) * d <= 0;
  }

  /** ceilDiv is the least number of groups of d that hold n. */
  lemma CeilDivIsLeast(n: nat, d: nat)
    requires d > 0
    ensures (CeilDiv(n, d) - 1) * d < n <= CeilDiv(n, d) * d
    ensures n > 0 ==> 1 <= CeilDiv(n, d) <= n
    ensures n == 0 ==> CeilDiv(n, d) == 0
  {
    CeilBounds(n, d, (n + d - 1) / d, (n + d - 1) % d);
  }

  /**
   The L1 fanout of ceilDiv(numChains, fanoutSize) outputs respects the fanout
   size if and only if there are at most fanoutSize squared chains.
   */
  lemma L1WidthFitsIff(numChains: nat, fanoutSize: nat)
    requires numChains > 0 && fanoutSize > 0
    ensures CeilDiv(numChains, fanoutSize) <= fanoutSize <==> numChains <= fanoutSize * fanoutSize
  {
    CeilDivIsLeast(numChains, fanoutSize);
    SquareDecides(numChains, fanoutSize, CeilDiv(numChains, fanoutSize));
  }

  lemma SquareDecides(n: nat, d: nat, q: nat)
    requires q > 0 && (q - 1) * d < n <= q * d
    ensures q <= d <==> n <= d * d
  {
    if q <= d {
      assert d * d == q * d + (d - q) * d;
    } else {
      assert (q - 1) * d == d * d + (q - 1 - d) * d;
    }
  }

  /** Five chains with fanouts of two: the L1 fanout has three outputs. */
  lemma L1WidthCanExceed()
    ensures CeilDiv(5, 2) == 3 > 2
  {
  }

  /** If m groups of s hold n = m*q + r, then q < s unless r is 0. */
  lemma QuotientFits(n: nat, m: nat, s: nat, q: nat, r: nat)
    requires m > 0 && r < m && n == m * q + r && n <= m * s
    ensures q + (if r > 0 then 1 else 0) <= s
  {
    assert q >= s + 1 ==> m * q >= m * (s + 1) == m * s + m;
    assert q == s ==> m * q == m * s;
  }

  /**
   With ceilDiv(numChains, fanoutSize) parents, no L2 fanout is wider than
   fanoutSize: ceil(n / ceil(n/s)) <= s.
   */
  lemma WidthsFitFanoutSize(numChains: nat, fanoutSize: nat, i: nat)
    requires numChains > 0 && fanoutSize > 0 && i < CeilDiv(numChains, fanoutSize)
    ensures 1 <= L2Width(numChains, CeilDiv(numChains, fanoutSize), i) <= fanoutSize
  {
    var m := CeilDiv(numChains, fanoutSize);
    CeilDivIsLeast(numChains, fanoutSize);
    WidthsArePositive(numChains, m, i);
    QuotientFits(numChains, m, fanoutSize, numChains / m, numChains % m);
  }
}
