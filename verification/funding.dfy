/**
 The funding planner of scripts/initial-funding.ts: how many satoshis one output
 must hold for the engine's two fanouts to leave every chain enough for the
 requested run. JavaScript numbers are modelled as the integers they hold.
 */
module Funding {
  import opened Outcomes
  import opened Ledger
  import opened TxBuilder
  import opened Widths
  import Chain

  const TWO_TO_THE_52 := 0x10_0000_0000_0000
  const TWO_TO_THE_53 := 0x20_0000_0000_0000

  // ------------------------------------------------------------- size estimates

  function EstimateBytes(n: nat): nat {
    var inputSize := 32 + 4 + VarIntSize(1) + 1 + 4;
    var lockScriptLen := 1 + 6 + 1;
    var outputSize := 8 + VarIntSize(lockScriptLen) + lockScriptLen;
    4 + VarIntSize(1) + inputSize + VarIntSize(n) + n * outputSize + 4
  }

  function EstimateFee(n: nat): nat {
    (EstimateBytes(n) * 100 + 1000 - 1) / 1000
  }

  /** The planner's estimates are what the engine charges, for every width. */
  lemma EstimateIsExact(n: nat, fee: nat)
    ensures EstimateBytes(n) == ExactSize(TaggedDrop(fee), n) && EstimateFee(n) == FanoutFee(TaggedDrop(fee), n)
  {
  }

  lemma BytesGrow(a: nat, b: nat)
    requires a <= b
    ensures EstimateBytes(a) + 17 * (b - a) <= EstimateBytes(b)
    ensures EstimateBytes(a) >= 17 * a + 52
  {
  }

  /** cap outputs fit into maxBytes and one more does not; it is 1 when nothing fits. */
  predicate IsCap(cap: nat, maxBytes: nat) {
    && cap >= 1 && EstimateBytes(cap + 1) > maxBytes
    && (if EstimateBytes(1) <= maxBytes then EstimateBytes(cap) <= maxBytes else cap == 1)
  }

  lemma CapDecides(cap: nat, maxBytes: nat, n: nat)
    requires IsCap(cap, maxBytes) && EstimateBytes(1) <= maxBytes && n >= 1
    ensures n <= cap <==> EstimateBytes(n) <= maxBytes
  {
    hide EstimateBytes;
    if n <= cap { BytesGrow(n, cap); } else { BytesGrow(cap + 1, n); }
  }

  /** maxTaggedDropFanoutOutputs: doubling, then bisection. Its guard against unsafe integers never decides. */
  method MaxOutputs(maxBytes: nat) returns (cap: nat)
    requires maxBytes < TWO_TO_THE_53
    ensures IsCap(cap, maxBytes)
  {
    hide EstimateBytes;
    var lo, hi := 1, 1;
    while EstimateBytes(hi) <= maxBytes && hi < TWO_TO_THE_52
      invariant 1 <= hi <= TWO_TO_THE_52
      decreases TWO_TO_THE_52 - hi
    {
      BytesGrow(hi, hi);
      hi := hi * 2;
    }
    BytesGrow(hi, hi + 1);
    while lo < hi
      invariant 1 <= lo <= hi && (lo == 1 || EstimateBytes(lo) <= maxBytes) && EstimateBytes(hi + 1) > maxBytes
      decreases hi - lo
    {
      var mid := (lo + hi + 1) / 2;
      if EstimateBytes(mid) <= maxBytes { lo := mid; } else { hi := mid - 1; }
    }
    cap := lo;
    BytesGrow(1, lo);
  }

  // ---------------------------------------------------------------- the planner

  datatype PlanError = ChainsOutOfRange | FanoutTooLarge | TooManyL1Outputs | L1TooLarge

  datatype Input = Input(tps: nat, duration: nat, override: Option<nat>, idle: nat, maxBytes: nat, sustainFee: nat) {
    /** What the environment and prompt parsers let through. */
    predicate Valid() {
      && tps > 0 && duration > 0 && idle > 0 && sustainFee > 0 && 0 < maxBytes < TWO_TO_THE_53
      && (override.Some? ==> override.value > 0)
    }
  }

  datatype Plan = Plan(
    numChains: nat, total: nat, txsPerChain: nat, leafValue: nat, fanoutSize: nat,
    l1: nat, l1Bytes: nat, maxL2Bytes: nat, l1OutputValue: nat, initial: nat)

  /** The least r with r * r >= n. */
  function CeilSqrt(n: nat, from: nat := 0): (r: nat)
    requires from == 0 || (from - 1) * (from - 1) < n
    ensures r * r >= n && (r == 0 || (r - 1) * (r - 1) < n)
    decreases n - from
  {
    if from * from >= n then from
    else
      SquareGrows(from);
      CeilSqrt(n, from + 1)
  }

  lemma SquareGrows(k: nat)
    ensures k <= k * k
  {
  }

  function ChooseFanoutSize(numChains: nat, override: Option<nat>, cap: nat): Result<nat, PlanError> {
    var desired := if override.Some? then override.value else CeilSqrt(numChains);
    if desired > cap then
      if override.Some? then Err(FanoutTooLarge) else Ok(cap)
    else if CeilDiv(numChains, desired) > cap then Err(TooManyL1Outputs)
    else Ok(desired)
  }

  /** What parent i must hold to fan out and leave leafValue in each of its outputs. */
  function Need(numChains: nat, l1: nat, leafValue: nat, i: nat): nat {
    L2Width(numChains, l1, i) * leafValue + EstimateFee(L2Width(numChains, l1, i))
  }

  function L2Bytes(numChains: nat, l1: nat, i: nat): nat {
    EstimateBytes(L2Width(numChains, l1, i))
  }

  lemma NeedsArePositive(numChains: nat, l1: nat, leafValue: nat, i: nat)
    ensures Need(numChains, l1, leafValue, i) > 0 && L2Bytes(numChains, l1, i) > 0
  {
    hide EstimateBytes, L2Width;
    BytesGrow(L2Width(numChains, l1, i), L2Width(numChains, l1, i));
  }

  method MaxRequired(numChains: nat, l1: nat, leafValue: nat) returns (max: nat)
    ensures forall i :: 0 <= i < l1 ==> Need(numChains, l1, leafValue, i) <= max
    ensures l1 > 0 ==> exists i :: 0 <= i < l1 && Need(numChains, l1, leafValue, i) == max
  {
    hide Need;
    max := 0;
    for i := 0 to l1
      invariant forall k :: 0 <= k < i ==> Need(numChains, l1, leafValue, k) <= max
      invariant i > 0 ==> exists k :: 0 <= k < i && Need(numChains, l1, leafValue, k) == max
      invariant i == 0 ==> max == 0
    {
      var required := Need(numChains, l1, leafValue, i);
      NeedsArePositive(numChains, l1, leafValue, i);
      if required > max { max := required; }
    }
  }

  method MaxL2Bytes(numChains: nat, l1: nat) returns (max: nat)
    ensures forall i :: 0 <= i < l1 ==> L2Bytes(numChains, l1, i) <= max
    ensures l1 > 0 ==> exists i :: 0 <= i < l1 && L2Bytes(numChains, l1, i) == max
  {
    hide L2Bytes;
    max := 0;
    for i := 0 to l1
      invariant forall k :: 0 <= k < i ==> L2Bytes(numChains, l1, k) <= max
      invariant i > 0 ==> exists k :: 0 <= k < i && L2Bytes(numChains, l1, k) == max
      invariant i == 0 ==> max == 0
    {
      var bytes := L2Bytes(numChains, l1, i);
      NeedsArePositive(numChains, l1, 0, i);
      if bytes > max { max := bytes; }
    }
  }

  /** What a plan promises. */
  ghost predicate PlanFor(input: Input, p: Plan) {
    && p.numChains == input.tps * input.idle && p.numChains > 0 && p.total == input.tps * input.duration
    && p.txsPerChain == CeilDiv(p.total, p.numChains) && p.leafValue == p.txsPerChain * input.sustainFee
    && p.fanoutSize >= 1 && EstimateBytes(p.fanoutSize) <= input.maxBytes
    && p.l1 == CeilDiv(p.numChains, p.fanoutSize) && p.l1Bytes == EstimateBytes(p.l1) <= input.maxBytes
    && (forall i :: 0 <= i < p.l1 ==> Need(p.numChains, p.l1, p.leafValue, i) <= p.l1OutputValue)
    && (exists i :: 0 <= i < p.l1 && Need(p.numChains, p.l1, p.leafValue, i) == p.l1OutputValue)
    && (forall i :: 0 <= i < p.l1 ==> L2Bytes(p.numChains, p.l1, i) <= p.maxL2Bytes)
    && (exists i :: 0 <= i < p.l1 && L2Bytes(p.numChains, p.l1, i) == p.maxL2Bytes)
    && p.initial == p.l1 * p.l1OutputValue + EstimateFee(p.l1)
  }

  /** The fanout size tried for a cap on the outputs of one transaction. */
  function SizeFor(input: Input, cap: nat): nat {
    var desired := if input.override.Some? then input.override.value else CeilSqrt(input.tps * input.idle);
    if desired > cap then cap else desired
  }

  lemma SizeForIsPositive(input: Input, cap: nat)
    requires input.Valid() && cap >= 1
    ensures SizeFor(input, cap) >= 1 && input.tps * input.idle > 0
  {
    assert input.tps * input.idle > 0;
  }

  /**
   buildFundingPlan. A plan is refused exactly when the number of chains is out
   of range, when an explicit fanout size does not fit into one transaction, or
   when the L1 fanout does not.
   */
  method BuildFundingPlan(input: Input) returns (r: Result<Plan, PlanError>, cap: nat)
    requires input.Valid()
    ensures IsCap(cap, input.maxBytes)
    ensures r.Ok? <==>
      && input.tps * input.idle < TWO_TO_THE_53
      && (input.override.Some? ==> input.override.value <= cap)
      && SizeFor(input, cap) >= 1 &&
        EstimateBytes(CeilDiv(input.tps * input.idle, SizeFor(input, cap))) <= input.maxBytes
    ensures r.Ok? ==> PlanFor(input, r.value)
  {
    hide EstimateBytes, EstimateFee, Need, L2Bytes, CeilSqrt, CeilDiv, IsCap;
    cap := MaxOutputs(input.maxBytes);
    CapIsPositive(cap, input.maxBytes);
    SizeForIsPositive(input, cap);
    var numChains := input.tps * input.idle;
    if numChains >= TWO_TO_THE_53 { return Err(ChainsOutOfRange), cap; }
    var total := input.tps * input.duration;
    var txsPerChain := CeilDiv(total, numChains);
    CeilDivIsLeast(total, numChains);
    CeilDivIsLeast(numChains, SizeFor(input, cap));
    L1Decides(input, cap, numChains);
    match ChooseFanoutSize(numChains, input.override, cap)
    case Err(e) => return Err(e), cap;
    case Ok(size) =>
      var l1 := CeilDiv(numChains, size);
      if EstimateBytes(l1) > input.maxBytes { return Err(L1TooLarge), cap; }
      var leafValue := txsPerChain * input.sustainFee;
      var outputValue := MaxRequired(numChains, l1, leafValue);
      var l2Bytes := MaxL2Bytes(numChains, l1);
      SizeFits(input, cap, size, l1);
      r := Ok(Plan(numChains, total, txsPerChain, leafValue, size, l1, EstimateBytes(l1), l2Bytes, outputValue,
        l1 * outputValue + EstimateFee(l1)));
  }

  lemma CapIsPositive(cap: nat, maxBytes: nat)
    requires IsCap(cap, maxBytes)
    ensures cap >= 1
  {
  }

  /** The two checks on the L1 width agree: more than cap outputs are too many bytes. */
  lemma L1Decides(input: Input, cap: nat, numChains: nat)
    requires input.Valid() && IsCap(cap, input.maxBytes) && numChains == input.tps * input.idle
    ensures var size := SizeFor(input, cap);
      size >= 1 && (0 < CeilDiv(numChains, size)) &&
        (CeilDiv(numChains, size) > cap ==> EstimateBytes(CeilDiv(numChains, size)) > input.maxBytes)
  {
    hide EstimateBytes, CeilSqrt, CeilDiv;
    SizeForIsPositive(input, cap);
    var l1 := CeilDiv(numChains, SizeFor(input, cap));
    CeilDivIsLeast(numChains, SizeFor(input, cap));
    if l1 > cap { BytesGrow(cap + 1, l1); }
  }

  lemma SizeFits(input: Input, cap: nat, size: nat, l1: nat)
    requires IsCap(cap, input.maxBytes) && 1 <= size <= cap && l1 >= 1 && EstimateBytes(l1) <= input.maxBytes
    ensures EstimateBytes(size) <= input.maxBytes
  {
    hide EstimateBytes;
    BytesGrow(1, l1);
    CapDecides(cap, input.maxBytes, size);
  }

  // ---------------------------------------------------------------- the theorems

  lemma PlanCounts(input: Input, p: Plan)
    requires input.Valid() && PlanFor(input, p)
    ensures 1 <= p.l1 <= p.numChains && p.txsPerChain >= 1 && p.leafValue >= 1 && p.total >= 1
  {
    hide EstimateBytes, EstimateFee, Need, L2Bytes, CeilDiv;
    CeilDivIsLeast(p.numChains, p.fanoutSize);
    assert p.total > 0;
    CeilDivIsLeast(p.total, p.numChains);
    assert p.txsPerChain * input.sustainFee >= 1;
  }

  /** Every transaction of the plan respects the byte cap, and no L2 fanout is wider than the fanout size. */
  lemma PlanFits(input: Input, p: Plan, i: nat)
    requires input.Valid() && PlanFor(input, p) && i < p.l1
    ensures EstimateBytes(p.l1) <= input.maxBytes
    ensures 1 <= L2Width(p.numChains, p.l1, i) <= p.fanoutSize && L2Bytes(p.numChains, p.l1, i) <= input.maxBytes
    ensures p.maxL2Bytes <= input.maxBytes
  {
    hide EstimateBytes, EstimateFee, Need, CeilDiv, L2Width;
    forall k | 0 <= k < p.l1 ensures 1 <= L2Width(p.numChains, p.l1, k) <= p.fanoutSize &&
      L2Bytes(p.numChains, p.l1, k) <= input.maxBytes {
      WidthsFitFanoutSize(p.numChains, p.fanoutSize, k);
      BytesGrow(L2Width(p.numChains, p.l1, k), p.fanoutSize);
    }
  }

  lemma ShareBetween(n: nat, a: nat, b: nat)
    requires n > 0 && n * a < n * b + n
    ensures a <= b
  {
    assert a >= b + 1 ==> n * a >= n * (b + 1) == n * b + n;
  }

  /**
   A value that covers n shares and the fee is split into at least that share, and
   exactly it when nothing is over.
   */
  lemma ShareCovers(value: nat, n: nat, fee: nat, share: nat)
    requires n >= 1 && share >= 1 && value >= n * share + EstimateFee(n)
    ensures FanoutShare(value, n, TaggedDrop(fee)).Ok? <==> EstimateBytes(n) <= MAX_TX_BYTES
    ensures FanoutShare(value, n, TaggedDrop(fee)).Ok? ==> FanoutShare(value, n, TaggedDrop(fee)).value >= share
    ensures FanoutShare(value, n, TaggedDrop(fee)).Ok? && value == n * share + EstimateFee(n) ==>
      FanoutShare(value, n, TaggedDrop(fee)).value == share
  {
    hide FanoutShare, EstimateBytes, EstimateFee, ExactSize, FanoutFee;
    EstimateIsExact(n, fee);
    FanoutShareExact(value, n, TaggedDrop(fee));
    assert n * share >= n;
    if FanoutShare(value, n, TaggedDrop(fee)).Ok? {
      var got := FanoutShare(value, n, TaggedDrop(fee)).value;
      ShareBetween(n, share, got);
      if value == n * share + EstimateFee(n) { ShareBetween(n, got, share); }
    }
  }

  /** A value below what n shares and the fee need is refused, or split into less than the share. */
  lemma ShareFallsShort(value: nat, n: nat, fee: nat, share: nat)
    requires n >= 1 && value < n * share + EstimateFee(n)
    ensures FanoutShare(value, n, TaggedDrop(fee)).Ok? ==> FanoutShare(value, n, TaggedDrop(fee)).value < share
  {
    hide FanoutShare, EstimateBytes, EstimateFee, ExactSize, FanoutFee;
    EstimateIsExact(n, fee);
    FanoutShareExact(value, n, TaggedDrop(fee));
    if FanoutShare(value, n, TaggedDrop(fee)).Ok? {
      var got := FanoutShare(value, n, TaggedDrop(fee)).value;
      assert got >= share ==> n * got >= n * share;
    }
  }

  /**
   The plan suffices: funded with initial, the engine's L1 fanout gives every
   output exactly the planned value, and each L2 fanout of such an output gives
   every chain at least the planned leaf value. The engine accepts these
   transactions exactly when they respect its own size limit, which the default
   cap guarantees.
   */
  lemma PlanSuffices(input: Input, p: Plan, i: nat)
    requires input.Valid() && PlanFor(input, p) && i < p.l1
    ensures FanoutShare(p.initial, p.l1, TaggedDrop(input.sustainFee)).Ok? <==> p.l1Bytes <= MAX_TX_BYTES
    ensures p.l1Bytes <= MAX_TX_BYTES ==>
      FanoutShare(p.initial, p.l1, TaggedDrop(input.sustainFee)) == Ok(p.l1OutputValue)
    ensures var share := FanoutShare(p.l1OutputValue, L2Width(p.numChains, p.l1, i), TaggedDrop(input.sustainFee));
      (share.Ok? <==> L2Bytes(p.numChains, p.l1, i) <= MAX_TX_BYTES) && (share.Ok? ==> share.value >= p.leafValue)
    ensures input.maxBytes <= MAX_TX_BYTES ==>
      p.l1Bytes <= MAX_TX_BYTES && L2Bytes(p.numChains, p.l1, i) <= MAX_TX_BYTES
  {
    hide FanoutShare, EstimateBytes, EstimateFee, CeilDiv, L2Width;
    PlanCounts(input, p);
    PlanFits(input, p, i);
    var w := L2Width(p.numChains, p.l1, i);
    assert p.l1OutputValue >= Need(p.numChains, p.l1, p.leafValue, i);
    assert w * p.leafValue >= 1;
    ShareCovers(p.initial, p.l1, input.sustainFee, p.l1OutputValue);
    ShareCovers(p.l1OutputValue, w, input.sustainFee, p.leafValue);
  }

  /**
   Chains of at least the leaf value make the requested number of transactions, and
   each of those hops pays the full fee.
   */
  lemma PlanReachesTarget(input: Input, p: Plan, leaf: UTXO, k: nat)
    requires input.Valid() && PlanFor(input, p) && leaf.value >= p.leafValue
    ensures p.numChains * p.txsPerChain >= input.tps * input.duration
    ensures CeilDiv(leaf.value, input.sustainFee) >= p.txsPerChain
    ensures k <= p.txsPerChain ==> Chain.Tip(leaf, input.sustainFee, k).value == leaf.value - k * input.sustainFee
  {
    hide EstimateBytes, EstimateFee, Need, L2Bytes, CeilDiv, Chain.Tip;
    var f, t, c := input.sustainFee, p.txsPerChain, CeilDiv(leaf.value, input.sustainFee);
    PlanCounts(input, p);
    CeilDivIsLeast(p.total, p.numChains);
    CeilDivIsLeast(leaf.value, f);
    if c < t { Chain.TimesKeepsOrder(c + 1, t, f); }
    if k <= t {
      Chain.TimesKeepsOrder(k, t, f);
      Chain.TipValue(leaf, f, k);
    }
  }

  /** Parent i holding value is not fanned out, or leaves its chains below the leaf value. */
  predicate FallsShort(input: Input, p: Plan, value: nat, i: nat) {
    var share := FanoutShare(value, L2Width(p.numChains, p.l1, i), TaggedDrop(input.sustainFee));
    share.Err? || share.value < p.leafValue
  }

  lemma NeediestFallsShort(input: Input, p: Plan, value: nat, i: nat)
    requires input.Valid() && PlanFor(input, p) && i < p.l1
    requires value < Need(p.numChains, p.l1, p.leafValue, i)
    ensures FallsShort(input, p, value, i)
  {
    hide FanoutShare, EstimateBytes, EstimateFee, CeilDiv, L2Width, PlanFor;
    PlanFits(input, p, i);
    ShareFallsShort(value, L2Width(p.numChains, p.l1, i), input.sustainFee, p.leafValue);
  }

  /**
   The plan is tight: with one satoshi less the L1 outputs are worth less than
   planned, and whenever they are, some L2 fanout is refused or leaves its
   chains below the leaf value.
   */
  lemma PlanIsTight(input: Input, p: Plan, value: nat)
    requires input.Valid() && PlanFor(input, p) && value < p.l1OutputValue
    ensures p.initial > 0
    ensures var l1Share := FanoutShare(p.initial - 1, p.l1, TaggedDrop(input.sustainFee));
      l1Share.Ok? ==> l1Share.value < p.l1OutputValue
    ensures exists i :: 0 <= i < p.l1 && FallsShort(input, p, value, i)
  {
    hide FanoutShare, EstimateBytes, EstimateFee, CeilDiv, L2Width, Need, FallsShort;
    PlanCounts(input, p);
    assert p.l1 * p.l1OutputValue >= 1;
    ShareFallsShort(p.initial - 1, p.l1, input.sustainFee, p.l1OutputValue);
    var i :| 0 <= i < p.l1 && Need(p.numChains, p.l1, p.leafValue, i) == p.l1OutputValue;
    NeediestFallsShort(input, p, value, i);
  }
}
