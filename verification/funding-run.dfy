/**
 The planner against the engine: what becomes of one funding output when the
 engine runs with the parameters of a plan (scripts/initial-funding.ts,
 internal/engine/bootstrap.go).
 */
module FundingRun {
  import opened Outcomes
  import opened Ledger
  import opened TxBuilder
  import opened Widths
  import opened Funding
  import opened Engine

  /** The engine started with the parameters of the plan. */
  function ConfigOf(input: Input, p: Plan): Config {
    Config(p.numChains, p.fanoutSize, TaggedDrop(input.sustainFee))
  }

  /** The L1 fanout of the funding output. */
  function L1Build(input: Input, p: Plan, seed: UTXO): Result<Tx, BuildError> {
    BuildFanout(seed, L1Count(ConfigOf(input, p)), Some(ConfigOf(input, p).mode))
  }

  /** The outputs of tx in any order the queue may hand them out. */
  predicate IsDrain(order: seq<UTXO>, tx: Tx) {
    && |order| == |tx.outs|
    && (forall i :: 0 <= i < |order| ==> order[i] in Created(tx))
    && DistinctOps(order)
  }

  /** The L2 fanout of the i-th drained output. */
  function L2Build(cfg: Config, order: seq<UTXO>, i: nat): Result<Tx, BuildError>
    requires i < |order|
  {
    BuildFanout(order[i], L2Width(cfg.numChains, |order|, i), Some(cfg.mode))
  }

  /** The UTXOs of the first k L2 fanouts: one chain starts at each. */
  function Leaves(cfg: Config, order: seq<UTXO>, k: nat): seq<UTXO>
    requires k <= |order|
  {
    if k == 0 then []
    else
      var last := L2Build(cfg, order, k - 1);
      Leaves(cfg, order, k - 1) + if last.Ok? then Created(last.value) else []
  }

  /** The transactions that chains from these UTXOs make until their value is used up. */
  function Hops(leaves: seq<UTXO>, fee: nat): nat {
    if leaves == [] || fee == 0 then 0
    else
      CeilDivIsLeast(leaves[|leaves| - 1].value, fee);
      Hops(leaves[..|leaves| - 1], fee) + CeilDiv(leaves[|leaves| - 1].value, fee)
  }

  /** Both fanouts go through, and every chain gets at least the planned value. */
  predicate Funds(input: Input, p: Plan, seed: UTXO, order: seq<UTXO>) {
    var cfg := ConfigOf(input, p);
    && L1Build(input, p, seed).Ok?
    && (forall i :: 0 <= i < |order| ==> L2Build(cfg, order, i).Ok?)
    && forall j :: 0 <= j < |Leaves(cfg, order, |order|)| ==> Leaves(cfg, order, |order|)[j].value >= p.leafValue
  }

  // --------------------------------------------------------------- the L1 fanout

  lemma EngineAgrees(input: Input, p: Plan)
    requires input.Valid() && PlanFor(input, p)
    ensures ConfigOf(input, p).Valid() && L1Count(ConfigOf(input, p)) == p.l1
  {
    hide EstimateBytes, EstimateFee, Need, L2Bytes, CeilDiv;
    PlanCounts(input, p);
  }

  /** A fanout builds exactly if its share exists, and each output is the share. */
  lemma BuildIsShare(u: UTXO, n: int, mode: Mode)
    ensures BuildFanout(u, n, Some(mode)).Ok? <==> FanoutShare(u.value, n, mode).Ok?
    ensures BuildFanout(u, n, Some(mode)).Ok? ==>
      var tx := BuildFanout(u, n, Some(mode)).value;
      tx.input == u && |tx.outs| == n && forall k :: 0 <= k < n ==> tx.outs[k] == FanoutShare(u.value, n, mode).value
  {
    hide FanoutShare;
    FanoutShareExact(u.value, n, mode);
  }

  /** The value of every L1 output, against the planned one. */
  lemma L1Shares(input: Input, p: Plan, seed: UTXO)
    requires input.Valid() && PlanFor(input, p)
    ensures L1Build(input, p, seed).Ok? ==>
      var tx := L1Build(input, p, seed).value;
      && |tx.outs| == p.l1 && p.l1Bytes <= MAX_TX_BYTES
      && (forall k :: 0 <= k < p.l1 ==> (tx.outs[k] >= p.l1OutputValue <==> seed.value >= p.initial))
      && (seed.value == p.initial ==> forall k :: 0 <= k < p.l1 ==> tx.outs[k] == p.l1OutputValue)
      && forall j, k :: 0 <= j < p.l1 && 0 <= k < p.l1 ==> tx.outs[j] == tx.outs[k]
    ensures seed.value >= p.initial && p.l1Bytes <= MAX_TX_BYTES ==> L1Build(input, p, seed).Ok?
  {
    hide FanoutShare, EstimateFee, CeilDiv, Need, L2Bytes, BuildFanout, L1Count;
    EngineAgrees(input, p);
    PlanCounts(input, p);
    L1ValueIsPositive(input, p);
    hide PlanFor, EstimateBytes;
    BuildIsShare(seed, p.l1, TaggedDrop(input.sustainFee));
    L1FitsIff(input, p, seed.value);
  }

  lemma L1ValueIsPositive(input: Input, p: Plan)
    requires input.Valid() && PlanFor(input, p)
    ensures p.l1OutputValue >= 1
  {
    hide EstimateFee, EstimateBytes, CeilDiv, L2Bytes, L2Width;
    PlanCounts(input, p);
    PlanFits(input, p, 0);
    assert p.l1OutputValue >= Need(p.numChains, p.l1, p.leafValue, 0);
    var w := L2Width(p.numChains, p.l1, 0);
    assert w * p.leafValue >= 1;
  }

  lemma L1FitsIff(input: Input, p: Plan, value: nat)
    requires input.Valid() && PlanFor(input, p) && p.l1OutputValue >= 1 && p.l1 >= 1
    ensures var share := FanoutShare(value, p.l1, TaggedDrop(input.sustainFee));
      && (share.Ok? ==> p.l1Bytes <= MAX_TX_BYTES && (share.value >= p.l1OutputValue <==> value >= p.initial))
      && (share.Ok? && value == p.initial ==> share.value == p.l1OutputValue)
      && (value >= p.initial && p.l1Bytes <= MAX_TX_BYTES ==> share.Ok?)
  {
    hide FanoutShare, EstimateBytes, EstimateFee, ExactSize, CeilDiv, Need, L2Bytes;
    EstimateIsExact(p.l1, input.sustainFee);
    FanoutShareExact(value, p.l1, TaggedDrop(input.sustainFee));
    if value >= p.initial { ShareCovers(value, p.l1, input.sustainFee, p.l1OutputValue); }
    else { ShareFallsShort(value, p.l1, input.sustainFee, p.l1OutputValue); }
  }

  // ------------------------------------------------------------- the L2 fanouts

  /** What the i-th drained output becomes, against the leaf value of the plan. */
  lemma L2Shares(input: Input, p: Plan, order: seq<UTXO>, i: nat)
    requires input.Valid() && PlanFor(input, p) && |order| == p.l1 && i < p.l1
    ensures var b := L2Build(ConfigOf(input, p), order, i);
      && (b.Ok? ==>
           && |b.value.outs| == L2Width(p.numChains, p.l1, i) >= 1 && b.value.input == order[i]
           && L2Bytes(p.numChains, p.l1, i) <= MAX_TX_BYTES
           && (order[i].value < Need(p.numChains, p.l1, p.leafValue, i) ==> b.value.outs[0] < p.leafValue))
      && (order[i].value >= p.l1OutputValue && L2Bytes(p.numChains, p.l1, i) <= MAX_TX_BYTES ==>
           b.Ok? && forall k :: 0 <= k < |b.value.outs| ==> b.value.outs[k] >= p.leafValue)
  {
    hide FanoutShare, EstimateBytes, EstimateFee, ExactSize, FanoutFee, CeilDiv, L2Width, BuildFanout;
    PlanCounts(input, p);
    PlanFits(input, p, i);
    var w, value, fee := L2Width(p.numChains, p.l1, i), order[i].value, input.sustainFee;
    BuildIsShare(order[i], w, TaggedDrop(fee));
    EstimateIsExact(w, fee);
    FanoutShareExact(value, w, TaggedDrop(fee));
    assert p.l1OutputValue >= Need(p.numChains, p.l1, p.leafValue, i);
    if value >= Need(p.numChains, p.l1, p.leafValue, i) { ShareCovers(value, w, fee, p.leafValue); }
    else { ShareFallsShort(value, w, fee, p.leafValue); }
  }

  /** A leaf of the first k fanouts is an output of one of them. */
  ghost predicate LeafOf(cfg: Config, order: seq<UTXO>, k: nat, leaf: UTXO, i: nat, v: nat)
    requires k <= |order|
  {
    && i < k && L2Build(cfg, order, i).Ok?
    && v < |L2Build(cfg, order, i).value.outs| && leaf == Output(L2Build(cfg, order, i).value, v)
  }

  lemma {:induction false} LeafComesFrom(cfg: Config, order: seq<UTXO>, k: nat, j: nat) returns (i: nat, v: nat)
    requires k <= |order| && j < |Leaves(cfg, order, k)|
    ensures LeafOf(cfg, order, k, Leaves(cfg, order, k)[j], i, v)
  {
    hide L2Build;
    var before := Leaves(cfg, order, k - 1);
    if j < |before| {
      i, v := LeafComesFrom(cfg, order, k - 1, j);
      assert Leaves(cfg, order, k)[j] == before[j];
    } else {
      i, v := k - 1, j - |before|;
      assert Leaves(cfg, order, k)[j] == Created(L2Build(cfg, order, k - 1).value)[v];
    }
  }

  lemma {:induction false} LeafIsThere(cfg: Config, order: seq<UTXO>, k: nat, leaf: UTXO, i: nat, v: nat)
    requires k <= |order| && LeafOf(cfg, order, k, leaf, i, v)
    ensures leaf in Leaves(cfg, order, k)
  {
    hide L2Build;
    if i == k - 1 {
      assert Created(L2Build(cfg, order, i).value)[v] == leaf;
    } else {
      LeafIsThere(cfg, order, k - 1, leaf, i, v);
    }
  }

  /** There are as many leaves as the widths say. */
  lemma {:induction false} LeafCount(input: Input, p: Plan, order: seq<UTXO>, k: nat)
    requires input.Valid() && PlanFor(input, p) && |order| == p.l1 && k <= p.l1
    requires forall i :: 0 <= i < k ==> L2Build(ConfigOf(input, p), order, i).Ok?
    ensures |Leaves(ConfigOf(input, p), order, k)| == Sum(L2Widths(p.numChains, p.l1)[..k])
  {
    hide L2Build, PlanFor, L2Widths;
    if k > 0 {
      LeafCount(input, p, order, k - 1);
      L2Shares(input, p, order, k - 1);
      var ws := L2Widths(p.numChains, p.l1);
      assert ws[..k] == ws[..k - 1] + [ws[k - 1]];
      SumSnoc(ws[..k - 1], ws[k - 1]);
    }
  }

  lemma {:induction false} LeavesDiffer(input: Input, p: Plan, order: seq<UTXO>, k: nat)
    requires input.Valid() && PlanFor(input, p) && |order| == p.l1 && k <= p.l1
    requires DistinctOps(order)
    ensures DistinctOps(Leaves(ConfigOf(input, p), order, k))
  {
    hide L2Build, PlanFor;
    if k > 0 {
      var cfg := ConfigOf(input, p);
      LeavesDiffer(input, p, order, k - 1);
      var before := Leaves(cfg, order, k - 1);
      if L2Build(cfg, order, k - 1).Ok? {
        L2Shares(input, p, order, k - 1);
        forall j | 0 <= j < |before| ensures before[j].op.txid != IdOf(L2Build(cfg, order, k - 1).value) {
          var i, _ := LeafComesFrom(cfg, order, k - 1, j);
          L2Shares(input, p, order, i);
        }
      }
    }
  }

  lemma {:induction false} HopsAtLeast(leaves: seq<UTXO>, fee: nat, each: nat)
    requires fee > 0 && forall j :: 0 <= j < |leaves| ==> CeilDiv(leaves[j].value, fee) >= each
    ensures Hops(leaves, fee) >= |leaves| * each
  {
    hide CeilDiv;
    if leaves != [] {
      HopsAtLeast(leaves[..|leaves| - 1], fee, each);
      assert |leaves| * each == (|leaves| - 1) * each + each;
    }
  }

  // ---------------------------------------------------------------- the theorems

  /** The order in which the L1 outputs are drained, if there are any. */
  predicate Drained(input: Input, p: Plan, seed: UTXO, order: seq<UTXO>) {
    L1Build(input, p, seed).Ok? ==> IsDrain(order, L1Build(input, p, seed).value)
  }

  lemma DrainedValues(input: Input, p: Plan, seed: UTXO, order: seq<UTXO>)
    requires input.Valid() && PlanFor(input, p) && L1Build(input, p, seed).Ok? && Drained(input, p, seed, order)
    ensures |order| == p.l1
    ensures forall i :: 0 <= i < p.l1 ==> (order[i].value >= p.l1OutputValue <==> seed.value >= p.initial)
  {
    hide L1Build, PlanFor;
    L1Shares(input, p, seed);
    var tx := L1Build(input, p, seed).value;
    forall i | 0 <= i < p.l1 ensures order[i].value >= p.l1OutputValue <==> seed.value >= p.initial {
      assert order[i] in Created(tx);
      var k :| 0 <= k < |Created(tx)| && Created(tx)[k] == order[i];
    }
  }

  lemma PaysIfFunded(input: Input, p: Plan, seed: UTXO, order: seq<UTXO>)
    requires input.Valid() && PlanFor(input, p) && Drained(input, p, seed, order)
    requires seed.value >= p.initial && p.l1Bytes <= MAX_TX_BYTES && p.maxL2Bytes <= MAX_TX_BYTES
    ensures Funds(input, p, seed, order)
  {
    hide L1Build, L2Build, CeilDiv, Need, EstimateBytes, EstimateFee, L2Bytes;
    var cfg := ConfigOf(input, p);
    L1Shares(input, p, seed);
    DrainedValues(input, p, seed, order);
    forall i | 0 <= i < |order| ensures L2Build(cfg, order, i).Ok? {
      assert L2Bytes(p.numChains, p.l1, i) <= p.maxL2Bytes;
      L2Shares(input, p, order, i);
    }
    var leaves := Leaves(cfg, order, |order|);
    hide Leaves, PlanFor;
    forall j | 0 <= j < |leaves| ensures leaves[j].value >= p.leafValue {
      var i, v := LeafComesFrom(cfg, order, |order|, j);
      L2Shares(input, p, order, i);
    }
  }

  lemma ShortIfUnderfunded(input: Input, p: Plan, seed: UTXO, order: seq<UTXO>)
    requires input.Valid() && PlanFor(input, p) && Drained(input, p, seed, order) && seed.value < p.initial
    ensures !Funds(input, p, seed, order)
  {
    hide L1Build, L2Build, CeilDiv, Need, EstimateBytes, EstimateFee, L2Bytes;
    if Funds(input, p, seed, order) {
      var cfg := ConfigOf(input, p);
      DrainedValues(input, p, seed, order);
      var i :| 0 <= i < p.l1 && Need(p.numChains, p.l1, p.leafValue, i) == p.l1OutputValue;
      hide PlanFor, Leaves;
      L2Shares(input, p, order, i);
      LeafIsThere(cfg, order, |order|, Output(L2Build(cfg, order, i).value, 0), i, 0);
      assert false;
    }
  }

  lemma FitsIfItPays(input: Input, p: Plan, seed: UTXO, order: seq<UTXO>)
    requires input.Valid() && PlanFor(input, p) && Drained(input, p, seed, order) && Funds(input, p, seed, order)
    ensures p.l1Bytes <= MAX_TX_BYTES && p.maxL2Bytes <= MAX_TX_BYTES
  {
    hide L1Build, L2Build, CeilDiv, Need, EstimateBytes, EstimateFee, L2Bytes, Leaves;
    L1Shares(input, p, seed);
    DrainedValues(input, p, seed, order);
    var i :| 0 <= i < p.l1 && L2Bytes(p.numChains, p.l1, i) == p.maxL2Bytes;
    L2Shares(input, p, order, i);
  }

  /**
   The plan's amount is exact. A funding output pays for the run, in whatever
   order its L1 outputs are drained, if and only if it is worth at least the
   planned amount and the planned transactions respect the engine's size limit.
   */
  lemma PlanIsExact(input: Input, p: Plan, seed: UTXO, order: seq<UTXO>)
    requires input.Valid() && PlanFor(input, p) && Drained(input, p, seed, order)
    ensures Funds(input, p, seed, order)
      <==> seed.value >= p.initial && p.l1Bytes <= MAX_TX_BYTES && p.maxL2Bytes <= MAX_TX_BYTES
  {
    hide PlanFor, Drained, Funds;
    if seed.value < p.initial {
      ShortIfUnderfunded(input, p, seed, order);
    } else if p.l1Bytes <= MAX_TX_BYTES && p.maxL2Bytes <= MAX_TX_BYTES {
      PaysIfFunded(input, p, seed, order);
    } else if Funds(input, p, seed, order) {
      FitsIfItPays(input, p, seed, order);
    }
  }

  /**
   What a funding output that pays is turned into: l1 outputs, worth exactly the
   planned value if it was worth the planned amount; then numChains UTXOs at
   different outpoints; and from these, together, at least tps transactions for
   every second of the run.
   */
  lemma PlanPaysForTheRun(input: Input, p: Plan, seed: UTXO, order: seq<UTXO>)
    requires input.Valid() && PlanFor(input, p) && Drained(input, p, seed, order) && Funds(input, p, seed, order)
    ensures ConfigOf(input, p).Valid() && |L1Build(input, p, seed).value.outs| == |order| == L1Count(ConfigOf(input, p))
    ensures seed.value == p.initial ==>
      forall k :: 0 <= k < |order| ==> L1Build(input, p, seed).value.outs[k] == p.l1OutputValue
    ensures var leaves := Leaves(ConfigOf(input, p), order, |order|);
      && |leaves| == ConfigOf(input, p).numChains && DistinctOps(leaves)
      && Hops(leaves, input.sustainFee) >= input.tps * input.duration
  {
    hide L1Build, L2Build, CeilDiv, Need, EstimateBytes, EstimateFee, L2Bytes, L1Count, L2Widths;
    var leaves := Leaves(ConfigOf(input, p), order, |order|);
    hide Leaves;
    EngineAgrees(input, p);
    PlanCounts(input, p);
    L1Shares(input, p, seed);
    DrainedValues(input, p, seed, order);
    LeafCount(input, p, order, p.l1);
    WidthsSumToChains(p.numChains, p.l1);
    assert L2Widths(p.numChains, p.l1)[..p.l1] == L2Widths(p.numChains, p.l1);
    LeavesDiffer(input, p, order, p.l1);
    forall j | 0 <= j < |leaves| ensures CeilDiv(leaves[j].value, input.sustainFee) >= p.txsPerChain {
      PlanReachesTarget(input, p, leaves[j], 0);
    }
    HopsAtLeast(leaves, input.sustainFee, p.txsPerChain);
    CeilDivIsLeast(p.total, p.numChains);
  }

  predicate SomeBelow(leaves: seq<UTXO>, value: nat) {
    exists j :: 0 <= j < |leaves| && leaves[j].value < value
  }

  /**
   One satoshi less, and the L1 fanout is refused, or some L2 fanout is, or some
   chain starts below the planned value.
   */
  lemma OneSatoshiLess(input: Input, p: Plan, seed: UTXO, order: seq<UTXO>)
    requires input.Valid() && PlanFor(input, p) && Drained(input, p, seed, order) && seed.value == p.initial - 1
    ensures var cfg := ConfigOf(input, p);
      || L1Build(input, p, seed).Err?
      || (exists i :: 0 <= i < |order| && L2Build(cfg, order, i).Err?)
      || SomeBelow(Leaves(cfg, order, |order|), p.leafValue)
  {
    hide PlanFor, Drained, L1Build, L2Build;
    ShortIfUnderfunded(input, p, seed, order);
  }
}
