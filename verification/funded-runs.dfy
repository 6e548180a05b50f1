/**
 The funding plan against every run of the engine: whatever crashes, replays and
 failures come between, an L2 fanout that completes has turned the funding output
 into chains that are worth what the plan promises, if and only if that output was
 worth the planned amount.
 */
module FundedRuns {
  import opened Outcomes
  import opened Ledger
  import opened Stages
  import opened TxBuilder
  import opened Replay
  import opened Widths
  import opened Tally
  import opened Funding
  import opened FundingRun
  import opened Engine
  import opened Runs
  import opened Safety
  import opened SafetySteps
  import opened Built
  import opened StageOrder
  import opened Progress
  import opened ProgressSteps
  import opened L1Sizes
  import opened L2Theorems
  import opened Lineage

  /** The state before a completed L2 fanout is collected, with all that is known of it. */
  ghost predicate Complete(s: State, seed: UTXO, l1: int) {
    && Inv(s) && Epoch(s) && s.phase == InL2 && !s.failed
    && (forall op :: op in s.tasks ==> !s.tasks[op].Active())
    && FromParents(s, seed.op, l1) && |s.h.parents| == l1 >= 2 && s.h.chains == s.cfg.numChains >= 2 * l1
    && s.h.seeds == map[seed.op := seed] && BuiltIn(s, iset{s.cfg.mode})
  }

  // --------------------------------------------------------------- the L1 transaction

  /** A committed transaction with two outputs or more is what BuildFanout makes of its input. */
  lemma CommittedFanout(s: State, op: OutPoint, mode: Mode)
    requires Inv(s) && BuiltIn(s, iset{mode}) && op in s.h.committed && |s.h.committed[op].outs| >= 2
    ensures var tx := s.h.committed[op]; BuildFanout(tx.input, |tx.outs|, Some(mode)) == Ok(tx)
  {
    hide Inv, BuildFanout, BuildSustain, SoundRecordIn;
    var tx := s.h.committed[op];
    assert SoundSpend(tx, iset{mode});
    var kind :| SoundIn(kind, tx, iset{mode});
    var n, m :| m in iset{mode} && BuildFanout(tx.input, n, Some(m)) == Ok(tx);
    FanoutOutcome(tx.input, n, mode);
  }

  lemma CommittedFrom(s: State, op: OutPoint)
    requires Inv(s) && op in s.h.committed
    ensures Born(s.h.seeds, s.h.committed, op) && s.h.committed[op].input == BornAs(s.h.seeds, s.h.committed, op)
    ensures op !in s.d.utxos
  {
    hide WriteAhead, Tracked, RecordsOwned, SentOwned, TasksFitPhase;
    CommittedIsBorn(s.d.utxos, s.h.seeds, s.h.committed, op);
  }

  lemma SeedFacts(s: State, seed: UTXO, l1: int)
    requires Complete(s, seed, l1)
    ensures seed.op in s.h.committed && BuildFanout(seed, l1, Some(s.cfg.mode)) == Ok(s.h.committed[seed.op])
    ensures |s.h.committed[seed.op].outs| == l1
  {
    hide Inv, Epoch, BuiltIn, BuildFanout;
    CommittedFrom(s, seed.op);
    CommittedFanout(s, seed.op, s.cfg.mode);
  }

  /** Every parent is an output of the L1 transaction. */
  lemma ParentFacts(s: State, seed: UTXO, l1: int, k: nat) returns (v: nat)
    requires Complete(s, seed, l1) && k < |s.h.parents|
    ensures seed.op in s.h.committed && v < l1 == |s.h.committed[seed.op].outs|
    ensures s.h.parents[k] == OutPoint(IdOf(s.h.committed[seed.op]), v)
    ensures Born(s.h.seeds, s.h.committed, s.h.parents[k])
    ensures BornAs(s.h.seeds, s.h.committed, s.h.parents[k]).value == s.h.committed[seed.op].outs[v]
  {
    hide Inv, BuiltIn, Accounted, FitsFanout;
    var p := s.h.parents[k];
    assert p in s.h.parents;
    v := p.vout;
  }

  /** So every output of the L1 transaction is a parent. */
  lemma OutputsAreParents(s: State, seed: UTXO, l1: int, v: nat)
    requires Complete(s, seed, l1) && v < l1
    ensures seed.op in s.h.committed && OutPoint(IdOf(s.h.committed[seed.op]), v) in s.h.parents
  {
    SeedFacts(s, seed, l1);
    DistinctParents(s);
    var id, parents := IdOf(s.h.committed[seed.op]), s.h.parents;
    var outputs := set i | 0 <= i < l1 :: OutPoint(id, i);
    var held := set k | 0 <= k < |parents| :: parents[k];
    forall k | 0 <= k < |parents| ensures parents[k] in outputs { var _ := ParentFacts(s, seed, l1, k); }
    hide Complete;
    OutputSetSize(id, l1);
    OrderSize(parents);
    SubsetOfSameSize(held, outputs);
    assert OutPoint(id, v) in held;
  }

  lemma DistinctParents(s: State)
    requires Epoch(s) && s.phase == InL2
    ensures Distinct(s.h.parents)
  {
    hide Accounted, Born, L2Widths, FitsFanout;
  }

  // ------------------------------------------------------------------ the L2 fanouts

  /** Each parent was fanned out with the width of its place, and all its outputs are there. */
  lemma FannedFacts(s: State, seed: UTXO, l1: int, k: nat)
    requires Complete(s, seed, l1) && k < |s.h.parents|
    ensures var p := s.h.parents[k];
      && p in s.h.committed && |s.h.committed[p].outs| == L2Width(s.cfg.numChains, l1, k) >= 2
      && Born(s.h.seeds, s.h.committed, p) && s.h.committed[p].input == BornAs(s.h.seeds, s.h.committed, p)
      && BuildFanout(s.h.committed[p].input, L2Width(s.cfg.numChains, l1, k), Some(s.cfg.mode)) == Ok(s.h.committed[p])
      && forall v :: 0 <= v < |s.h.committed[p].outs| ==> OutPoint(IdOf(s.h.committed[p]), v) in s.d.utxos
  {
    ParentGone(s, k);
    ParentPlace(s.h, k);
    WidthsArePositive(s.cfg.numChains, l1, k);
    hide Epoch, Born, BornAs, BuildFanout, L2Width, FromParents;
    var p := s.h.parents[k];
    CommittedFrom(s, p);
    CommittedFanout(s, p, s.cfg.mode);
  }

  lemma ParentPlace(h: History, k: nat)
    requires Shape(h) && k < |h.parents|
    ensures |h.parents| == |h.widths| && h.widths[k] == L2Width(h.chains, |h.parents|, k)
  {
    hide Born, L2Width;
  }

  lemma ParentGone(s: State, k: nat)
    requires Inv(s) && Epoch(s) && s.phase == InL2 && !s.failed && k < |s.h.parents|
    requires forall op :: op in s.tasks ==> !s.tasks[op].Active()
    ensures Shape(s.h) && |s.h.parents| == |s.h.widths| && Replaced(s.d.utxos, s.h, k)
  {
    hide Mirror, WriteAhead, RecordsOwned, SentOwned, Shape, Count, HasWidth;
    ShapeSizes(s.h);
    var p := s.h.parents[k];
    assert p in s.h.parents;
    assert p in s.d.utxos ==> p in s.tasks;
  }

  /** Nothing else is there. */
  lemma LeafFacts(s: State, seed: UTXO, l1: int, op: OutPoint) returns (k: nat)
    requires Complete(s, seed, l1) && op in s.tasks
    ensures k < |s.h.parents| && s.h.parents[k] in s.h.committed && s.tasks[op].Produced? && s.tasks[op].u.op == op
    ensures op.vout < |s.h.committed[s.h.parents[k]].outs| &&
      s.tasks[op].u.value == s.h.committed[s.h.parents[k]].outs[op.vout]
  {
    LeafOrigin(s, seed, l1, op);
    hide Complete;
    if op.txid.input == seed.op { OutputsAreParents(s, seed, l1, op.vout); }
    k :| 0 <= k < |s.h.parents| && s.h.parents[k] == op.txid.input;
  }

  /** A UTXO that is there is an output of a transaction that spent the funding output or a parent. */
  lemma LeafOrigin(s: State, seed: UTXO, l1: int, op: OutPoint)
    requires Complete(s, seed, l1) && op in s.tasks
    ensures s.tasks[op].Produced? && s.tasks[op].u.op == op && op !in s.h.parents
    ensures op.txid.Spend? && (op.txid.input == seed.op || op.txid.input in s.h.parents)
    ensures op.txid.input in s.h.committed && IdOf(s.h.committed[op.txid.input]) == op.txid
    ensures op.vout < |op.txid.outs| && s.tasks[op].u.value == op.txid.outs[op.vout]
    ensures seed.op in s.h.committed && |s.h.committed[seed.op].outs| == l1
  {
    hide Inv, Epoch, BuiltIn, Born, BornAs;
    ProducedTask(s, op);
    BornTask(s, op);
    BornFromSpend(s.h.seeds, s.h.committed, op);
  }

  lemma BornFromSpend(seeds: Utxos, committed: Spends, op: OutPoint)
    requires Born(seeds, committed, op) && op !in seeds
    ensures op.txid.Spend? && op.txid.input in committed && IdOf(committed[op.txid.input]) == op.txid
    ensures op.vout < |op.txid.outs| && BornAs(seeds, committed, op) == UTXO(op, op.txid.outs[op.vout], 0)
  {
  }

  lemma BornTask(s: State, op: OutPoint)
    requires Inv(s) && op in s.tasks
    ensures op in s.d.utxos && Born(s.h.seeds, s.h.committed, op) && op !in s.h.committed
    ensures s.tasks[op].Held().op == op && s.tasks[op].Held() == BornAs(s.h.seeds, s.h.committed, op)
  {
    hide WriteAhead, RecordsOwned, SentOwned, TasksFitPhase;
    HeldIsBorn(s, op);
  }

  lemma ProducedTask(s: State, op: OutPoint)
    requires Inv(s) && Epoch(s) && s.phase == InL2 && !s.failed && op in s.tasks && !s.tasks[op].Active()
    ensures s.tasks[op].Produced? && op !in s.h.parents
  {
    hide Mirror, WriteAhead, RecordsOwned, SentOwned, Shape, Accounted, HasWidth;
  }

  // ----------------------------------------------------------------------- the values

  /** What a parent of this value is split into, against the leaf value of the plan. */
  lemma SplitOf(input: Input, p: Plan, u: UTXO, k: nat, tx: Tx)
    requires input.Valid() && PlanFor(input, p) && k < p.l1
    requires BuildFanout(u, L2Width(p.numChains, p.l1, k), Some(TaggedDrop(input.sustainFee))) == Ok(tx)
    ensures u.value >= p.l1OutputValue ==> forall v :: 0 <= v < |tx.outs| ==> tx.outs[v] >= p.leafValue
    ensures |tx.outs| >= 1 && (u.value < Need(p.numChains, p.l1, p.leafValue, k) ==> tx.outs[0] < p.leafValue)
  {
    hide PlanFor, BuildFanout, L2Width, EstimateBytes;
    var order := seq(p.l1, _ => u);
    L2Shares(input, p, order, k);
  }

  lemma L1OutputsReach(input: Input, p: Plan, seed: UTXO, tx: Tx, v: nat)
    requires input.Valid() && PlanFor(input, p) && v < p.l1
    requires BuildFanout(seed, p.l1, Some(TaggedDrop(input.sustainFee))) == Ok(tx)
    ensures |tx.outs| == p.l1 && (tx.outs[v] >= p.l1OutputValue <==> seed.value >= p.initial)
  {
    hide PlanFor, BuildFanout, L1Count;
    EngineAgrees(input, p);
    L1Shares(input, p, seed);
  }

  lemma LeafReaches(s: State, seed: UTXO, input: Input, p: Plan, op: OutPoint)
    requires input.Valid() && PlanFor(input, p) && s.cfg == ConfigOf(input, p) && Complete(s, seed, p.l1)
    requires op in s.tasks && seed.value >= p.initial
    ensures s.tasks[op].Produced? && s.tasks[op].u.value >= p.leafValue
  {
    hide PlanFor, Complete, BuildFanout, L2Width, Born, BornAs;
    var k := LeafFacts(s, seed, p.l1, op);
    PlaceInPlan(s, seed, p.l1);
    FannedFacts(s, seed, p.l1, k);
    SeedFacts(s, seed, p.l1);
    var v := ParentFacts(s, seed, p.l1, k);
    L1OutputsReach(input, p, seed, s.h.committed[seed.op], v);
    var tx := s.h.committed[s.h.parents[k]];
    SplitOf(input, p, tx.input, k, tx);
  }

  lemma PlaceInPlan(s: State, seed: UTXO, l1: int)
    requires Complete(s, seed, l1)
    ensures |s.h.parents| == l1 && l1 >= 2
  {
    hide Inv, Epoch, BuiltIn;
  }

  /** An output that is there has the value its transaction gave it. */
  lemma OutputIsHeld(s: State, tx: Tx)
    requires Inv(s) && tx.input.op in s.h.committed && s.h.committed[tx.input.op] == tx && |tx.outs| >= 1
    requires OutPoint(IdOf(tx), 0) in s.d.utxos && s.phase != Down && OutPoint(IdOf(tx), 0) !in s.h.seeds
    ensures var op := OutPoint(IdOf(tx), 0); op in s.tasks && s.tasks[op].Held().value == tx.outs[0]
  {
    assert OutPoint(IdOf(tx), 0) in s.tasks by {
      hide Mirror, WriteAhead, RecordsOwned, SentOwned, TasksFitPhase;
    }
    BornTask(s, OutPoint(IdOf(tx), 0));
  }

  lemma SomeLeafFallsShort(s: State, seed: UTXO, input: Input, p: Plan) returns (op: OutPoint)
    requires input.Valid() && PlanFor(input, p) && s.cfg == ConfigOf(input, p) && Complete(s, seed, p.l1)
    requires seed.value < p.initial
    ensures op in s.tasks && s.tasks[op].Held().value < p.leafValue
  {
    hide Need, EstimateBytes, EstimateFee, L2Bytes, CeilDiv, Complete, BuildFanout, L2Width, Born, BornAs;
    var k :| 0 <= k < p.l1 && Need(p.numChains, p.l1, p.leafValue, k) == p.l1OutputValue;
    hide PlanFor;
    PlaceInPlan(s, seed, p.l1);
    FannedFacts(s, seed, p.l1, k);
    SeedFacts(s, seed, p.l1);
    var v := ParentFacts(s, seed, p.l1, k);
    L1OutputsReach(input, p, seed, s.h.committed[seed.op], v);
    var parent := s.h.parents[k];
    var tx := s.h.committed[parent];
    SplitOf(input, p, tx.input, k, tx);
    op := OutPoint(IdOf(tx), 0);
    SeedIsExternal(s, seed, p.l1, parent);
    OutputIsHeld(s, tx);
  }

  lemma SeedIsExternal(s: State, seed: UTXO, l1: int, op: OutPoint)
    requires Complete(s, seed, l1) && op in s.h.committed
    ensures Inv(s) && s.phase == InL2 && s.h.committed[op].input.op == op
    ensures OutPoint(IdOf(s.h.committed[op]), 0) !in s.h.seeds
  {
    hide Epoch, BuiltIn, WriteAhead, Tracked, RecordsOwned, SentOwned, TasksFitPhase;
    CommittedIsBorn(s.d.utxos, s.h.seeds, s.h.committed, op);
  }

  // ---------------------------------------------------------------------- the theorem

  /** The queued UTXOs in any order. */
  predicate Lists(leaves: seq<UTXO>, tasks: map<OutPoint, Task>) {
    && |leaves| == |tasks| && DistinctOps(leaves)
    && forall j :: 0 <= j < |leaves| ==> leaves[j].op in tasks && tasks[leaves[j].op] == Queued(leaves[j])
  }

  lemma ListsAll(leaves: seq<UTXO>, tasks: map<OutPoint, Task>, op: OutPoint)
    requires Lists(leaves, tasks) && op in tasks
    ensures exists j :: 0 <= j < |leaves| && leaves[j].op == op
  {
    var ops := seq(|leaves|, j requires 0 <= j < |leaves| => leaves[j].op);
    OrderSize(ops);
    var listed := set j | 0 <= j < |ops| :: ops[j];
    assert |tasks| == |tasks.Keys|;
    SubsetOfSameSize(listed, tasks.Keys);
    assert op in listed;
  }

  /** Step i of a run with the parameters of the plan and one funding output completes the L2 fanout. */
  ghost predicate Completes(states: seq<State>, actions: seq<Action>, i: nat, input: Input, p: Plan, seed: UTXO) {
    && PlannedRun(states, actions, i, seed) && i < |actions| && actions[i].FinishL2? && !states[i].failed
    && forall k :: 0 <= k <= i ==> states[k].cfg == ConfigOf(input, p)
  }

  lemma CompletesFacts(states: seq<State>, actions: seq<Action>, i: nat, input: Input, p: Plan, seed: UTXO)
    requires input.Valid() && PlanFor(input, p) && Completes(states, actions, i, input, p, seed)
    ensures |states| == |actions| + 1 && i < |actions| && Complete(states[i], seed, p.l1)
    ensures states[i + 1].phase == Running && |states[i + 1].tasks| == p.numChains
    ensures states[i + 1].tasks == Requeue(states[i].tasks)
  {
    hide IsRun, Inv, Epoch, BuiltIn, Sized, Descends, FixedParameters, L1Count, PlanFor, Do, Enabled;
    EngineAgrees(input, p);
    RunStep(states, actions, i);
    RunKeepsInv(states, actions, i);
    RunKeepsEpoch(states, actions, i);
    RunBuiltIn(states, actions, i, iset{ConfigOf(input, p).mode});
    RunKeepsSized(states, actions, i);
    RunKeepsStaged(states, actions, i);
    RunDescends(states, actions, i, i, seed);
    L2IsComplete(states, actions, i);
    FinishTasks(states[i], actions[i]);
    FinishFacts(states[i], actions[i]);
    CompleteFrom(states[i], seed, p.l1);
  }

  lemma FinishTasks(s: State, a: Action)
    requires Enabled(s, a) && a.FinishL2?
    ensures s.phase == InL2 && (forall op :: op in s.tasks ==> !s.tasks[op].Active()) &&
      Do(s, a).tasks == Requeue(s.tasks)
  {
    hide Replayables, ProducedCount, Requeue;
  }

  lemma CompleteFrom(s: State, seed: UTXO, l1: int)
    requires Inv(s) && Epoch(s) && s.phase == InL2 && !s.failed && BuiltIn(s, iset{s.cfg.mode})
    requires forall op :: op in s.tasks ==> !s.tasks[op].Active()
    requires s.h.metaOk && s.d.stage == Some(L2Partial) && Descends(s, seed.op, l1) && Sized(s, s.cfg.numChains, l1)
    requires l1 >= 2 && s.cfg.numChains >= 2 * l1 && s.h.seeds == map[seed.op := seed]
    ensures Complete(s, seed, l1)
  {
    hide Inv, BuiltIn, StoreSized, Shape, Accounted, FitsFanout;
  }

  /**
   The plan in every run. However often the process crashed, recovered and was
   refused, when the L2 fanout completes there are numChains chains; each is worth
   the leaf value of the plan if and only if the funding output was worth the
   planned amount; and then they make, together, at least tps transactions for
   every second of the run.
   */
  lemma PlanHoldsInRuns(states: seq<State>, actions: seq<Action>, i: nat, input: Input, p: Plan, seed: UTXO,
    leaves: seq<UTXO>)
    requires input.Valid() && PlanFor(input, p) && Completes(states, actions, i, input, p, seed)
    requires Lists(leaves, states[i + 1].tasks)
    ensures states[i + 1].phase == Running && |leaves| == p.numChains
    ensures seed.value >= p.initial <==> forall j :: 0 <= j < |leaves| ==> leaves[j].value >= p.leafValue
    ensures seed.value >= p.initial ==> Hops(leaves, input.sustainFee) >= input.tps * input.duration
  {
    hide PlanFor, Complete, Completes, PlannedRun;
    CompletesFacts(states, actions, i, input, p, seed);
    ConfigInPlan(states, actions, i, input, p, seed);
    var s := states[i];
    if seed.value >= p.initial {
      forall j | 0 <= j < |leaves| ensures leaves[j].value >= p.leafValue {
        LeafReaches(s, seed, input, p, leaves[j].op);
      }
      LeavesMakeHops(input, p, leaves);
    } else {
      var op := SomeLeafFallsShort(s, seed, input, p);
      ListsAll(leaves, states[i + 1].tasks, op);
      var j :| 0 <= j < |leaves| && leaves[j].op == op;
      assert leaves[j] == s.tasks[op].Held() by { QueuedIsHeld(s.tasks, op, leaves[j]); }
    }
  }

  lemma ConfigInPlan(states: seq<State>, actions: seq<Action>, i: nat, input: Input, p: Plan, seed: UTXO)
    requires Completes(states, actions, i, input, p, seed)
    ensures states[i].cfg == ConfigOf(input, p)
  {
    hide PlannedRun;
  }

  lemma QueuedIsHeld(tasks: map<OutPoint, Task>, op: OutPoint, u: UTXO)
    requires op in tasks && Requeue(tasks)[op] == Queued(u)
    ensures u == tasks[op].Held()
  {
  }

  lemma LeavesMakeHops(input: Input, p: Plan, leaves: seq<UTXO>)
    requires input.Valid() && PlanFor(input, p) && |leaves| == p.numChains
    requires forall j :: 0 <= j < |leaves| ==> leaves[j].value >= p.leafValue
    ensures Hops(leaves, input.sustainFee) >= input.tps * input.duration
  {
    hide EstimateBytes, EstimateFee, Need, L2Bytes, CeilDiv;
    PlanCounts(input, p);
    forall j | 0 <= j < |leaves| ensures CeilDiv(leaves[j].value, input.sustainFee) >= p.txsPerChain {
      PlanReachesTarget(input, p, leaves[j], 0);
    }
    HopsAtLeast(leaves, input.sustainFee, p.txsPerChain);
    CeilDivIsLeast(p.total, p.numChains);
  }
}
