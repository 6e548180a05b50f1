/**
 What is sent again after a restart (internal/engine/bootstrap.go): when two
 broadcasts that spend one outpoint, in one run of the process or on either side
 of any number of crashes, carry the same transaction.
 */
module Rebuild {
  import opened Outcomes
  import opened Ledger
  import opened Stages
  import opened TxBuilder
  import opened Replay
  import opened Widths
  import opened Tally
  import opened Engine
  import opened Runs
  import opened Safety
  import opened SafetySteps
  import opened Built
  import opened StageOrder
  import opened Progress
  import opened ProgressSteps
  import opened L1Sizes
  import opened Leftover
  import opened RebuildSteps
  import opened Blocked

  // ------------------------------------------------------ the order and the widths

  /** The widths at two places agree exactly if both or neither get one of the remaining chains. */
  lemma WidthsAgreeIff(numChains: nat, parentCount: nat, i: nat, j: nat)
    requires numChains > 0 && i < parentCount && j < parentCount
    ensures L2Width(numChains, parentCount, i) == L2Width(numChains, parentCount, j)
      <==> (i < numChains % parentCount <==> j < numChains % parentCount)
  {
  }

  /**
   Every order in which the queue may hand out the same UTXOs gives each of them
   the same L2 width if and only if the chains divide evenly among them.
   */
  lemma ParentsAgreeIff(tasks: map<OutPoint, Task>, numChains: nat)
    requires numChains > 0 && tasks != map[]
    ensures (forall order, order' :: IsOrder(order, tasks.Keys) && IsOrder(order', tasks.Keys) ==>
              Parents(tasks, order, numChains) == Parents(tasks, order', numChains))
      <==> numChains % |tasks.Keys| == 0
  {
    hide IsOrder, Parents, L2Width;
    var m := |tasks.Keys|;
    if numChains % m == 0 {
      forall order, order' | IsOrder(order, tasks.Keys) && IsOrder(order', tasks.Keys)
        ensures Parents(tasks, order, numChains) == Parents(tasks, order', numChains)
      {
        EvenParents(tasks, order, order', numChains);
      }
    } else {
      var op :| op in tasks;
      assert m > 1 by { assert op in tasks.Keys; }
      var order := OrderWith(tasks.Keys, op, 0);
      var order' := OrderWith(tasks.Keys, op, m - 1);
      OrderLength(order, tasks.Keys);
      OrderLength(order', tasks.Keys);
      ParentAt(tasks, order, numChains, 0);
      ParentAt(tasks, order', numChains, m - 1);
      WidthsAgreeIff(numChains, m, 0, m - 1);
      assert Parents(tasks, order, numChains)[op] != Parents(tasks, order', numChains)[op];
    }
  }

  lemma EvenParents(tasks: map<OutPoint, Task>, order: seq<OutPoint>, order': seq<OutPoint>, numChains: nat)
    requires IsOrder(order, tasks.Keys) && IsOrder(order', tasks.Keys)
    requires numChains > 0 && tasks != map[] && numChains % |tasks.Keys| == 0
    ensures Parents(tasks, order, numChains) == Parents(tasks, order', numChains)
  {
    hide IsOrder, Parents, L2Width;
    OrderLength(order, tasks.Keys);
    OrderLength(order', tasks.Keys);
    OrderCovers(order, tasks.Keys);
    OrderCovers(order', tasks.Keys);
    ParentsHold(tasks, order, numChains);
    ParentsHold(tasks, order', numChains);
    forall op | op in tasks ensures Parents(tasks, order, numChains)[op] == Parents(tasks, order', numChains)[op] {
      var i :| 0 <= i < |order| && order[i] == op;
      var j :| 0 <= j < |order'| && order'[j] == op;
      ParentAt(tasks, order, numChains, i);
      ParentAt(tasks, order', numChains, j);
      WidthsAgreeIff(numChains, |order|, i, j);
    }
  }

  // ------------------------------------------------------------------- two saves

  ghost predicate FixedConfig(states: seq<State>, cfg: Config, j: nat) {
    j < |states| && forall k :: 0 <= k <= j ==> states[k].cfg == cfg
  }

  /**
   Two records written for transactions that spend one outpoint, each before its
   broadcast, in a process that is always started with cfg and whose stage
   writes succeed.
   */
  ghost predicate TwoSaves(states: seq<State>, actions: seq<Action>, i: nat, j: nat, cfg: Config) {
    && IsRun(states, actions) && i < j < |actions| && FixedConfig(states, cfg, j) && states[j].h.metaOk
    && actions[i].Save? && Writes(actions[i], actions[i].op) && Writes(actions[j], actions[i].op)
  }

  /** The attempt that action i saves. */
  function AttemptAt(states: seq<State>, actions: seq<Action>, i: nat): Task {
    if i < |actions| && i < |states| && actions[i].Save? && actions[i].op in states[i].tasks
    then states[i].tasks[actions[i].op]
    else Lost(UTXO(OutPoint(External(0), 0), 0, 0))
  }

  /** The phase and the stage that attempts of a kind are made in. */
  predicate AttemptUnder(s: State, kind: Kind) {
    s.toMark.None? &&
    match kind
    case L1 => s.phase == InL1 && s.d.stage == Some(StageNone) && |s.d.utxos| == 1
    case L2 => s.phase == InL2 && s.d.stage == Some(L2Partial)
    case Hop => s.phase == Running && s.d.stage == Some(L2Done)
  }

  /** tx is what the builder of its kind makes of u under cfg. */
  ghost predicate MadeOf(cfg: Config, kind: Kind, u: UTXO, tx: Tx) {
    && tx.input == u
    && match kind
       case L1 => BuildFanout(u, L1Count(cfg), Some(cfg.mode)) == Ok(tx)
       case L2 => BuildFanout(u, |tx.outs|, Some(cfg.mode)) == Ok(tx)
       case Hop => BuildSustain(u, Some(cfg.mode)) == Ok(tx)
  }

  lemma SaveIsEnabled(s: State, a: Action)
    requires Enabled(s, a) && a.Save?
    ensures a.op in s.tasks && s.tasks[a.op].Trying?
  {
    hide Replayables;
  }

  lemma MadeWidth(u: UTXO, n: int, mode: Mode, tx: Tx)
    requires BuildFanout(u, n, Some(mode)) == Ok(tx)
    ensures n == |tx.outs| && tx.input == u
  {
    FanoutOutcome(u, n, mode);
  }

  /** Under one mode, an attempt at a fanout is what the builder makes of its UTXO for its width. */
  lemma AttemptMade(s: State, op: OutPoint, cfg: Config)
    requires Inv(s) && BuiltIn(s, iset{cfg.mode}) && s.cfg == cfg && op in s.tasks && s.tasks[op].Trying?
    requires s.h.metaOk && Sized(s, cfg.numChains, L1Count(cfg))
    ensures MadeOf(cfg, s.tasks[op].kind, s.tasks[op].tx.input, s.tasks[op].tx)
  {
    hide Mirror, WriteAhead, Tracked, RecordsOwned, SentOwned, BuildFanout, BuildSustain, L1Count, StoreSized,
         SoundRecordIn, SoundSpend;
    var t := s.tasks[op];
    NotDown(s, op);
    assert AttemptOf(t, t.kind);
    assert SoundIn(t.kind, t.tx, iset{cfg.mode});
    if t.kind != Hop {
      var n, mode :| mode in iset{cfg.mode} && BuildFanout(t.tx.input, n, Some(mode)) == Ok(t.tx);
      MadeWidth(t.tx.input, n, mode, t.tx);
    }
  }

  /** What is saved at a step of a run under one configuration. */
  lemma SaveFacts(states: seq<State>, actions: seq<Action>, i: nat, cfg: Config)
    requires IsRun(states, actions) && i < |actions| && FixedConfig(states, cfg, i) && states[i].h.metaOk &&
      actions[i].Save?
    ensures var s, op, t := states[i], actions[i].op, AttemptAt(states, actions, i);
      && op in s.tasks && t.Trying? && t == s.tasks[op] && Inv(s)
      && op in s.d.utxos && s.d.utxos[op] == t.tx.input
      && AttemptUnder(s, t.kind) && MadeOf(cfg, t.kind, t.tx.input, t.tx)
  {
    hide Inv, BuiltIn, Staged, Sized, Enabled, Do, MadeOf, L1Count, IsRun;
    RunStep(states, actions, i);
    SaveIsEnabled(states[i], actions[i]);
    RunKeepsInv(states, actions, i);
    RunKeepsStaged(states, actions, i);
    RunKeepsSized(states, actions, i);
    RunBuiltIn(states, actions, i, iset{cfg.mode});
    HeldKey(states[i], actions[i].op);
    AttemptMade(states[i], actions[i].op, cfg);
    AttemptIsUnder(states[i], actions[i].op);
  }

  lemma AttemptIsUnder(s: State, op: OutPoint)
    requires Inv(s) && Staged(s) && s.h.metaOk && op in s.tasks && s.tasks[op].Trying?
    ensures AttemptUnder(s, s.tasks[op].kind)
  {
    hide Inv, RecordsStaged, ToMarkStaged;
    AttemptPhase(s, op);
    if s.tasks[op].kind == L1 { L1Alone(s, op); }
  }

  /** Both saves spend the same UTXO, durable all the while, and the second one comes no earlier in the bootstrap. */
  lemma PairFacts(states: seq<State>, actions: seq<Action>, i: nat, j: nat, cfg: Config)
    requires TwoSaves(states, actions, i, j, cfg)
    ensures var t, t' := AttemptAt(states, actions, i), AttemptAt(states, actions, j);
      && t.Trying? && t'.Trying? && t.tx.input == t'.tx.input
      && actions[i].op in states[i].d.utxos && actions[i].op in states[j].d.utxos
      && AttemptUnder(states[i], t.kind) && AttemptUnder(states[j], t'.kind)
      && MadeOf(cfg, t.kind, t.tx.input, t.tx) && MadeOf(cfg, t'.kind, t.tx.input, t'.tx)
      && Rank(states[i].d.stage) <= Rank(states[j].d.stage)
  {
    hide IsRun, Inv, MadeOf, Rank, AttemptUnder;
    RankGrows(states, actions, i, j);
    SaveFacts(states, actions, i, cfg);
    SaveFacts(states, actions, j, cfg);
    DurableBetween(states, actions, i, j, j, actions[i].op);
  }

  lemma {:induction false} RepeatsStays(
    states: seq<State>, actions: seq<Action>, i: nat, k: nat, j: nat, kind: Kind, size: nat, cfg: Config)
    requires TwoSaves(states, actions, i, j, cfg) && i <= k <= j && kind != Hop
    requires Repeats(states[i], kind, size) && CannotProgress(cfg, kind, size)
    requires actions[i].op in states[i].d.utxos && actions[i].op in states[j].d.utxos
    ensures Repeats(states[k], kind, size)
    decreases k
  {
    hide Enabled, Do, Inv, Init, Staged, BuiltIn, Repeats, CannotProgress;
    if i < k {
      RepeatsStays(states, actions, i, k - 1, j, kind, size, cfg);
      DurableBetween(states, actions, i, k - 1, j, actions[i].op);
      DurableBetween(states, actions, i, k, j, actions[i].op);
      RunKeepsInv(states, actions, k - 1);
      RunKeepsStaged(states, actions, k - 1);
      RunBuiltIn(states, actions, k - 1, iset{cfg.mode});
      RankGrows(states, actions, k - 1, j);
      RepeatsStep(states[k - 1], actions[k - 1], actions[i].op, kind, size, cfg);
    }
  }

  /** After an attempt that cannot progress the same UTXO is only ever tried in the same way. */
  lemma KindStays(states: seq<State>, actions: seq<Action>, i: nat, j: nat, size: nat, cfg: Config)
    requires TwoSaves(states, actions, i, j, cfg)
    requires AttemptAt(states, actions, i).Trying? && |states[i].d.utxos| == size
    requires CannotProgress(cfg, AttemptAt(states, actions, i).kind, size)
    ensures AttemptAt(states, actions, j).Trying? &&
      AttemptAt(states, actions, j).kind == AttemptAt(states, actions, i).kind
  {
    hide IsRun, MadeOf, CannotProgress;
    PairFacts(states, actions, i, j, cfg);
    assert AttemptAt(states, actions, i).kind != Hop by { NoHopProgress(cfg, size); }
    RepeatsStays(states, actions, i, j, j, AttemptAt(states, actions, i).kind, size, cfg);
  }

  lemma NoHopProgress(cfg: Config, size: nat)
    ensures !CannotProgress(cfg, Hop, size)
  {
  }

  /**
   The L1 fanout and a chain hop are always rebuilt as they were, and what was
   once sent as an L2 fanout is never sent as an L1 fanout: however often the
   process crashes, only an L2 fanout can be followed by something else.
   */
  lemma L1AndHopsAreRebuilt(states: seq<State>, actions: seq<Action>, i: nat, j: nat, cfg: Config)
    requires TwoSaves(states, actions, i, j, cfg)
    ensures var t, t' := AttemptAt(states, actions, i), AttemptAt(states, actions, j);
      && t.Trying? && t'.Trying?
      && (t.kind != L2 ==> t'.kind == t.kind && t'.tx == t.tx)
      && (t.kind == L2 ==> t'.kind != L1)
  {
    hide IsRun, BuildFanout, BuildSustain, L1Count, FixedConfig;
    PairFacts(states, actions, i, j, cfg);
    if AttemptAt(states, actions, i).kind == L1 { KindStays(states, actions, i, j, 1, cfg); }
  }

  // --------------------------------------------------------- two L2 fanouts of one UTXO

  /**
   Under one configuration an L2 fanout has the width of its place among the
   ceilDiv(numChains, fanoutSize) parents.
   */
  lemma WidthOfPlace(states: seq<State>, actions: seq<Action>, i: nat, cfg: Config, k: nat)
    requires IsRun(states, actions) && i < |actions| && FixedConfig(states, cfg, i) && states[i].h.metaOk &&
      actions[i].Save?
    requires AttemptAt(states, actions, i).Trying? && AttemptAt(states, actions, i).kind == L2
    requires k < |states[i].h.parents| && states[i].h.parents[k] == actions[i].op
    ensures |states[i].h.parents| == L1Count(cfg) > 0 && cfg.numChains > 0
    ensures |AttemptAt(states, actions, i).tx.outs| == L2Width(cfg.numChains, L1Count(cfg), k)
  {
    hide IsRun, Inv, Born, Accounted, L2Width, L1Count, MadeOf, StoreSized;
    SaveFacts(states, actions, i, cfg);
    RunKeepsEpoch(states, actions, i);
    RunKeepsSized(states, actions, i);
    var h, op := states[i].h, actions[i].op;
    var k' :| 0 <= k' < |h.parents| && h.parents[k'] == op && h.widths[k'] == |AttemptAt(states, actions, i).tx.outs|;
    assert k' == k;
  }

  lemma L2SaveIsParent(states: seq<State>, actions: seq<Action>, i: nat, cfg: Config) returns (k: nat)
    requires IsRun(states, actions) && i < |actions| && FixedConfig(states, cfg, i) && states[i].h.metaOk &&
      actions[i].Save?
    requires AttemptAt(states, actions, i).Trying? && AttemptAt(states, actions, i).kind == L2
    ensures k < |states[i].h.parents| && states[i].h.parents[k] == actions[i].op
  {
    hide IsRun, Inv, Born, Accounted, L2Width, L1Count, MadeOf;
    SaveFacts(states, actions, i, cfg);
    RunKeepsEpoch(states, actions, i);
    var h, op := states[i].h, actions[i].op;
    var k' :| 0 <= k' < |h.parents| && h.parents[k'] == op && h.widths[k'] == |AttemptAt(states, actions, i).tx.outs|;
    k := k';
  }

  /**
   Rebuilding an L2 fanout. Two L2 broadcasts that spend one outpoint, with any
   crashes between them, carry the same transaction if and only if the places the
   queue gave the parent in the two drain orders both come, or both do not come,
   before the remainder of the chains is used up.
   */
  lemma L2RebuiltIff(states: seq<State>, actions: seq<Action>, i: nat, j: nat, cfg: Config, k: nat, k': nat)
    requires TwoSaves(states, actions, i, j, cfg)
    requires var t, t' := AttemptAt(states, actions, i), AttemptAt(states, actions, j);
      t.Trying? && t.kind == L2 && t'.Trying? && t'.kind == L2
    requires k < |states[i].h.parents| && states[i].h.parents[k] == actions[i].op
    requires k' < |states[j].h.parents| && states[j].h.parents[k'] == actions[i].op
    ensures |states[i].h.parents| == |states[j].h.parents| == L1Count(cfg) > 0
    ensures AttemptAt(states, actions, i).tx == AttemptAt(states, actions, j).tx
      <==> (k < cfg.numChains % L1Count(cfg) <==> k' < cfg.numChains % L1Count(cfg))
  {
    hide IsRun, BuildFanout, L1Count, L2Width, AttemptUnder;
    PairFacts(states, actions, i, j, cfg);
    RankGrows(states, actions, i, j);
    WidthOfPlace(states, actions, i, cfg, k);
    WidthOfPlace(states, actions, j, cfg, k');
    WidthsAgreeIff(cfg.numChains, L1Count(cfg), k, k');
  }

  // --------------------------------------------- an L2 fanout followed by a chain hop

  lemma FanoutIsHopIff(u: UTXO, cfg: Config, tx: Tx, hop: Tx)
    requires u.value > 0 && BuildFanout(u, |tx.outs|, Some(cfg.mode)) == Ok(tx) &&
      BuildSustain(u, Some(cfg.mode)) == Ok(hop)
    ensures tx == hop <==> |tx.outs| == 1 && cfg.mode.sustainFee == FanoutFee(cfg.mode, 1)
  {
    FanoutShareExact(u.value, |tx.outs|, cfg.mode);
    hide FanoutShare, FanoutFee, ExactSize;
    if |tx.outs| == 1 {
      assert tx.outs == [FanoutShare(u.value, 1, cfg.mode).value];
    }
  }

  /**
   A parent that was sent as an L2 fanout may be spent by a chain hop later: a
   partial fanout is resumed with chains. The two transactions are the same if
   and only if the parent had a single output and the hop pays the same fee.
   */
  lemma HopAfterL2Iff(states: seq<State>, actions: seq<Action>, i: nat, j: nat, cfg: Config, k: nat)
    requires TwoSaves(states, actions, i, j, cfg)
    requires var t, t' := AttemptAt(states, actions, i), AttemptAt(states, actions, j);
      t.Trying? && t.kind == L2 && t'.Trying? && t'.kind == Hop
    requires k < |states[i].h.parents| && states[i].h.parents[k] == actions[i].op
    ensures |states[i].h.parents| == L1Count(cfg)
    ensures AttemptAt(states, actions, i).tx == AttemptAt(states, actions, j).tx
      <==> L2Width(cfg.numChains, L1Count(cfg), k) == 1 && cfg.mode.sustainFee == FanoutFee(cfg.mode, 1)
  {
    hide IsRun, BuildFanout, BuildSustain, FanoutFee, L1Count, L2Width, AttemptUnder;
    PairFacts(states, actions, i, j, cfg);
    RankGrows(states, actions, i, j);
    WidthOfPlace(states, actions, i, cfg, k);
    var t, t' := AttemptAt(states, actions, i), AttemptAt(states, actions, j);
    SaveFacts(states, actions, i, cfg);
    ValueIsPositive(states[i], actions[i].op);
    FanoutIsHopIff(t.tx.input, cfg, t.tx, t'.tx);
  }

  lemma ValueIsPositive(s: State, op: OutPoint)
    requires Inv(s) && op in s.tasks
    ensures op in s.d.utxos && s.d.utxos[op].value > 0
  {
    hide Mirror, WriteAhead, RecordsOwned, SentOwned, TasksFitPhase, Born;
    HeldIsBorn(s, op);
  }

  // ------------------------------------------------------- under which parameters

  /** The two saves carry different transactions. */
  ghost predicate Differ(states: seq<State>, actions: seq<Action>, i: nat, j: nat, cfg: Config) {
    && TwoSaves(states, actions, i, j, cfg)
    && var t, t' := AttemptAt(states, actions, i), AttemptAt(states, actions, j);
       t.Trying? && t'.Trying? && t.tx != t'.tx
  }

  /** So do two saves of L2 fanouts. */
  ghost predicate DifferInL2(states: seq<State>, actions: seq<Action>, i: nat, j: nat, cfg: Config) {
    && Differ(states, actions, i, j, cfg)
    && AttemptAt(states, actions, i).kind == L2 && AttemptAt(states, actions, j).kind == L2
  }

  /** The chains divide evenly among the parents, or the wider fanouts do not fit into a transaction. */
  predicate L2AlwaysRebuilt(cfg: Config)
    requires cfg.Valid()
  {
    L1CountPositive(cfg);
    cfg.numChains % L1Count(cfg) == 0 || !Fits(cfg.mode, cfg.numChains / L1Count(cfg) + 1)
  }

  /**
   Nothing can come after an L2 fanout but the same fanout: there is one parent
   and more than one chain; or every parent has one output and a hop pays the
   same fee; or no L2 fanout that would matter fits into a transaction.
   */
  predicate AlwaysRebuilt(cfg: Config)
    requires cfg.Valid()
  {
    L1CountPositive(cfg);
    var n, l1 := cfg.numChains, L1Count(cfg);
    if n == l1 then cfg.mode.sustainFee == FanoutFee(cfg.mode, 1) || !Fits(cfg.mode, 1)
    else if l1 == 1 then true
    else if n < 2 * l1 then !Fits(cfg.mode, 2)
    else !Fits(cfg.mode, n / l1)
  }

  lemma L1CountPositive(cfg: Config)
    requires cfg.Valid()
    ensures 1 <= L1Count(cfg) <= cfg.numChains
  {
    CeilDivIsLeast(cfg.numChains, cfg.fanoutSize);
  }

  /** An L2 save of width w means that w fits. */
  lemma SavedFits(states: seq<State>, actions: seq<Action>, i: nat, cfg: Config, k: nat)
    requires IsRun(states, actions) && i < |actions| && FixedConfig(states, cfg, i) && states[i].h.metaOk &&
      actions[i].Save?
    requires AttemptAt(states, actions, i).Trying? && AttemptAt(states, actions, i).kind == L2
    requires k < |states[i].h.parents| && states[i].h.parents[k] == actions[i].op
    ensures k < L1Count(cfg) && Fits(cfg.mode, L2Width(cfg.numChains, L1Count(cfg), k))
  {
    hide IsRun, BuildFanout, L1Count, L2Width, AttemptUnder, ExactSize;
    SaveFacts(states, actions, i, cfg);
    WidthOfPlace(states, actions, i, cfg, k);
    var tx := AttemptAt(states, actions, i).tx;
    FanoutOutcome(tx.input, |tx.outs|, cfg.mode);
  }

  lemma L2SavesAgree(states: seq<State>, actions: seq<Action>, i: nat, j: nat, cfg: Config)
    requires cfg.Valid() && L2AlwaysRebuilt(cfg)
    ensures !DifferInL2(states, actions, i, j, cfg)
  {
    hide IsRun, L1Count, Fits;
    if DifferInL2(states, actions, i, j, cfg) {
      RankGrows(states, actions, i, j);
      var k := L2SaveIsParent(states, actions, i, cfg);
      var k' := L2SaveIsParent(states, actions, j, cfg);
      L2RebuiltIff(states, actions, i, j, cfg, k, k');
      SavedFits(states, actions, i, cfg, k);
      SavedFits(states, actions, j, cfg, k');
    }
  }

  lemma {:induction false} CountOnes(parents: seq<OutPoint>, widths: seq<nat>, present: set<OutPoint>)
    requires |parents| == |widths|
    requires forall i :: 0 <= i < |parents| ==> parents[i] in present || widths[i] == 1
    ensures Count(parents, widths, present) == |parents|
  {
    if parents != [] { CountOnes(parents[1..], widths[1..], present); }
  }

  /** A committed transaction of two or more outputs is a fanout that fits. */
  lemma CommittedFits(s: State, p: OutPoint, mode: Mode)
    requires BuiltIn(s, iset{mode}) && p in s.h.committed && |s.h.committed[p].outs| >= 2
    ensures Fits(mode, 2)
  {
    hide SoundRecordIn, BuildFanout, BuildSustain, ExactSize;
    var tx := s.h.committed[p];
    var kind :| SoundIn(kind, tx, iset{mode});
    var n, m :| m in iset{mode} && BuildFanout(tx.input, n, Some(m)) == Ok(tx);
    FanoutOutcome(tx.input, n, mode);
    FitsDown(mode, 2, n);
  }

  /** Where fanouts cannot progress, an L2 fanout always has its first number of UTXOs. */
  lemma StillAsMany(s: State, op: OutPoint, cfg: Config)
    requires Inv(s) && Epoch(s) && s.phase == InL2 && BuiltIn(s, iset{cfg.mode})
    requires op in s.d.utxos && op in s.h.parents && |s.h.parents| == L1Count(cfg) <= s.h.chains
    requires L1Count(cfg) == 1 || !Fits(cfg.mode, 2)
    ensures |s.d.utxos| == L1Count(cfg)
  {
    hide Mirror, WriteAhead, RecordsOwned, SentOwned, TasksFitPhase, BuiltIn, Fits, L1Count, Shape;
    ShapeSizes(s.h);
    var h := s.h;
    assert |h.parents| == 1 ==> h.parents[0] == op;
    forall i | 0 <= i < |h.parents| && h.parents[i] !in s.d.utxos ensures h.widths[i] == 1 {
      assert Replaced(s.d.utxos, h, i);
      ParentWidth(h, i);
      if |h.committed[h.parents[i]].outs| >= 2 { CommittedFits(s, h.parents[i], cfg.mode); }
    }
    CountOnes(h.parents, h.widths, s.d.utxos.Keys);
  }

  lemma ParentWidth(h: History, i: nat)
    requires Shape(h) && i < |h.parents|
    ensures |h.parents| == |h.widths| && (|h.parents| <= h.chains ==> h.widths[i] >= 1)
  {
    hide Born, L2Width;
    if |h.parents| <= h.chains { WidthsArePositive(h.chains, |h.parents|, i); }
  }

  /** An attempt at an L2 fanout that cannot progress is followed by L2 fanouts only. */
  lemma L2StaysL2(states: seq<State>, actions: seq<Action>, i: nat, j: nat, cfg: Config, k: nat)
    requires TwoSaves(states, actions, i, j, cfg) && cfg.Valid() && L1Count(cfg) < cfg.numChains
    requires L1Count(cfg) == 1 || !Fits(cfg.mode, 2)
    requires AttemptAt(states, actions, i).Trying? && AttemptAt(states, actions, i).kind == L2
    requires k < |states[i].h.parents| && states[i].h.parents[k] == actions[i].op
    ensures AttemptAt(states, actions, j).Trying? && AttemptAt(states, actions, j).kind == L2
  {
    hide IsRun, Inv, BuiltIn, Fits, L1Count, Accounted, Shape, MadeOf;
    RankGrows(states, actions, i, j);
    SaveFacts(states, actions, i, cfg);
    WidthOfPlace(states, actions, i, cfg, k);
    RunKeepsEpoch(states, actions, i);
    RunBuiltIn(states, actions, i, iset{cfg.mode});
    StillAsMany(states[i], actions[i].op, cfg);
    KindStays(states, actions, i, j, L1Count(cfg), cfg);
  }

  lemma SavesAgree(states: seq<State>, actions: seq<Action>, i: nat, j: nat, cfg: Config)
    requires cfg.Valid() && AlwaysRebuilt(cfg)
    ensures !Differ(states, actions, i, j, cfg)
  {
    hide IsRun, L1Count, Fits, FanoutFee;
    if Differ(states, actions, i, j, cfg) {
      RankGrows(states, actions, i, j);
      L1AndHopsAreRebuilt(states, actions, i, j, cfg);
      var k := L2SaveIsParent(states, actions, i, cfg);
      SavedFits(states, actions, i, cfg, k);
      L1CountPositive(cfg);
      NarrowWidths(cfg.numChains, L1Count(cfg));
      var n, l1 := cfg.numChains, L1Count(cfg);
      if l1 > 1 && n >= 2 * l1 {
        FitsDown(cfg.mode, n / l1, L2Width(n, l1, k));
        assert false;
      } else {
        if l1 < n { L2StaysL2(states, actions, i, j, cfg, k); }
        if AttemptAt(states, actions, j).kind == L2 {
          L2SavesAgree(states, actions, i, j, cfg);
        } else {
          HopAfterL2Iff(states, actions, i, j, cfg, k);
        }
      }
    }
  }

  lemma NarrowWidths(n: nat, l1: nat)
    requires 0 < l1 <= n
    ensures n < 2 * l1 ==> n / l1 == 1 && n % l1 == n - l1
    ensures l1 == 1 ==> n % l1 == 0
  {
    if n < 2 * l1 { QuotientIsOne(n, l1); }
  }
}
