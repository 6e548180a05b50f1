/**
 Where the UTXOs of an L2 fanout come from. Funded with one output, and started
 with the same parameters every time, with two L1 outputs or more and two chains
 for each: through all crashes and replays the parents of every L2 fanout are the
 outputs of one L1 transaction that spent the funding output.
 */
module Lineage {
  import opened Outcomes
  import opened Ledger
  import opened Stages
  import opened StoreSpec
  import opened TxBuilder
  import opened Replay
  import opened Widths
  import opened Tally
  import opened Engine
  import opened Runs
  import opened Safety
  import opened SafetySteps
  import opened StageOrder
  import opened Progress
  import opened ProgressSteps
  import opened L1Sizes
  import opened L2Theorems
  import opened RebuildSteps

  /** Before the L2 fanout nothing but the funding output is spent, and that by a transaction of l1 outputs. */
  ghost predicate FromSeed(s: State, seed: OutPoint, l1: int) {
    && s.h.committed.Keys <= {seed}
    && (seed in s.h.committed ==> |s.d.utxos| == l1 == |s.h.committed[seed].outs|)
    && (Rank(s.d.stage) == 1 || s.phase == L1Committed || s.toMark.Some? ==> seed in s.h.committed)
  }

  /** During it nothing but its parents is spent besides. */
  ghost predicate FromParents(s: State, seed: OutPoint, l1: int) {
    && seed in s.h.committed && |s.h.committed[seed].outs| == l1 && seed !in s.h.parents
    && forall op :: op in s.h.committed ==> op == seed || op in s.h.parents
  }

  ghost predicate Descends(s: State, seed: OutPoint, l1: int) {
    s.h.metaOk ==>
      && (Rank(s.d.stage) <= 1 ==> FromSeed(s, seed, l1))
      && (Rank(s.d.stage) == 2 ==> FromParents(s, seed, l1))
  }

  /** The part of the safety invariant that is needed here. */
  ghost predicate Holds(s: State) {
    Mirror(s.d.utxos, s.h.seeds, s.h.committed) && Tracked(s)
  }

  lemma InvHolds(s: State)
    requires Inv(s)
    ensures Holds(s) && Holds(s.(locked := true))
  {
    hide Mirror, WriteAhead, RecordsOwned, SentOwned, TasksFitPhase;
  }

  /** As long as nothing is spent only the funding output can be there. */
  lemma OnlySeed(s: State, seed: OutPoint, op: OutPoint)
    requires Holds(s) && s.h.seeds.Keys <= {seed} && s.h.committed == map[] && op in s.d.utxos
    ensures op == seed
  {
    hide Tracked;
  }

  lemma AtMostSeed(s: State, seed: OutPoint)
    requires Holds(s) && s.h.seeds.Keys <= {seed} && s.h.committed == map[]
    ensures |s.d.utxos| <= 1
  {
    hide Holds;
    forall op | op in s.d.utxos ensures op == seed { OnlySeed(s, seed, op); }
    SubsetSize(s.d.utxos.Keys, {seed});
  }

  // -------------------------------------------------------------------------- spends

  /** The transaction that moves on from the funding output. */
  lemma FirstSpend(s: State, s': State, tx: Tx, seed: OutPoint, l1: int)
    requires Holds(s) && s.h.seeds.Keys <= {seed} && l1 >= 2
    requires FromSeed(s, seed, l1) && |s.d.utxos| == 1 && |tx.outs| == l1 && SpendsOut(s, s', tx)
    ensures seed in s'.h.committed && s'.h.committed.Keys == {seed} && |s'.h.committed[seed].outs| == l1
  {
    hide Holds, Spendable;
    assert s.h.committed == map[];
    OnlySeed(s, seed, tx.input.op);
  }

  /** What is committed before the L2 fanout is the L1 transaction, and a single UTXO is there. */
  lemma CommitIsL1(s: State, op: OutPoint, n: int, l1: int)
    requires Inv(s) && Staged(s) && Sized(s, n, l1) && s.h.metaOk && Rank(s.d.stage) <= 1
    requires op in s.tasks && s.tasks[op].ToCommit?
    ensures |s.d.utxos| == 1 && |s.tasks[op].tx.outs| == l1 && s.d.stage == Some(StageNone) && s.tasks[op].kind == L1
  {
    hide Inv, RecordsStaged, ToMarkStaged, StoreSized;
    AttemptPhase(s, op);
    L1Alone(s, op);
    assert AttemptOf(s.tasks[op], L1);
  }

  /** So is what is replayed. */
  lemma ReplayIsL1(s: State, key: TxId, n: int, l1: int)
    requires Staged(s) && Sized(s, n, l1) && s.h.metaOk && Rank(s.d.stage) <= 1 && key in Replayables(s.d)
    ensures |s.d.utxos| == 1 && key.Spend? && |key.outs| == l1 && s.d.stage == Some(StageNone)
    ensures Decode(key, s.d.pending[key]).stage == Some(L1Done)
  {
    hide PhaseStaged, ToMarkStaged, PhaseSized;
  }

  lemma L1CommitLeads(s: State, a: Action)
    requires Enabled(s, a) && a.Commit? && a.ok && s.tasks[a.op].kind == L1
    ensures Do(s, a).phase == L1Committed && Do(s, a).d.stage == s.d.stage
  {
    hide CommitPending, NewTasks, Replayables;
    OtherStage(s, a);
  }

  lemma ReplayLeads(s: State, a: Action)
    requires Enabled(s, a) && a.ReplayCommit?
    ensures a.key in Replayables(s.d) && Do(s, a).toMark == Decode(a.key, s.d.pending[a.key]).stage
    ensures Do(s, a).d.stage == s.d.stage && Faithful(a.key, Decode(a.key, s.d.pending[a.key]))
  {
    hide ReplayOne;
    OtherStage(s, a);
  }

  lemma CommitEnabled(s: State, a: Action)
    requires Enabled(s, a) && a.Commit?
    ensures a.op in s.tasks && s.tasks[a.op].ToCommit?
  {
    hide Replayables;
  }

  /** Afterwards L1 is committed, or its stage is still to be marked. */
  lemma L1Applied(s: State, a: Action, tx: Tx, n: int, l1: int)
    requires Enabled(s, a) && Inv(s) && Staged(s) && Sized(s, n, l1) && s.h.metaOk && Applies(s, a, tx)
    requires Rank(s.d.stage) <= 1
    ensures |s.d.utxos| == 1 && |tx.outs| == l1 && Do(s, a).d.stage == s.d.stage == Some(StageNone)
    ensures Do(s, a).phase == L1Committed || Do(s, a).toMark == Some(L1Done)
  {
    hide Inv, Staged, Sized, Do, Rank;
    if a.Commit? {
      CommitEnabled(s, a);
      hide Enabled;
      CommitIsL1(s, a.op, n, l1);
      L1CommitLeads(s, a);
    } else {
      ReplayLeads(s, a);
      ReplayIsL1(s, a.key, n, l1);
    }
  }

  lemma SeedSpent(s: State, a: Action, tx: Tx, seed: OutPoint, n: int, l1: int)
    requires Enabled(s, a) && Inv(s) && Staged(s) && Sized(s, n, l1) && Sized(Do(s, a), n, l1)
    requires s.h.metaOk && Do(s, a).h.metaOk && s.h.seeds.Keys <= {seed} && l1 >= 2
    requires Applies(s, a, tx) && SpendsOut(s, Do(s, a), tx) && Rank(s.d.stage) <= 1 && FromSeed(s, seed, l1)
    ensures FromSeed(Do(s, a), seed, l1) && Rank(Do(s, a).d.stage) == 0
  {
    L1Applied(s, a, tx, n, l1);
    InvHolds(s);
    FirstSpend(s, Do(s, a), tx, seed, l1);
    hide Inv, Staged, StoreSized, Do, Enabled, Applies, SpendsOut, Holds;
  }

  /** What is applied during an L2 fanout spends one of its parents. */
  lemma AppliesParent(s: State, a: Action, tx: Tx)
    requires Inv(s) && Staged(s) && Epoch(s) && s.h.metaOk && Enabled(s, a) && Applies(s, a, tx)
    requires s.d.stage == Some(L2Partial)
    ensures tx.input.op in s.h.parents
  {
    hide Inv, Shape, Count, Replaced;
    if a.Commit? {
      AttemptIsL2(s, a.op);
      HeldKey(s, a.op);
    } else {
      assert a.key in Replayables(s.d);
    }
  }

  lemma SpendKeepsParents(s: State, a: Action)
    requires Enabled(s, a) && ((a.Commit? && a.ok) || a.ReplayCommit?)
    ensures Do(s, a).h.parents == s.h.parents && Do(s, a).d.stage == s.d.stage
  {
    hide CommitPending, NewTasks, ReplayOne, Replayables;
    OtherStage(s, a);
  }

  lemma SpendDescends(s: State, a: Action, tx: Tx, seed: OutPoint, n: int, l1: int)
    requires Enabled(s, a) && Inv(s) && Staged(s) && Epoch(s) && Sized(s, n, l1) && Sized(Do(s, a), n, l1)
    requires s.h.metaOk && s.h.seeds.Keys <= {seed} && l1 >= 2
    requires Applies(s, a, tx) && SpendsOut(s, Do(s, a), tx) && Descends(s, seed, l1)
    ensures Descends(Do(s, a), seed, l1)
  {
    hide Inv, Staged, Epoch, Sized, Do, Enabled, FromSeed, Spendable;
    SpendKeepsParents(s, a);
    if Do(s, a).h.metaOk {
      if Rank(s.d.stage) <= 1 {
        SeedSpent(s, a, tx, seed, n, l1);
      } else if Rank(s.d.stage) == 2 {
        AppliesParent(s, a, tx);
      }
    }
  }

  // ------------------------------------------------------------------------ other steps

  /** Steps that change nothing that matters here. */
  ghost predicate SameDescent(s: State, s': State) {
    && s'.h.committed == s.h.committed && s'.d.utxos == s.d.utxos && s'.h.parents == s.h.parents
    && s'.d.stage == s.d.stage && (s'.h.metaOk ==> s.h.metaOk)
    && (s'.phase == L1Committed ==> s.phase == L1Committed) && (s'.toMark.Some? ==> s.toMark.Some?)
  }

  lemma SameDescends(s: State, s': State, seed: OutPoint, l1: int)
    requires SameDescent(s, s') && Descends(s, seed, l1)
    ensures Descends(s', seed, l1)
  {
  }

  lemma QuietDescent(s: State, a: Action)
    requires Enabled(s, a)
    requires a.Configure? || a.PopChain? || a.Deliver? || a.Crash? || a.Garble?
    ensures SameDescent(s, Do(s, a))
  {
    hide Replayables;
  }

  lemma EndDescent(s: State, op: OutPoint, kind: Kind)
    requires op in s.tasks
    ensures SameDescent(s, GiveUp(s, op, kind)) && SameDescent(s, Drop(s, op))
  {
  }

  lemma BuildDescent(s: State, op: OutPoint)
    requires op in s.tasks
    ensures s.tasks[op].Parent? ==> SameDescent(s, DoBuildL2(s, op))
    ensures s.tasks[op].ChainTop? ==> SameDescent(s, DoBuildHop(s, op))
    ensures s.tasks[op].Saved? ==> forall accepted :: SameDescent(s, DoReply(s, op, accepted))
  {
    hide BuildFanout, BuildSustain, GiveUp;
    EndDescent(s, op, L2);
  }

  lemma RecordDescent(s: State, op: OutPoint, flag: bool, retry: bool, now: nat)
    requires op in s.tasks
    ensures s.tasks[op].Trying? ==> SameDescent(s, DoSave(s, op, flag, now))
    ensures s.tasks[op].ToClear? ==> SameDescent(s, DoClear(s, op, flag, retry))
  {
    hide RecordOf, GiveUp;
    if s.tasks[op].Trying? { EndDescent(s, op, s.tasks[op].kind); }
    if s.tasks[op].ToClear? {
      var s1 := s.(d := if flag then ClearPending(s.d, IdOf(s.tasks[op].tx)) else s.d);
      EndDescent(s1, op, s.tasks[op].kind);
    }
  }

  lemma LocalDescent(s: State, a: Action)
    requires Enabled(s, a)
    requires a.BuildL2? || a.BuildHop? || a.Save? || a.Reply? || a.Clear? || a.Panic? || (a.Commit? && !a.ok)
    ensures SameDescent(s, Do(s, a))
  {
    hide Replayables, SameDescent, DoBuildL2, DoBuildHop, DoReply, DoSave, DoClear, Drop;
    if a.Save? {
      RecordDescent(s, a.op, a.ok, false, a.now);
    } else if a.Clear? {
      RecordDescent(s, a.op, a.cleared, a.retry, 0);
    } else {
      BuildDescent(s, a.op);
      EndDescent(s, a.op, L1);
    }
  }

  lemma FundDescends(s: State, a: Action, seed: OutPoint, l1: int)
    requires Enabled(s, a) && a.Fund? && Descends(s, seed, l1) && l1 >= 2
    ensures Descends(Do(s, a), seed, l1)
  {
    hide Replayables;
  }

  lemma BeginFacts(s: State, order: seq<OutPoint>, wrote: bool)
    requires s.cfg.Valid() && IsOrder(order, s.tasks.Keys)
    ensures var s' := BeginL2(s, order, wrote);
      && s'.h.parents == order && s'.h.committed == s.h.committed
      && (s'.h.metaOk ==> s'.d.stage == Some(L2Partial))
  {
    hide IsOrder, Parents, L2Widths;
  }

  lemma ResumeFacts(s: State, wrote: bool)
    ensures var s' := Resume(s, true, wrote); s'.h.metaOk ==> s'.d.stage == Some(L2Done)
    ensures var s' := Resume(s, false, wrote); s'.d == s.d && s'.h == s.h
  {
  }

  /** The start of an L2 fanout over the outputs of the L1 transaction. */
  lemma BeginDescends(s: State, order: seq<OutPoint>, wrote: bool, seed: OutPoint, l1: int)
    requires Holds(s) && s.phase != Down && s.cfg.Valid() && IsOrder(order, s.tasks.Keys)
    requires seed in s.h.committed && s.h.committed.Keys == {seed} && |s.h.committed[seed].outs| == l1
    ensures Descends(BeginL2(s, order, wrote), seed, l1)
  {
    SeedNotDrained(s, order, seed);
    hide Holds, BeginL2, IsOrder;
    BeginFacts(s, order, wrote);
  }

  lemma SeedNotDrained(s: State, order: seq<OutPoint>, seed: OutPoint)
    requires Holds(s) && s.phase != Down && IsOrder(order, s.tasks.Keys) && seed in s.h.committed
    ensures seed !in order
  {
    hide Mirror;
    CommittedIsBorn(s.d.utxos, s.h.seeds, s.h.committed, seed);
  }

  /** A launch of an L2 fanout finds the outputs of the L1 transaction and nothing else spent. */
  lemma SeedIsSpent(s: State, seed: OutPoint, l1: int)
    requires Holds(s) && s.h.seeds.Keys <= {seed} && l1 >= 2 && s.h.metaOk && Descends(s, seed, l1)
    requires Rank(s.d.stage) == 1 || (Rank(s.d.stage) <= 2 && |s.d.utxos| == l1)
    requires Rank(s.d.stage) == 2 ==> s.h.committed.Keys == {seed}
    ensures seed in s.h.committed && s.h.committed.Keys == {seed} && |s.h.committed[seed].outs| == l1
  {
    if s.h.committed == map[] { AtMostSeed(s, seed); }
    hide Holds;
  }

  lemma L1Descends(s: State, op: OutPoint, wrote: bool, seed: OutPoint, l1: int)
    requires op in s.tasks && Rank(s.d.stage) == 0 && s.h.metaOk && s.phase == Idle && Descends(s, seed, l1)
    ensures Descends(BeginL1(s, op, wrote), seed, l1)
  {
    BeginL1Same(s, op, wrote);
    hide BeginL1;
  }

  lemma ResumeDescends(s: State, wrote: bool, seed: OutPoint, l1: int)
    requires Descends(s, seed, l1) && s.phase == Idle
    ensures Descends(Resume(s, true, wrote), seed, l1) && Descends(Halt(s), seed, l1)
    ensures s.d.stage == Some(L2Done) ==> Descends(Resume(s, false, wrote), seed, l1)
  {
    ResumeFacts(s, wrote);
    assert SameDescent(s, Halt(s));
    SameDescends(s, Halt(s), seed, l1);
    hide Resume, Halt;
  }

  /** What the launches do, given that the queue is what the store holds. */
  lemma LaunchDescends(s: State, order: seq<OutPoint>, wrote: bool, seed: OutPoint, l1: int)
    requires Holds(s) && s.phase == Idle && s.cfg.Valid() && IsOrder(order, s.tasks.Keys) && |order| == |s.d.utxos|
    requires s.d.stage == Some(s.mem) || (s.d.stage.None? && s.mem == StageNone)
    requires s.h.seeds.Keys <= {seed} && l1 >= 2 && l1 == L1Count(s.cfg) && s.h.metaOk && Descends(s, seed, l1)
    requires s.mem == L2Partial && |order| == l1 ==> s.h.committed.Keys == {seed}
    ensures Descends(Bootstrap(s, order, wrote), seed, l1)
  {
    hide IsOrder, Holds, BeginL1, BeginL2, L1Count, Resume, Halt, Descends;
    ResumeDescends(s, wrote, seed, l1);
    if s.mem == L1Done || (|order| == l1 && (s.mem == StageNone || s.mem == L2Partial)) {
      SeedIsSpent(s, seed, l1);
      BeginDescends(s, order, wrote, seed, l1);
    }
    if |order| == 1 && s.mem == StageNone {
      FirstIsKey(order, s.tasks.Keys);
      L1Descends(s, order[0], wrote, seed, l1);
    }
  }

  lemma BeginL1Same(s: State, op: OutPoint, wrote: bool)
    requires op in s.tasks
    ensures var s' := BeginL1(s, op, wrote);
      && s'.h.committed == s.h.committed && s'.d.utxos == s.d.utxos && s'.phase != L1Committed && s'.toMark == s.toMark
      && s'.d.stage == (if wrote then Some(StageNone) else s.d.stage) && (s'.h.metaOk ==> wrote)
  {
    hide BuildFanout, L1Count;
  }

  lemma MarkDescends(s: State, a: Action, seed: OutPoint, l1: int)
    requires Staged(s) && s.h.metaOk && Enabled(s, a) && (a.MarkL1? || a.ReplayMark?) && Descends(s, seed, l1)
    ensures Descends(Do(s, a), seed, l1)
  {
    hide RecordsStaged, Replayables;
  }

  lemma BootDescends(s: State, cfg: Config, wrote: bool, seed: OutPoint, l1: int)
    requires Descends(s, seed, l1) && s.toMark.None?
    ensures Descends(DoBoot(s, cfg, wrote), seed, l1)
  {
  }

  lemma FinishFacts(s: State, a: Action)
    requires Staged(s) && s.h.metaOk && Enabled(s, a) && a.FinishL2?
    ensures s.d.stage == Some(L2Partial)
    ensures var s' := Do(s, a);
      && s'.h.parents == s.h.parents && s'.h.committed == s.h.committed
      && (s'.d.stage == Some(L2Partial) || s'.d.stage == Some(L2Done))
  {
    FinishStage(s, a);
    hide Staged, Replayables, ProducedCount, Requeue;
  }

  lemma FinishStage(s: State, a: Action)
    requires Staged(s) && s.h.metaOk && Enabled(s, a) && a.FinishL2?
    ensures s.d.stage == Some(L2Partial)
  {
    hide RecordsStaged, ToMarkStaged, Replayables;
  }

  lemma FinishDescends(s: State, a: Action, seed: OutPoint, l1: int)
    requires Staged(s) && s.h.metaOk && Enabled(s, a) && a.FinishL2? && Descends(s, seed, l1)
    ensures Descends(Do(s, a), seed, l1)
  {
    FinishFacts(s, a);
    hide Staged, Do, Enabled;
  }

  // -------------------------------------------------------------------------- every run

  /** A count of l1 under l2_partial means that no parent was fanned out. */
  lemma NoneFannedOut(states: seq<State>, actions: seq<Action>, i: nat, seed: OutPoint)
    requires IsRun(states, actions) && i < |states| && FixedParameters(states, i) && states[i].h.metaOk
    requires states[i].d.stage == Some(L2Partial) && states[i].cfg.numChains >= 2 * L1Count(states[i].cfg)
    requires |states[i].d.utxos| == L1Count(states[i].cfg) && Descends(states[i], seed, L1Count(states[i].cfg))
    ensures states[i].h.committed.Keys == {seed}
  {
    hide IsRun, FixedParameters, L1Count, FromSeed, Inv;
    CountTellsProgress(states, actions, i);
    RunKeepsInv(states, actions, i);
    var s := states[i];
    forall op | op in s.h.committed ensures op == seed {
      if op in s.h.parents {
        HeldIsUnspent(s, op);
      }
    }
  }

  lemma SeedsStay(s: State, a: Action)
    requires Inv(s) && Enabled(s, a)
    ensures s.h.seeds.Keys <= Do(s, a).h.seeds.Keys
    ensures forall op :: op in s.h.seeds ==> Do(s, a).h.seeds[op] == s.h.seeds[op]
  {
    hide Inv, CommitPending, NewTasks, ReplayOne;
    if a.Fund? || a.ReplayCommit? || (a.Commit? && a.ok) {
    } else {
      LedgerFrame(s, a);
    }
  }

  lemma {:induction false} SeedsBefore(states: seq<State>, actions: seq<Action>, k: nat, i: nat)
    requires IsRun(states, actions) && k <= i < |states|
    ensures states[k].h.seeds.Keys <= states[i].h.seeds.Keys
    ensures forall op :: op in states[k].h.seeds ==> states[i].h.seeds[op] == states[k].h.seeds[op]
    decreases i
  {
    hide Enabled, Do, Inv, Init;
    if k < i {
      SeedsBefore(states, actions, k, i - 1);
      RunKeepsInv(states, actions, i - 1);
      SeedsStay(states[i - 1], actions[i - 1]);
    }
  }

  /** Always the same parameters, with two L1 outputs or more and two chains for each, and one funding output. */
  ghost predicate PlannedRun(states: seq<State>, actions: seq<Action>, i: nat, seed: UTXO) {
    && IsRun(states, actions) && i < |states| && FixedParameters(states, i) && states[i].h.metaOk
    && L1Count(states[i].cfg) >= 2 && states[i].cfg.numChains >= 2 * L1Count(states[i].cfg)
    && states[i].h.seeds == map[seed.op := seed]
  }

  lemma FixedBefore(states: seq<State>, i: nat, k: nat)
    requires i < |states| && k <= i && FixedParameters(states, i)
    ensures FixedParameters(states, k) && Uses(states[k].cfg, states[i].cfg.numChains, states[i].cfg.fanoutSize)
    ensures L1Count(states[k].cfg) == L1Count(states[i].cfg)
  {
  }

  lemma InitDescends(s: State, seed: OutPoint, l1: int)
    requires Init(s)
    ensures Descends(s, seed, l1)
  {
  }

  /** A step whose result is not a launch. */
  lemma PlainDescends(s: State, a: Action, seed: OutPoint, l1: int)
    requires Inv(s) && Staged(s) && s.h.metaOk && Enabled(s, a) && Descends(s, seed, l1) && l1 >= 2
    requires !a.Dispatch? && !a.StartL2? && !a.ReplayCommit? && !(a.Commit? && a.ok)
    ensures Descends(Do(s, a), seed, l1)
  {
    hide Inv, Staged, Do, DoBoot, Descends, SameDescent;
    if a.Fund? {
      FundDescends(s, a, seed, l1);
    } else if a.MarkL1? || a.ReplayMark? {
      MarkDescends(s, a, seed, l1);
    } else if a.Boot? {
      BootIs(s, a);
      BootDescends(s, a.cfg, a.wrote, seed, l1);
    } else if a.FinishL2? {
      FinishDescends(s, a, seed, l1);
    } else if a.Configure? || a.PopChain? || a.Deliver? || a.Crash? || a.Garble? {
      QuietDescent(s, a);
      SameDescends(s, Do(s, a), seed, l1);
    } else {
      LocalDescent(s, a);
      SameDescends(s, Do(s, a), seed, l1);
    }
  }

  lemma StartL2Descends(s: State, a: Action, seed: OutPoint, l1: int)
    requires Inv(s) && Staged(s) && s.h.metaOk && Enabled(s, a) && a.StartL2? && Descends(s, seed, l1) && l1 >= 2
    requires s.h.seeds.Keys <= {seed}
    ensures Descends(Do(s, a), seed, l1)
  {
    L1MarkedStage(s, a);
    InvHolds(s);
    hide Staged, Inv, Holds, BeginL2, IsOrder, Descends, Do, Enabled;
    SeedIsSpent(s, seed, l1);
    BeginDescends(s, a.order, a.wrote, seed, l1);
  }

  lemma L1MarkedStage(s: State, a: Action)
    requires Staged(s) && s.h.metaOk && Enabled(s, a) && a.StartL2?
    ensures Rank(s.d.stage) == 1 && s.phase == L1Marked && s.cfg.Valid() && IsOrder(a.order, s.tasks.Keys)
    ensures Do(s, a) == BeginL2(s, a.order, a.wrote)
  {
    hide RecordsStaged, ToMarkStaged, Replayables, BeginL2, IsOrder;
  }

  /** The launch of a step of such a run. */
  lemma DispatchDescends(states: seq<State>, actions: seq<Action>, k: nat, seed: OutPoint)
    requires IsRun(states, actions) && k < |actions| && actions[k].Dispatch? && FixedParameters(states, k)
    requires states[k].h.metaOk && states[k].h.seeds.Keys <= {seed}
    requires L1Count(states[k].cfg) >= 2 && states[k].cfg.numChains >= 2 * L1Count(states[k].cfg)
    requires Descends(states[k], seed, L1Count(states[k].cfg))
    ensures Descends(states[k + 1], seed, L1Count(states[k].cfg))
  {
    hide IsRun, Inv, Holds, Staged, Do, Bootstrap, IsOrder, L1Count, FixedParameters;
    RunStep(states, actions, k);
    var s, a, l1 := states[k], actions[k], L1Count(states[k].cfg);
    RunKeepsInv(states, actions, k);
    RunKeepsStaged(states, actions, k);
    LaunchStage(s, a);
    DispatchSize(s, a);
    IdlePhase(s, a);
    if s.mem == L2Partial && |a.order| == l1 { NoneFannedOut(states, actions, k, seed); }
    LockDescends(s, seed, l1);
    InvHolds(s);
    LaunchDescends(s.(locked := true), a.order, a.wrote, seed, l1);
  }

  lemma IdlePhase(s: State, a: Action)
    requires Enabled(s, a) && a.Dispatch?
    ensures s.phase == Idle
  {
    hide Replayables, IsOrder;
  }

  lemma LockDescends(s: State, seed: OutPoint, l1: int)
    requires Descends(s, seed, l1)
    ensures Descends(s.(locked := true), seed, l1)
  {
  }

  /** The parents of every L2 fanout of such a run descend from the funding output. */
  lemma {:induction false} RunDescends(states: seq<State>, actions: seq<Action>, i: nat, k: nat, seed: UTXO)
    requires PlannedRun(states, actions, i, seed) && k <= i
    ensures Descends(states[k], seed.op, L1Count(states[i].cfg))
    decreases k
  {
    hide IsRun, Inv, Staged, Sized, Epoch, Do, Enabled, Descends, L1Count, FixedParameters;
    var l1 := L1Count(states[i].cfg);
    if k == 0 {
      RunStarts(states, actions);
      InitDescends(states[0], seed.op, l1);
    } else {
      RunDescends(states, actions, i, k - 1, seed);
      StepDescends(states, actions, i, k - 1, seed);
    }
  }

  lemma RunStarts(states: seq<State>, actions: seq<Action>)
    requires IsRun(states, actions)
    ensures |states| == |actions| + 1 && Init(states[0])
  {
  }

  lemma StepDescends(states: seq<State>, actions: seq<Action>, i: nat, k: nat, seed: UTXO)
    requires PlannedRun(states, actions, i, seed) && k < i && Descends(states[k], seed.op, L1Count(states[i].cfg))
    ensures Descends(states[k + 1], seed.op, L1Count(states[i].cfg))
  {
    hide IsRun, Inv, Staged, Sized, Epoch, Do, Enabled, Descends, L1Count, FixedParameters, Applies, SpendsOut;
    RunStarts(states, actions);
    RunStep(states, actions, k);
    var s, a, n, l1 := states[k], actions[k], states[i].cfg.numChains, L1Count(states[i].cfg);
    RankGrows(states, actions, k, i);
    FixedBefore(states, i, k);
    FixedBefore(states, i, k + 1);
    SeedsBefore(states, actions, k, i);
    RunKeepsInv(states, actions, k);
    RunKeepsStaged(states, actions, k);
    var tx := UtxoStep(s, a);
    if a.Dispatch? {
      DispatchDescends(states, actions, k, seed.op);
    } else if a.StartL2? {
      StartL2Descends(s, a, seed.op, l1);
    } else if tx.Some? {
      RunKeepsEpoch(states, actions, k);
      RunKeepsSized(states, actions, k);
      RunKeepsSized(states, actions, k + 1);
      SpendDescends(s, a, tx.value, seed.op, n, l1);
    } else {
      PlainDescends(s, a, seed.op, l1);
    }
  }
}
