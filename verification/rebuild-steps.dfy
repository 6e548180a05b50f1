/**
 What steps of the engine do to a durable UTXO and to the persisted stage: a UTXO
 stays as it is until it is spent for good, and as long as stage writes succeed
 the stage only goes up.
 */
module RebuildSteps {
  import opened Outcomes
  import opened Ledger
  import opened Stages
  import opened StoreSpec
  import opened TxBuilder
  import opened Replay
  import opened Widths
  import opened Engine
  import opened Safety
  import opened SafetySteps
  import opened Built
  import opened StageOrder
  import opened Progress
  import opened ProgressSteps
  import opened L1Sizes

  // --------------------------------------------- what steps do to a durable UTXO

  /** The transaction that a commit or a replayed commit applies to the store. */
  ghost predicate Applies(s: State, a: Action, tx: Tx)
    requires Enabled(s, a)
  {
    || (a.Commit? && a.ok && tx == s.tasks[a.op].tx)
    || (a.ReplayCommit? && tx == TxOf(a.key, Decode(a.key, s.d.pending[a.key])))
  }

  /** tx is spent out of utxos: its outputs are new. */
  ghost predicate SpendsOut(s: State, s': State, tx: Tx) {
    && tx.input.op in s.d.utxos && s'.d.utxos == (s.d.utxos - {tx.input.op}) + Spendable(tx)
    && s'.h.committed == s.h.committed[tx.input.op := tx]
    && forall x :: x in Spendable(tx) ==> x !in s.d.utxos
  }

  lemma CommitSpends(s: State, op: OutPoint)
    requires Inv(s) && Enabled(s, Commit(op, true))
    ensures SpendsOut(s, Do(s, Commit(op, true)), s.tasks[op].tx)
  {
    hide Inv, Mirror, Spendable, CommitPending, NewTasks, Replayables;
    HeldKey(s, op);
    CommitIsSpend(s.d, s.tasks[op].tx);
    OutputsNew(s, s.tasks[op].tx);
  }

  lemma OutputsNew(s: State, tx: Tx)
    requires Inv(s) && tx.input.op in s.d.utxos
    ensures forall x :: x in Spendable(tx) ==> x !in s.d.utxos
  {
    hide Mirror, WriteAhead, Tracked, RecordsOwned, SentOwned, TasksFitPhase;
    forall x | x in Spendable(tx) ensures x !in s.d.utxos {
      OutputsAreFresh(s.d.utxos, s.h.seeds, s.h.committed, tx, x);
    }
  }

  lemma ReplaySpends(s: State, key: TxId)
    requires Inv(s) && Enabled(s, ReplayCommit(key))
    ensures SpendsOut(s, Do(s, ReplayCommit(key)), TxOf(key, Decode(key, s.d.pending[key])))
  {
    hide Mirror, Spendable, Tracked, RecordsOwned, SentOwned, TasksFitPhase;
    ReplayOneIsSpend(s.d, key);
    OutputsNew(s, TxOf(key, Decode(key, s.d.pending[key])));
    hide ReplayOne;
  }

  /** A step funds an empty store, spends one UTXO, or leaves all UTXOs as they are. */
  lemma UtxoStep(s: State, a: Action) returns (tx: Option<Tx>)
    requires Inv(s) && Enabled(s, a)
    ensures tx.Some? ==> Applies(s, a, tx.value) && SpendsOut(s, Do(s, a), tx.value)
    ensures tx.None? ==> Do(s, a).h.committed == s.h.committed
    ensures tx.None? && s.d.utxos != map[] ==> Do(s, a).d.utxos == s.d.utxos
    ensures tx.None? <==> !a.ReplayCommit? && !(a.Commit? && a.ok)
  {
    hide Inv, Do, SpendsOut;
    tx := None;
    if a.Commit? && a.ok {
      CommitSpends(s, a.op);
      tx := Some(s.tasks[a.op].tx);
    } else if a.ReplayCommit? {
      ReplaySpends(s, a.key);
      tx := Some(TxOf(a.key, Decode(a.key, s.d.pending[a.key])));
    } else if a.Fund? {
      FundCommits(s, a);
    } else {
      LedgerFrame(s, a);
    }
  }

  lemma FundCommits(s: State, a: Action)
    requires Enabled(s, a) && a.Fund?
    ensures Do(s, a).h.committed == s.h.committed && s.d.utxos == map[]
  {
    hide Replayables;
  }

  /** op is held as u, or has been spent. */
  predicate HeldOrSpent(s: State, op: OutPoint, u: UTXO) {
    op in s.h.committed || (op in s.d.utxos && s.d.utxos[op] == u)
  }

  lemma HeldOrSpentStep(s: State, a: Action, op: OutPoint, u: UTXO)
    requires Inv(s) && Enabled(s, a) && HeldOrSpent(s, op, u)
    ensures HeldOrSpent(Do(s, a), op, u) && (op in s.h.committed ==> op in Do(s, a).h.committed)
  {
    hide Inv, Do, Enabled, Spendable, Applies;
    var tx := UtxoStep(s, a);
  }

  lemma {:induction false} HeldOrSpentStays(states: seq<State>, actions: seq<Action>, i: nat, j: nat, op: OutPoint,
    u: UTXO)
    requires IsRun(states, actions) && i <= j < |states| && HeldOrSpent(states[i], op, u)
    ensures HeldOrSpent(states[j], op, u) && (op in states[i].h.committed ==> op in states[j].h.committed)
    decreases j
  {
    hide Enabled, Do, Inv, Init, HeldOrSpent;
    if i < j {
      HeldOrSpentStays(states, actions, i, j - 1, op, u);
      RunKeepsInv(states, actions, j - 1);
      HeldOrSpentStep(states[j - 1], actions[j - 1], op, u);
    }
  }

  lemma HeldIsUnspent(s: State, op: OutPoint)
    requires Inv(s) && op in s.d.utxos
    ensures op !in s.h.committed
  {
    hide WriteAhead, Tracked, RecordsOwned, SentOwned, TasksFitPhase;
    if op in s.h.committed { CommittedIsBorn(s.d.utxos, s.h.seeds, s.h.committed, op); }
  }

  /** A UTXO that is durable now and later is so all the time between, and the same. */
  lemma DurableBetween(states: seq<State>, actions: seq<Action>, i: nat, k: nat, j: nat, op: OutPoint)
    requires IsRun(states, actions) && i <= k <= j < |states| && op in states[i].d.utxos && op in states[j].d.utxos
    ensures op in states[k].d.utxos && states[k].d.utxos[op] == states[i].d.utxos[op]
  {
    hide IsRun, Inv;
    var u := states[i].d.utxos[op];
    HeldOrSpentStays(states, actions, i, k, op, u);
    if op in states[k].h.committed {
      HeldOrSpentStays(states, actions, k, j, op, u);
      RunKeepsInv(states, actions, j);
      HeldIsUnspent(states[j], op);
    }
  }

  // ------------------------------------------------------- the stage only goes up

  function Rank(stage: Option<Stage>): nat {
    match stage
    case None => 0
    case Some(StageNone) => 0
    case Some(L1Done) => 1
    case Some(L2Partial) => 2
    case Some(L2Done) => 3
    case Some(Unknown) => 4
  }

  lemma BootstrapRank(s: State, order: seq<OutPoint>, wrote: bool)
    requires s.cfg.Valid() && IsOrder(order, s.tasks.Keys)
    requires s.d.stage == Some(s.mem) || (s.d.stage.None? && s.mem == StageNone)
    ensures Rank(s.d.stage) <= Rank(Bootstrap(s, order, wrote).d.stage)
  {
    hide IsOrder, Parents, L2Widths, BuildFanout, L1Count;
  }

  lemma BootRank(s: State, cfg: Config, wrote: bool)
    ensures DoBoot(s, cfg, wrote).h.metaOk ==> Rank(s.d.stage) <= Rank(DoBoot(s, cfg, wrote).d.stage)
    ensures DoBoot(s, cfg, wrote).h.metaOk ==> s.h.metaOk
  {
  }

  lemma MetaRank(s: State, a: Action)
    requires Staged(s) && s.h.metaOk && Enabled(s, a) && (a.MarkL1? || a.StartL2? || a.ReplayMark?)
    ensures Rank(s.d.stage) <= Rank(Do(s, a).d.stage)
  {
    hide RecordsStaged, Replayables, IsOrder, Parents, L2Widths;
  }

  lemma BootIs(s: State, a: Action)
    requires Enabled(s, a) && a.Boot?
    ensures Do(s, a) == DoBoot(s, a.cfg, a.wrote)
  {
    hide Replayables, DoBoot;
  }

  lemma FinishRank(s: State, a: Action)
    requires Staged(s) && s.h.metaOk && Enabled(s, a) && a.FinishL2?
    ensures Rank(s.d.stage) <= Rank(Do(s, a).d.stage)
  {
    hide RecordsStaged, Replayables, ToMarkStaged, ProducedCount, Requeue;
  }

  lemma OtherStage(s: State, a: Action)
    requires Enabled(s, a)
    requires !a.Dispatch? && !a.MarkL1? && !a.StartL2? && !a.FinishL2? && !a.ReplayMark? && !a.Boot?
    ensures Do(s, a).d.stage == s.d.stage
  {
    hide Replayables, BuildFanout, BuildSustain, RecordOf, NewTasks;
  }

  lemma LaunchStage(s: State, a: Action)
    requires Staged(s) && s.h.metaOk && Enabled(s, a) && a.Dispatch?
    ensures s.d.stage == Some(s.mem) || (s.d.stage.None? && s.mem == StageNone)
    ensures Do(s, a) == Bootstrap(s.(locked := true), a.order, a.wrote)
  {
    hide RecordsStaged, Replayables, Bootstrap, IsOrder;
  }

  lemma RankStep(s: State, a: Action)
    requires Staged(s) && s.h.metaOk && Enabled(s, a) && Do(s, a).h.metaOk
    ensures Rank(s.d.stage) <= Rank(Do(s, a).d.stage)
  {
    hide Staged, Do, Rank, Bootstrap, DoBoot;
    if a.Dispatch? {
      LaunchStage(s, a);
      BootstrapRank(s.(locked := true), a.order, a.wrote);
    } else if a.FinishL2? {
      FinishRank(s, a);
    } else if a.Boot? {
      BootIs(s, a);
      BootRank(s, a.cfg, a.wrote);
    } else if a.MarkL1? || a.StartL2? || a.ReplayMark? {
      MetaRank(s, a);
    } else {
      OtherStage(s, a);
    }
  }

  lemma BeginL1Meta(s: State, op: OutPoint, wrote: bool)
    requires op in s.tasks
    ensures BeginL1(s, op, wrote).h.metaOk ==> s.h.metaOk
  {
    hide BuildFanout, L1Count;
  }

  lemma BeginL2Meta(s: State, order: seq<OutPoint>, wrote: bool)
    requires s.cfg.Valid() && IsOrder(order, s.tasks.Keys)
    ensures BeginL2(s, order, wrote).h.metaOk ==> s.h.metaOk
    ensures Resume(s, true, wrote).h.metaOk ==> s.h.metaOk
  {
    hide IsOrder, Parents, L2Widths;
  }

  lemma BootstrapMeta(s: State, order: seq<OutPoint>, wrote: bool)
    requires s.cfg.Valid() && IsOrder(order, s.tasks.Keys)
    ensures Bootstrap(s, order, wrote).h.metaOk ==> s.h.metaOk
  {
    hide IsOrder, BeginL1, BeginL2, L1Count, SetMeta;
    BeginL2Meta(s, order, wrote);
    if |order| == 1 { FirstIsKey(order, s.tasks.Keys); BeginL1Meta(s, order[0], wrote); }
  }

  lemma FirstIsKey(order: seq<OutPoint>, keys: set<OutPoint>)
    requires IsOrder(order, keys) && order != []
    ensures order[0] in keys
  {
  }

  lemma BuildMeta(s: State, op: OutPoint, kind: Kind)
    requires op in s.tasks
    ensures GiveUp(s, op, kind).h == s.h && Drop(s, op).h == s.h
    ensures s.tasks[op].Parent? ==> DoBuildL2(s, op).h == s.h
    ensures s.tasks[op].ChainTop? ==> DoBuildHop(s, op).h == s.h
  {
    hide BuildFanout, BuildSustain;
  }

  lemma LocalMeta(s: State, a: Action)
    requires Enabled(s, a) && (a.Save? || a.Commit? || a.Clear? || a.BuildL2? || a.BuildHop? || a.Panic? || a.Reply?)
    ensures Do(s, a).h.metaOk == s.h.metaOk
  {
    hide Replayables, GiveUp, Drop, DoBuildL2, DoBuildHop, SavePending, CommitPending, ClearPending, RecordOf, NewTasks;
    if a.Clear? {
      var op := a.op;
      BuildMeta(s.(d := if a.cleared then ClearPending(s.d, IdOf(s.tasks[op].tx)) else s.d), op, s.tasks[op].kind);
    } else if a.Save? {
      BuildMeta(s, a.op, s.tasks[a.op].kind);
    } else {
      BuildMeta(s, a.op, L1);
    }
  }

  lemma FanoutMeta(s: State, a: Action)
    requires Enabled(s, a) && (a.StartL2? || a.FinishL2?) && Do(s, a).h.metaOk
    ensures s.h.metaOk
  {
    hide Replayables, IsOrder, Parents, L2Widths, ProducedCount, Requeue;
  }

  lemma OtherMeta(s: State, a: Action)
    requires Enabled(s, a) && Do(s, a).h.metaOk && !a.Dispatch? && !a.Boot? && !a.StartL2? && !a.FinishL2?
    requires !(a.Save? || a.Commit? || a.Clear? || a.BuildL2? || a.BuildHop? || a.Panic? || a.Reply?)
    ensures s.h.metaOk
  {
    hide Replayables, ReplayOne;
  }

  /** A failed stage write is never forgotten. */
  lemma MetaOkStep(s: State, a: Action)
    requires Enabled(s, a) && Do(s, a).h.metaOk
    ensures s.h.metaOk
  {
    hide Do, DoBoot, Bootstrap;
    if a.Dispatch? {
      DispatchIs(s, a);
      BootstrapMeta(s.(locked := true), a.order, a.wrote);
    } else if a.Boot? {
      BootIs(s, a);
      BootRank(s, a.cfg, a.wrote);
    } else if a.Save? || a.Commit? || a.Clear? || a.BuildL2? || a.BuildHop? || a.Panic? || a.Reply? {
      LocalMeta(s, a);
    } else if a.StartL2? || a.FinishL2? {
      FanoutMeta(s, a);
    } else {
      OtherMeta(s, a);
    }
  }

  lemma DispatchIs(s: State, a: Action)
    requires Enabled(s, a) && a.Dispatch?
    ensures Do(s, a) == Bootstrap(s.(locked := true), a.order, a.wrote)
  {
    hide Replayables, Bootstrap, IsOrder;
  }

  lemma {:induction false} RankGrows(states: seq<State>, actions: seq<Action>, i: nat, j: nat)
    requires IsRun(states, actions) && i <= j < |states| && states[j].h.metaOk
    ensures states[i].h.metaOk && Rank(states[i].d.stage) <= Rank(states[j].d.stage)
    decreases j
  {
    hide Enabled, Do, Init, Rank, Staged;
    if i < j {
      MetaOkStep(states[j - 1], actions[j - 1]);
      RankGrows(states, actions, i, j - 1);
      RunKeepsStaged(states, actions, j - 1);
      RankStep(states[j - 1], actions[j - 1]);
    }
  }

  // ------------------------------------------- a bootstrap that cannot get further

  /** The phase and the stage of the L1 and of the L2 fanout. */
  predicate Repeats(s: State, kind: Kind, size: nat)
    requires kind != Hop
  {
    && |s.d.utxos| == size && (kind == L1 ==> s.toMark.None?)
    && (s.phase == Down || s.phase == Idle || s.phase == Halted || s.phase == if kind == L1 then InL1 else InL2)
    && (s.d.stage == Some(if kind == L1 then StageNone else L2Partial) || s.d.stage == Some(Unknown))
  }

  /** Under cfg a fanout of this kind over size UTXOs cannot change how many there are, and is repeated on them. */
  predicate CannotProgress(cfg: Config, kind: Kind, size: nat) {
    match kind
    case L1 => size == 1
    case L2 => size == L1Count(cfg) < cfg.numChains && (size == 1 || !Fits(cfg.mode, 2))
    case Hop => false
  }

  /** The only UTXO cannot be spent while it is still there. */
  lemma OnlyUtxoStays(s: State, s': State, tx: Tx, op: OutPoint)
    requires SpendsOut(s, s', tx) && |s.d.utxos| == 1 && op in s.d.utxos
    ensures op !in s'.d.utxos
  {
    hide Spendable;
    var others := s.d.utxos.Keys - {op};
    assert |others| == 0;
    assert tx.input.op !in others;
  }

  /** Where 2 outputs do not fit, a fanout has one. */
  lemma OneOutput(tx: Tx, mode: Mode)
    requires SoundIn(L2, tx, iset{mode}) && !Fits(mode, 2)
    ensures |tx.outs| == 1 && tx.outs[0] > 0
  {
    hide BuildFanout, ExactSize;
    var n, m :| m in iset{mode} && BuildFanout(tx.input, n, Some(m)) == Ok(tx);
    FanoutOutcome(tx.input, n, mode);
    if n >= 2 { FitsDown(mode, 2, n); }
  }

  lemma SpendKeepsSize(s: State, s': State, tx: Tx, mode: Mode)
    requires SpendsOut(s, s', tx) && SoundIn(L2, tx, iset{mode}) && !Fits(mode, 2)
    ensures |s'.d.utxos| == |s.d.utxos|
  {
    hide Fits, SoundIn, Spendable;
    OneOutput(tx, mode);
    SizeAfterSpend(s.d.utxos, tx);
  }

  /** What an L2 fanout applies is a sound L2 transaction. */
  lemma AppliedIsSound(s: State, a: Action, tx: Tx, modes: iset<Mode>)
    requires Inv(s) && Staged(s) && s.h.metaOk && BuiltIn(s, modes) && Enabled(s, a) && Applies(s, a, tx)
    requires s.phase == Down || s.phase == Idle || s.phase == Halted || s.phase == InL2
    requires s.d.stage == Some(L2Partial) || s.d.stage == Some(Unknown)
    ensures SoundIn(L2, tx, modes)
  {
    hide SoundIn, SoundSpend, PhaseStaged, ToMarkStaged, Inv;
    if a.Commit? {
      AttemptPhase(s, a.op);
      assert AttemptOf(s.tasks[a.op], L2);
    } else {
      assert SoundRecordIn(a.key, Decode(a.key, s.d.pending[a.key]), modes);
    }
  }

  lemma RepeatsSpend(s: State, a: Action, tx: Tx, op: OutPoint, kind: Kind, size: nat, cfg: Config)
    requires Inv(s) && Staged(s) && s.h.metaOk && BuiltIn(s, iset{cfg.mode}) && Enabled(s, a)
    requires kind != Hop && Repeats(s, kind, size) && CannotProgress(cfg, kind, size)
    requires Applies(s, a, tx) && SpendsOut(s, Do(s, a), tx) && op in s.d.utxos && op in Do(s, a).d.utxos
    ensures kind == L2 && |Do(s, a).d.utxos| == size
  {
    hide Inv, Staged, BuiltIn, Do, Enabled, SpendsOut, Applies, L1Count, Fits;
    if size == 1 {
      OnlyUtxoStays(s, Do(s, a), tx, op);
    } else {
      AppliedIsSound(s, a, tx, iset{cfg.mode});
      SpendKeepsSize(s, Do(s, a), tx, cfg.mode);
    }
  }

  lemma DispatchRepeats(s: State, order: seq<OutPoint>, wrote: bool, kind: Kind, size: nat)
    requires s.cfg.Valid() && IsOrder(order, s.tasks.Keys) && |order| == size
    requires s.d.stage == Some(s.mem) && kind != Hop && Repeats(s, kind, size) && CannotProgress(s.cfg, kind, size)
    ensures Repeats(Bootstrap(s, order, wrote), kind, size)
  {
    hide IsOrder, Parents, L2Widths, BuildFanout, L1Count, Fits;
  }

  lemma FinishRepeats(s: State, a: Action, kind: Kind, size: nat)
    requires Inv(s) && Enabled(s, a) && a.FinishL2?
    requires kind != Hop && Repeats(s, kind, size) && CannotProgress(s.cfg, kind, size)
    ensures Repeats(Do(s, a), kind, size)
  {
    hide Mirror, WriteAhead, RecordsOwned, SentOwned, TasksFitPhase, L1Count, Fits, Replayables, Requeue;
    assert (set op | op in s.tasks && s.tasks[op].Produced?) <= s.tasks.Keys == s.d.utxos.Keys;
    ProducedAtMost(s);
    hide ProducedCount;
  }

  lemma ProducedAtMost(s: State)
    ensures ProducedCount(s) <= |s.tasks.Keys|
  {
    SubsetSize((set op | op in s.tasks && s.tasks[op].Produced?), s.tasks.Keys);
  }

  lemma SubsetSize<T>(a: set<T>, b: set<T>)
    requires a <= b
    ensures |a| <= |b|
  {
    assert |b - a| == |b| - |a|;
  }

  /** No other action reaches a later phase. */
  lemma OtherPhase(s: State, a: Action)
    requires Enabled(s, a) &&
      (s.phase == Down || s.phase == Idle || s.phase == Halted || s.phase == InL1 || s.phase == InL2)
    requires !a.Dispatch? && !a.FinishL2? && !a.Boot? && !(a.Commit? && a.ok)
    ensures Do(s, a).phase == s.phase || Do(s, a).phase == Halted || Do(s, a).phase == Down
    ensures !a.ReplayCommit? && s.toMark.None? ==> Do(s, a).toMark.None?
  {
    hide Replayables, BuildFanout, BuildSustain, RecordOf, ReplayOne;
  }

  lemma BootRepeats(s: State, cfg: Config, wrote: bool, kind: Kind, size: nat)
    requires kind != Hop && Repeats(s, kind, size)
    ensures Repeats(DoBoot(s, cfg, wrote), kind, size)
  {
  }

  lemma MarkRepeats(s: State, a: Action, kind: Kind, size: nat)
    requires Staged(s) && s.h.metaOk && Enabled(s, a) && a.ReplayMark? && kind != Hop && Repeats(s, kind, size)
    ensures Repeats(Do(s, a), kind, size)
  {
    hide RecordsStaged, PhaseStaged, Replayables;
  }

  lemma CommitKeepsPhase(s: State, a: Action)
    requires Inv(s) && Enabled(s, a) && a.Commit? && s.phase == InL2
    ensures Do(s, a).phase == InL2
  {
    hide Inv, Replayables, CommitPending, NewTasks;
    AttemptPhase(s, a.op);
  }

  lemma CommitOnlyIn(s: State, a: Action)
    requires Inv(s) && Enabled(s, a) && a.Commit?
    ensures s.phase == InL1 || s.phase == InL2 || s.phase == Running
  {
    hide Inv, Replayables;
    AttemptPhase(s, a.op);
  }

  /** As long as op is durable, a fanout that cannot progress stays the only thing that is tried. */
  lemma RepeatsStep(s: State, a: Action, op: OutPoint, kind: Kind, size: nat, cfg: Config)
    requires Inv(s) && Staged(s) && BuiltIn(s, iset{cfg.mode}) && s.cfg == cfg
    requires Enabled(s, a) && s.h.metaOk && op in s.d.utxos && op in Do(s, a).d.utxos
    requires kind != Hop && Repeats(s, kind, size) && CannotProgress(cfg, kind, size)
    ensures Repeats(Do(s, a), kind, size)
  {
    hide Inv, Staged, BuiltIn, Do, DoBoot, Bootstrap, SpendsOut, Applies, CannotProgress, IsOrder, Replayables, L1Count;
    var tx := UtxoStep(s, a);
    if a.Dispatch? {
      LaunchStage(s, a);
      DispatchSize(s, a);
      DispatchRepeats(s.(locked := true), a.order, a.wrote, kind, size);
    } else if a.FinishL2? {
      FinishRepeats(s, a, kind, size);
    } else if a.Boot? {
      BootIs(s, a);
      BootRepeats(s, a.cfg, a.wrote, kind, size);
    } else if a.ReplayMark? {
      MarkRepeats(s, a, kind, size);
    } else {
      OtherRepeats(s, a, tx, op, kind, size, cfg);
    }
  }

  lemma DispatchSize(s: State, a: Action)
    requires Inv(s) && Enabled(s, a) && a.Dispatch?
    ensures |a.order| == |s.d.utxos| && s.cfg.Valid() && IsOrder(a.order, s.tasks.Keys)
  {
    hide Inv, IsOrder, Replayables;
    QueueSize(s, a.order);
  }

  lemma OtherRepeats(s: State, a: Action, tx: Option<Tx>, op: OutPoint, kind: Kind, size: nat, cfg: Config)
    requires Inv(s) && Staged(s) && BuiltIn(s, iset{cfg.mode}) && s.cfg == cfg
    requires Enabled(s, a) && s.h.metaOk && op in s.d.utxos && op in Do(s, a).d.utxos
    requires kind != Hop && Repeats(s, kind, size) && CannotProgress(cfg, kind, size)
    requires !a.Dispatch? && !a.FinishL2? && !a.Boot? && !a.ReplayMark?
    requires tx.Some? ==> Applies(s, a, tx.value) && SpendsOut(s, Do(s, a), tx.value)
    requires tx.None? && s.d.utxos != map[] ==> Do(s, a).d.utxos == s.d.utxos
    requires tx.None? <==> !a.ReplayCommit? && !(a.Commit? && a.ok)
    ensures Repeats(Do(s, a), kind, size)
  {
    hide Inv, Staged, BuiltIn, Do, SpendsOut, Applies, CannotProgress, Replayables;
    if tx.Some? { RepeatsSpend(s, a, tx.value, op, kind, size, cfg); }
    if a.Commit? && a.ok {
      CommitOnlyIn(s, a);
      CommitKeepsPhase(s, a);
    } else {
      OtherPhase(s, a);
    }
    NotLater(s, a);
    OtherStage(s, a);
  }

  /** Later phases are not reached from these. */
  lemma NotLater(s: State, a: Action)
    requires Enabled(s, a) &&
      (s.phase == Down || s.phase == Idle || s.phase == Halted || s.phase == InL1 || s.phase == InL2)
    ensures !a.MarkL1? && !a.StartL2?
  {
    hide Replayables;
  }
}
