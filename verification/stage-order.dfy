/**
 How the persisted stage and the pending records go together, as long as every
 stage write succeeds: all records found at a crash carry one stage, so the
 order in which they are replayed cannot change the stage either.
 */
module StageOrder {
  import opened Outcomes
  import opened Ledger
  import opened Stages
  import opened StoreSpec
  import opened TxBuilder
  import opened Replay
  import opened Engine
  import opened Safety
  import opened SafetySteps
  import opened Built

  /** The stage that a record written under the given persisted stage carries. */
  function StageAfter(stage: Option<Stage>): Option<Stage> {
    if stage == Some(StageNone) then Some(L1Done)
    else if stage == Some(L2Partial) then Some(L2Partial)
    else if stage == Some(L2Done) then Some(L2Done)
    else None
  }

  /** Every record carries the stage that follows the persisted one; during L1 there is at most one. */
  ghost predicate RecordsStaged(d: Durable) {
    && (forall key :: key in Replayables(d) ==>
      StageAfter(d.stage).Some? && Decode(key, d.pending[key]).stage == StageAfter(d.stage))
    && (d.stage == Some(StageNone) ==>
         forall key, key' :: key in Replayables(d) && key' in Replayables(d) ==> key == key')
    && (d.stage == Some(L1Done) ==> d.utxos != map[])
  }

  /** The persisted stage that a phase runs under. */
  predicate PhaseStaged(s: State) {
    match s.phase
    case Down => s.d.stage.None? ==> s.mem == StageNone
    case Idle => s.d.stage == Some(s.mem) || (s.d.stage.None? && s.mem == StageNone)
    case InL1 => s.d.stage == Some(StageNone)
    case L1Committed => s.d.stage == Some(StageNone) && s.d.utxos != map[]
    case L1Marked => s.d.stage == Some(L1Done)
    case InL2 => s.d.stage == Some(L2Partial)
    case Running => s.d.stage == Some(L2Done)
    case Halted => true
  }

  ghost predicate ToMarkStaged(s: State) {
    s.toMark.Some? ==>
      && s.phase == Down && StageAfter(s.d.stage) == s.toMark
      && (s.toMark == Some(L1Done) ==> Replayables(s.d) == {} && s.d.utxos != map[])
  }

  ghost predicate Staged(s: State) {
    s.h.metaOk ==> RecordsStaged(s.d) && PhaseStaged(s) && ToMarkStaged(s)
  }

  // ------------------------------------------------------------------ the steps

  lemma OutputsExist(kind: Kind, tx: Tx)
    requires Sound(kind, tx) && kind != Hop
    ensures OutPoint(IdOf(tx), 0) in Spendable(tx)
  {
  }

  /** In the L1 phase the only record is that of the L1 transaction. */
  lemma OnlyRecordInL1(s: State, op: OutPoint, key: TxId)
    requires Inv(s) && s.phase == InL1 && op in s.tasks && s.tasks[op].Trying? && |s.tasks| == 1 &&
      key in Replayables(s.d)
    ensures key == IdOf(s.tasks[op].tx)
  {
    hide Mirror, WriteAhead, SentOwned, TasksFitPhase, Tracked;
    OnlyKey(s.tasks, op);
    OwnerHolds(s, key.input, TxOf(key, Decode(key, s.d.pending[key])));
    OwnersRecord(s, op, key);
  }

  /** Writing a record that carries the stage after the persisted one. */
  lemma RecordStaged(d: Durable, tx: Tx, stage: Stage, now: nat)
    requires RecordsStaged(d) && StageAfter(d.stage) == Some(stage)
    requires d.stage == Some(StageNone) ==> forall key :: key in Replayables(d) ==> key == IdOf(tx)
    ensures RecordsStaged(SavePending(d, IdOf(tx), RecordOf(tx, stage, now)))
  {
    hide Created;
    SavedRecord(d, tx, stage, now);
  }

  lemma SaveStaged(s: State, op: OutPoint, now: nat)
    requires Inv(s) && Staged(s) && op in s.tasks && s.tasks[op].Trying?
    ensures Staged(DoSave(s, op, true, now))
  {
    hide Inv, Replayables, RecordsStaged;
    AttemptPhase(s, op);
    if s.h.metaOk {
      if s.phase == InL1 {
        forall key | key in Replayables(s.d) ensures key == IdOf(s.tasks[op].tx) { OnlyRecordInL1(s, op, key); }
      }
      RecordStaged(s.d, s.tasks[op].tx, StageOf(s.tasks[op].kind), now);
    }
  }

  lemma KindOfPhase(s: State, op: OutPoint)
    requires TasksFitPhase(s) && s.phase != Down && op in s.tasks
    requires s.tasks[op].Trying? || s.tasks[op].Saved? || s.tasks[op].ToCommit? || s.tasks[op].ToClear?
    ensures s.tasks[op].kind == L1 ==> s.phase == InL1 && |s.tasks| == 1
    ensures s.tasks[op].kind == L2 ==> s.phase == InL2
    ensures s.tasks[op].kind == Hop ==> s.phase == Running
  {
    hide BuildSustain;
  }

  /** Applying a transaction under a stage, with its record removed. */
  lemma SpendStaged(d: Durable, d': Durable, tx: Tx)
    requires RecordsStaged(d) && d'.stage == d.stage && d.stage != Some(L1Done)
    requires d'.pending == d.pending - {IdOf(tx)}
    ensures RecordsStaged(d') && Replayables(d') == Replayables(d) - {IdOf(tx)}
  {
    assert Replayables(d') == Replayables(d) - {IdOf(tx)};
  }

  lemma AttemptIsSound(s: State, op: OutPoint)
    requires WellBuilt(s) && op in s.tasks
    requires s.tasks[op].Trying? || s.tasks[op].Saved? || s.tasks[op].ToCommit? || s.tasks[op].ToClear?
    ensures Sound(s.tasks[op].kind, s.tasks[op].tx)
  {
    hide SoundIn, SoundRecordIn, SoundSpend;
    assert AttemptOf(s.tasks[op], s.tasks[op].kind);
  }

  lemma AttemptPhase(s: State, op: OutPoint)
    requires Inv(s) && op in s.tasks
    requires s.tasks[op].Trying? || s.tasks[op].Saved? || s.tasks[op].ToCommit? || s.tasks[op].ToClear?
    ensures s.phase != Down && s.toMark.None?
    ensures s.tasks[op].kind == L1 ==> s.phase == InL1 && |s.tasks| == 1
    ensures s.tasks[op].kind == L2 ==> s.phase == InL2
    ensures s.tasks[op].kind == Hop ==> s.phase == Running
  {
    hide Mirror, WriteAhead, RecordsOwned, SentOwned, TasksFitPhase;
    UpHas(s, op);
    KindOfPhase(s, op);
  }

  lemma CommitStaged(s: State, op: OutPoint)
    requires Inv(s) && WellBuilt(s) && Staged(s) && op in s.tasks && s.tasks[op].ToCommit?
    ensures Staged(DoCommit(s, op, true))
  {
    hide Inv, WellBuilt, Created, Born, RecordsStaged, Replayables, CommitPending, NewTasks, Mirror, SoundIn, Spendable;
    var kind, tx := s.tasks[op].kind, s.tasks[op].tx;
    AttemptPhase(s, op);
    CommitEffect(s, op);
    if s.h.metaOk { SpendStaged(s.d, DoCommit(s, op, true).d, tx); }
    if kind == L1 {
      AttemptIsSound(s, op);
      OutputsExist(kind, tx);
    }
  }

  lemma ReplayStaged(s: State, key: TxId)
    requires Inv(s) && WellBuilt(s) && Staged(s) && s.phase == Down && s.toMark.None? && key in Replayables(s.d)
    ensures Faithful(key, Decode(key, s.d.pending[key])) && Staged(DoReplayCommit(s, key))
  {
    hide Inv, WellBuilt, ReplayOne, SoundIn, Spendable;
    RecordFacts(s, key);
    var p := Decode(key, s.d.pending[key]);
    ReplayOneIsSpend(s.d, key);
    if s.h.metaOk {
      SpendStaged(s.d, ReplayOne(s.d, key), TxOf(key, p));
      hide RecordsStaged;
      if p.stage == Some(L1Done) {
        LastRecordInL1(s.d, key);
        OutputsExist(L1, TxOf(key, p));
      }
    }
  }

  lemma RecordFacts(s: State, key: TxId)
    requires Inv(s) && WellBuilt(s) && key in Replayables(s.d)
    ensures WriteAhead(s.d) && Faithful(key, Decode(key, s.d.pending[key])) &&
      SoundRecord(key, Decode(key, s.d.pending[key]))
  {
    hide Mirror, SentOwned, RecordsOwned, TasksFitPhase, Tracked, SoundRecordIn, SoundIn, SoundSpend;
  }

  lemma LastRecordInL1(d: Durable, key: TxId)
    requires RecordsStaged(d) && key in Replayables(d) && Decode(key, d.pending[key]).stage == Some(L1Done)
    ensures Replayables(d) == {key}
  {
  }

  lemma MarkStaged(s: State, wrote: bool)
    requires Staged(s) && s.toMark.Some? && s.phase == Down
    ensures Staged(SetMeta(s, s.toMark.value, wrote).(toMark := None))
  {
    var s' := SetMeta(s, s.toMark.value, wrote).(toMark := None);
    assert Replayables(s'.d) == Replayables(s.d);
  }

  lemma ClearStaged(s: State, op: OutPoint, cleared: bool, retry: bool)
    requires Staged(s) && op in s.tasks && s.tasks[op].ToClear? && s.phase != Down && s.toMark.None?
    ensures Staged(DoClear(s, op, cleared, retry))
  {
    hide Staged, SameStaging;
    var s1 := if cleared then s.(d := ClearPending(s.d, IdOf(s.tasks[op].tx))) else s;
    ClearedStaged(s, IdOf(s.tasks[op].tx));
    ClearStaging(s1, op, retry);
    assert DoClear(s, op, cleared, retry) == DoClear(s1, op, false, retry);
    SameStagingStaged(s1, DoClear(s1, op, false, retry));
  }

  lemma ClearedStaged(s: State, key: TxId)
    requires Staged(s) && s.phase != Down && s.toMark.None?
    ensures Staged(s.(d := ClearPending(s.d, key)))
  {
    assert Replayables(ClearPending(s.d, key)) == Replayables(s.d) - {key};
  }

  lemma ClearStaging(s: State, op: OutPoint, retry: bool)
    requires op in s.tasks && s.tasks[op].ToClear?
    ensures SameStaging(s, DoClear(s, op, false, retry))
  {
  }

  /** Stage, records, phase and emptiness are as before, or the run has ended. */
  ghost predicate SameStaging(s: State, s': State) {
    && s'.d == s.d && s'.toMark == s.toMark && s'.h.metaOk == s.h.metaOk && s'.mem == s.mem
    && (s'.phase == s.phase || s'.phase == Halted)
  }

  lemma SameStagingStaged(s: State, s': State)
    requires Staged(s) && SameStaging(s, s') && s.phase != Down
    ensures Staged(s')
  {
  }

  lemma LocalStaging(s: State, op: OutPoint)
    requires op in s.tasks
    ensures s.tasks[op].Parent? ==> SameStaging(s, DoBuildL2(s, op))
    ensures s.tasks[op].ChainTop? ==> SameStaging(s, DoBuildHop(s, op))
    ensures SameStaging(s, Drop(s, op)) && forall kind :: SameStaging(s, GiveUp(s, op, kind))
    ensures s.tasks[op].Saved? ==> forall accepted :: SameStaging(s, DoReply(s, op, accepted))
  {
    hide BuildFanout, BuildSustain;
  }

  /** Writing a stage while no record is pending. */
  lemma QuietMetaStaged(s: State, stage: Stage, wrote: bool, phase: Phase)
    requires Staged(s) && Replayables(s.d) == {} && s.toMark.None?
    requires stage == L1Done ==> s.d.utxos != map[]
    requires PhaseStaged(SetMeta(s, stage, true).(phase := phase))
    ensures Staged(SetMeta(s, stage, wrote).(phase := phase))
  {
    assert Replayables(SetMeta(s, stage, wrote).d) == {};
  }

  lemma BeginL1Staged(s: State, op: OutPoint, wrote: bool)
    requires Staged(s) && op in s.tasks && Replayables(s.d) == {} && s.toMark.None? && s.phase == Idle
    ensures Staged(BeginL1(s, op, wrote))
  {
    hide BuildFanout, L1Count;
    QuietMetaStaged(s, StageNone, wrote, InL1);
    QuietMetaStaged(s, StageNone, wrote, Halted);
    hide Staged;
    SameDurableStaged(SetMeta(s, StageNone, wrote).(phase := BeginL1(s, op, wrote).phase), BeginL1(s, op, wrote));
  }

  lemma BeginL2Staged(s: State, order: seq<OutPoint>, wrote: bool)
    requires Staged(s) && s.cfg.Valid() && IsOrder(order, s.tasks.Keys) && Replayables(s.d) == {} && s.toMark.None?
    ensures Staged(BeginL2(s, order, wrote))
  {
    hide Parents, IsOrder;
    QuietMetaStaged(s, L2Partial, wrote, InL2);
    QuietMetaStaged(s, L2Partial, wrote, Halted);
    hide Staged;
    SameDurableStaged(SetMeta(s, L2Partial, wrote).(phase := BeginL2(s, order, wrote).phase), BeginL2(s, order, wrote));
  }

  lemma SameDurableStaged(s: State, s': State)
    requires Staged(s) && s'.d == s.d && s'.toMark == s.toMark && s'.h.metaOk == s.h.metaOk && s'.mem == s.mem &&
      s'.phase == s.phase
    ensures Staged(s')
  {
  }

  lemma BootstrapStaged(s: State, order: seq<OutPoint>, wrote: bool)
    requires Staged(s) && s.cfg.Valid() && IsOrder(order, s.tasks.Keys) && Replayables(s.d) == {} && s.toMark.None? &&
      s.phase == Idle
    ensures Staged(Bootstrap(s, order, wrote))
  {
    ResumeStaged(s, wrote);
    hide Staged, BeginL1, BeginL2, L1Count, Resume, Halt, Replayables;
    BeginL2Staged(s, order, wrote);
    if |order| == 1 { BeginL1Staged(s, order[0], wrote); }
  }

  lemma ResumeStaged(s: State, wrote: bool)
    requires Staged(s) && Replayables(s.d) == {} && s.toMark.None? && s.phase == Idle
    ensures Staged(Resume(s, true, wrote)) && Staged(Halt(s))
    ensures s.mem == L2Done ==> Staged(Resume(s, false, wrote))
  {
    QuietMetaStaged(s, L2Done, wrote, Running);
  }

  lemma FinishStaged(s: State, wrote: bool)
    requires Inv(s) && Staged(s) && Enabled(s, FinishL2(wrote))
    ensures Staged(Do(s, FinishL2(wrote)))
  {
    hide Inv, ProducedCount, Requeue, RecordsStaged;
    UpHasNothingToMark(s);
    var s' := Do(s, FinishL2(wrote));
    if s.h.metaOk && wrote {
      if !s.failed { NoFailureNoRecord(s); }
      if s'.phase == Running { QuietStaged(s.d, s'.d); } else { SameRecordsStaged(s.d, s'.d); }
    }
  }

  lemma QuietStaged(d: Durable, d': Durable)
    requires Replayables(d) == {} && d'.pending == d.pending && d'.stage != Some(L1Done)
    ensures RecordsStaged(d')
  {
    assert Replayables(d') == {};
  }

  lemma SameRecordsStaged(d: Durable, d': Durable)
    requires d'.pending == d.pending && d'.stage == d.stage && d'.utxos == d.utxos
    ensures RecordsStaged(d) ==> RecordsStaged(d')
  {
  }

  lemma UpHasNothingToMark(s: State)
    requires Inv(s) && s.phase != Down
    ensures s.toMark.None?
  {
    hide Mirror, WriteAhead, RecordsOwned, SentOwned, TasksFitPhase;
  }

  lemma UpHas(s: State, op: OutPoint)
    requires Inv(s) && op in s.tasks
    ensures s.phase != Down && s.toMark.None?
  {
    hide Mirror, WriteAhead, RecordsOwned, SentOwned, TasksFitPhase;
    NotDown(s, op);
  }

  /** Once every fanout has ended without a failure, no record is left. */
  lemma NoFailureNoRecord(s: State)
    requires Inv(s) && s.phase == InL2 && !s.failed && forall op :: op in s.tasks ==> !s.tasks[op].Active()
    ensures Replayables(s.d) == {}
  {
    hide Mirror, WriteAhead, Tracked, SentOwned;
  }

  lemma StagedStep(s: State, a: Action)
    requires Inv(s) && WellBuilt(s) && Staged(s) && Enabled(s, a)
    ensures Staged(Do(s, a))
  {
    hide Inv, WellBuilt, Staged, Bootstrap, BeginL2, DoBuildL2, DoBuildHop, Drop, GiveUp, DoReply, DoSave, DoCommit,
         DoClear, DoReplayCommit, DoBoot, IsOrder, ProducedCount, Replayables, SameStaging;
    match a {
      case Save(op, ok, now) => if ok { SaveStaged(s, op, now); } else { LocalStep(s, a); }
      case Commit(op, ok) => if ok { CommitStaged(s, op); } else { LocalStep(s, a); }
      case Clear(op, cleared, retry) => UpHas(s, op); ClearStaged(s, op, cleared, retry);
      case ReplayCommit(key) => ReplayStaged(s, key);
      case ReplayMark(wrote) => MarkStaged(s, wrote);
      case BuildL2(_) => LocalStep(s, a);
      case BuildHop(_) => LocalStep(s, a);
      case Panic(_) => LocalStep(s, a);
      case Reply(_, _) => LocalStep(s, a);
      case FinishL2(wrote) => FinishStaged(s, wrote);
      case Dispatch(order, wrote) =>
        IdleIsQuiet(s);
        SameDurableStaged(s, s.(locked := true));
        BootstrapStaged(s.(locked := true), order, wrote);
      case StartL2(order, wrote) => IdleIsQuiet(s); BeginL2Staged(s, order, wrote);
      case _ => RestStaged(s, a);
    }
  }

  lemma IdleIsQuiet(s: State)
    requires Inv(s) && (s.phase == Idle || s.phase == L1Marked || s.phase == L1Committed)
    ensures Replayables(s.d) == {} && s.toMark.None?
  {
  }

  lemma LocalStep(s: State, a: Action)
    requires Inv(s) && Staged(s) && Enabled(s, a) && IsMove(a) && !a.PopChain?
    ensures Staged(Do(s, a))
  {
    hide Mirror, WriteAhead, RecordsOwned, SentOwned, TasksFitPhase, Staged, SameStaging, DoBuildL2, DoBuildHop, Drop,
         GiveUp, DoReply, Replayables;
    NotDown(s, a.op);
    LocalStaging(s, a.op);
    SameStagingStaged(s, Do(s, a));
  }

  lemma RestStaged(s: State, a: Action)
    requires Inv(s) && Staged(s) && Enabled(s, a)
    requires a.Fund? || a.Configure? || a.MarkL1? || a.PopChain? || a.Deliver? || a.Crash? || a.Garble? || a.Boot?
    ensures Staged(Do(s, a))
  {
    hide Inv, Staged, DoBoot, Replayables, SameStaging;
    match a {
      case Boot(cfg, wrote) => BootStaged(s, cfg, wrote);
      case Fund(us) => IdleIsQuiet(s); FundStaged(s, Do(s, a));
      case MarkL1(wrote) => IdleIsQuiet(s); MarkL1Staged(s, wrote);
      case Crash => CrashStaged(s);
      case Garble(key, stored) => GarbleStaged(s, key, stored);
      case Configure(_) => OtherStaging(s, a); SameDurableStaged(s, Do(s, a));
      case PopChain(_) => OtherStaging(s, a); SameDurableStaged(s, Do(s, a));
      case Deliver(_) => OtherStaging(s, a); SameDurableStaged(s, Do(s, a));
    }
  }

  lemma OtherStaging(s: State, a: Action)
    requires Enabled(s, a) && (a.Configure? || a.PopChain? || a.Deliver?)
    ensures var s' := Do(s, a);
      s'.d == s.d && s'.toMark == s.toMark && s'.h.metaOk == s.h.metaOk && s'.mem == s.mem && s'.phase == s.phase
  {
    hide Replayables;
  }

  lemma BootStaged(s: State, cfg: Config, wrote: bool)
    requires Staged(s) && s.phase == Down && s.toMark.None? && Replayables(s.d) == {}
    ensures Staged(DoBoot(s, cfg, wrote))
  {
    assert Replayables(DoBoot(s, cfg, wrote).d) == {};
  }

  lemma FundStaged(s: State, s': State)
    requires Staged(s) && Replayables(s.d) == {} && s.d.utxos == map[] && s.phase == Idle && s.toMark.None?
    requires s'.d == s.d.(utxos := s'.d.utxos) && s'.phase == Idle && s'.mem == s.mem && s'.toMark.None? &&
      s'.h.metaOk == s.h.metaOk
    ensures Staged(s')
  {
    assert Replayables(s'.d) == {};
  }

  lemma MarkL1Staged(s: State, wrote: bool)
    requires Staged(s) && s.phase == L1Committed && Replayables(s.d) == {} && s.toMark.None?
    ensures Staged(SetMeta(s, L1Done, wrote).(phase := L1Marked))
  {
    assert Replayables(SetMeta(s, L1Done, wrote).d) == {};
  }

  lemma CrashStaged(s: State)
    requires Staged(s)
    ensures Staged(Do(s, Crash))
  {
  }

  lemma GarbleStaged(s: State, key: TxId, stored: Stored)
    requires Staged(s) && Enabled(s, Garble(key, stored))
    ensures Staged(Do(s, Garble(key, stored)))
  {
    GarbledRecord(s.d, Do(s, Garble(key, stored)).d, key, stored);
  }

  lemma {:induction false} RunKeepsStaged(states: seq<State>, actions: seq<Action>, i: nat)
    requires IsRun(states, actions) && i < |states|
    ensures Staged(states[i])
  {
    hide Enabled, Do, Inv, WellBuilt;
    if i > 0 {
      hide Init, Staged;
      RunKeepsStaged(states, actions, i - 1);
      RunKeepsInv(states, actions, i - 1);
      RunKeepsBuilt(states, actions, i - 1);
      StagedStep(states[i - 1], actions[i - 1]);
    }
  }

  /**
   In every state of a run whose stage writes succeed, all replayable records
   carry one and the same stage: replay order decides neither the UTXOs nor the
   stage.
   */
  lemma RecordsShareOneStage(states: seq<State>, actions: seq<Action>, i: nat, key: TxId, key': TxId)
    requires IsRun(states, actions) && i < |states| && states[i].h.metaOk
    requires key in Replayables(states[i].d) && key' in Replayables(states[i].d)
    ensures Decode(key, states[i].d.pending[key]).stage == Decode(key', states[i].d.pending[key']).stage
    ensures Decode(key, states[i].d.pending[key]).stage.Some?
  {
    hide IsRun, Replayables;
    RunKeepsStaged(states, actions, i);
  }
}
