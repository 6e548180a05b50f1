/**
 With one number of chains and one fanout size throughout, every L2 fanout
 starts from exactly ceilDiv(numChains, fanoutSize) parents: the L1 transaction
 has that many outputs, on record, in flight and in the store, through crashes
 and replays.
 */
module L1Sizes {
  import opened Outcomes
  import opened Ledger
  import opened Stages
  import opened StoreSpec
  import opened TxBuilder
  import opened Replay
  import opened Widths
  import opened Engine
  import opened Safety
  import opened SafetySteps
  import opened Built
  import opened StageOrder
  import opened Progress
  import opened ProgressSteps

  /** What the store holds of the L1 fanout. */
  ghost predicate StoreSized(d: Durable, l1: int) {
    && (d.stage == Some(L1Done) ==> |d.utxos| == l1)
    && (d.stage == Some(StageNone) ==>
         forall key :: key in Replayables(d) ==> |d.utxos| == 1 && key.Spend? && |key.outs| == l1)
  }

  /** What the process holds of it. */
  ghost predicate PhaseSized(s: State, numChains: int, l1: int) {
    && (s.phase == L1Committed || s.phase == L1Marked || s.toMark == Some(L1Done) ==> |s.d.utxos| == l1)
    && (s.phase == InL1 ==> forall op :: op in s.tasks && AttemptOf(s.tasks[op], L1) ==> |s.tasks[op].tx.outs| == l1)
    && (InEpoch(s) ==> |s.h.parents| == l1 && s.h.chains == numChains)
  }

  ghost predicate Sized(s: State, numChains: int, l1: int) {
    s.h.metaOk ==> StoreSized(s.d, l1) && PhaseSized(s, numChains, l1)
  }

  /** The parameters that a fanout is sized by. */
  predicate Uses(cfg: Config, numChains: int, fanoutSize: int) {
    cfg.numChains == numChains && cfg.fanoutSize == fanoutSize
  }

  /** Same UTXOs, stage and fanout, no new record, no new attempt, and no step into a later phase. */
  ghost predicate SameSizes(s: State, s': State) {
    && s'.d.utxos == s.d.utxos && s'.d.stage == s.d.stage && Replayables(s'.d) <= Replayables(s.d)
    && s'.h.metaOk == s.h.metaOk && s'.h.parents == s.h.parents && s'.h.chains == s.h.chains
    && (s'.toMark == s.toMark || s'.toMark.None?)
    && (s'.phase == s.phase || s'.phase == Halted || s'.phase == Down)
    && (s'.phase == InL1 ==> forall op :: op in s'.tasks && AttemptOf(s'.tasks[op], L1) ==>
         op in s.tasks && AttemptOf(s.tasks[op], L1) && s'.tasks[op].tx == s.tasks[op].tx)
  }

  lemma SameSizesKeep(s: State, s': State, n: int, l1: int)
    requires Sized(s, n, l1) && SameSizes(s, s')
    ensures Sized(s', n, l1)
  {
    hide Replayables;
  }

  // ------------------------------------------------------------- steps of one task

  lemma OneTaskSizes(s: State, s': State, op: OutPoint, t: Task)
    requires op in s.tasks && s'.tasks == s.tasks[op := t] && s'.d == s.d && s'.toMark == s.toMark
    requires s'.h.metaOk == s.h.metaOk && s'.h.parents == s.h.parents && s'.h.chains == s.h.chains
    requires s'.phase == s.phase || s'.phase == Halted
    requires AttemptOf(t, L1) ==> AttemptOf(s.tasks[op], L1) && t.tx == s.tasks[op].tx
    ensures SameSizes(s, s')
  {
    hide Replayables;
  }

  lemma EndSizes(s: State, op: OutPoint)
    requires op in s.tasks
    ensures SameSizes(s, Drop(s, op)) && forall kind :: SameSizes(s, GiveUp(s, op, kind))
  {
    hide SameSizes;
    OneTaskSizes(s, Drop(s, op), op, Drop(s, op).tasks[op]);
    forall kind ensures SameSizes(s, GiveUp(s, op, kind)) {
      OneTaskSizes(s, GiveUp(s, op, kind), op, GiveUp(s, op, kind).tasks[op]);
    }
  }

  lemma BuildSizes(s: State, op: OutPoint)
    requires op in s.tasks
    ensures s.tasks[op].Parent? ==> SameSizes(s, DoBuildL2(s, op))
    ensures s.tasks[op].ChainTop? ==> SameSizes(s, DoBuildHop(s, op))
    ensures s.tasks[op].Saved? ==> forall accepted :: SameSizes(s, DoReply(s, op, accepted))
  {
    hide SameSizes, BuildFanout, BuildSustain;
    if s.tasks[op].Parent? { OneTaskSizes(s, DoBuildL2(s, op), op, DoBuildL2(s, op).tasks[op]); }
    if s.tasks[op].ChainTop? {
      assert s.tasks[op := s.tasks[op]] == s.tasks;
      OneTaskSizes(s, DoBuildHop(s, op), op, DoBuildHop(s, op).tasks[op]);
    }
    if s.tasks[op].Saved? {
      forall accepted ensures SameSizes(s, DoReply(s, op, accepted)) {
        OneTaskSizes(s, DoReply(s, op, accepted), op, DoReply(s, op, accepted).tasks[op]);
      }
    }
  }

  lemma ClearSizes(s: State, op: OutPoint, cleared: bool, retry: bool)
    requires op in s.tasks && s.tasks[op].ToClear?
    ensures SameSizes(s, DoClear(s, op, cleared, retry))
  {
    hide SameSizes, GiveUp;
    var s1 := s.(d := if cleared then ClearPending(s.d, IdOf(s.tasks[op].tx)) else s.d);
    var s' := DoClear(s, op, cleared, retry);
    ClearedSizes(s, s1, IdOf(s.tasks[op].tx));
    EndSizes(s1, op);
    if retry { OneTaskSizes(s1, s', op, s'.tasks[op]); }
    SizesThrough(s, s1, s');
  }

  lemma ClearedSizes(s: State, s1: State, key: TxId)
    requires s1 == s || s1 == s.(d := ClearPending(s.d, key))
    ensures SameSizes(s, s1) && s1.phase == s.phase && s1.toMark == s.toMark
  {
    assert Replayables(ClearPending(s.d, key)) <= Replayables(s.d);
  }

  lemma SizesThrough(s: State, s1: State, s': State)
    requires SameSizes(s, s1) && SameSizes(s1, s') && s1.phase == s.phase
    ensures SameSizes(s, s')
  {
    hide Replayables;
  }

  /** A state whose stage and phase are past the L1 fanout. */
  predicate PastL1(s: State) {
    && s.toMark != Some(L1Done) && s.phase != InL1 && s.phase != L1Committed && s.phase != L1Marked
    && s.d.stage != Some(L1Done) && s.d.stage != Some(StageNone)
  }

  lemma PastL1Sized(s: State, s': State, n: int, l1: int)
    requires Sized(s, n, l1) && PastL1(s') && (s'.h.metaOk ==> s.h.metaOk)
    requires InEpoch(s') ==> InEpoch(s) && s'.h.parents == s.h.parents && s'.h.chains == s.h.chains
    ensures Sized(s', n, l1) || !s'.h.metaOk
  {
    hide Replayables;
  }

  // -------------------------------------------------------------- the L1 fanout

  lemma L1Alone(s: State, op: OutPoint)
    requires Inv(s) && s.phase == InL1 && op in s.tasks
    ensures |s.d.utxos| == 1
  {
    hide Mirror, WriteAhead, RecordsOwned, SentOwned;
    assert |s.tasks.Keys| == |s.d.utxos.Keys|;
  }

  lemma SaveSized(s: State, op: OutPoint, now: nat, n: int, l1: int)
    requires Inv(s) && Staged(s) && Sized(s, n, l1) && op in s.tasks && s.tasks[op].Trying?
    ensures Sized(DoSave(s, op, true, now), n, l1)
  {
    hide Inv, Replayables, RecordsStaged, ToMarkStaged, RecordOf;
    var s', tx := DoSave(s, op, true, now), s.tasks[op].tx;
    AttemptPhase(s, op);
    HeldKey(s, op);
    SavedRecord(s.d, tx, StageOf(s.tasks[op].kind), now);
    if s.h.metaOk && s.phase == InL1 { L1Alone(s, op); }
  }

  lemma CommittedSize(s: State, op: OutPoint)
    requires Inv(s) && WellBuilt(s) && op in s.tasks && s.tasks[op].ToCommit? && s.tasks[op].kind == L1
    ensures |DoCommit(s, op, true).d.utxos| == |s.tasks[op].tx.outs| && Replayables(DoCommit(s, op, true).d) == {}
  {
    hide Inv, WellBuilt, Mirror, Born, Spendable, CommitPending, NewTasks, Replayables;
    CommitEffect(s, op);
    AttemptPhase(s, op);
    AttemptIsSound(s, op);
    L1Alone(s, op);
    SizeAfterSpend(s.d.utxos, s.tasks[op].tx);
    NoOtherRecordInL1(s, op);
  }

  lemma CommitSized(s: State, op: OutPoint, n: int, l1: int)
    requires Inv(s) && WellBuilt(s) && Staged(s) && Sized(s, n, l1) && op in s.tasks && s.tasks[op].ToCommit?
    ensures Sized(DoCommit(s, op, true), n, l1)
  {
    hide Inv, WellBuilt, Staged, Sized, CommitPending, NewTasks, Replayables, Mirror, Born, Spendable;
    var s' := DoCommit(s, op, true);
    AttemptPhase(s, op);
    CommitEffect(s, op);
    if s.tasks[op].kind == L1 {
      CommittedSize(s, op);
      L1CommitSized(s, s', op, n, l1);
    } else {
      if s.h.metaOk { AttemptStage(s, op); PastL1Sized(s, s', n, l1); } else { NothingClaimed(s', n, l1); }
    }
  }

  lemma L1CommitSized(s: State, s': State, op: OutPoint, n: int, l1: int)
    requires Staged(s) && Sized(s, n, l1) && s.phase == InL1 && op in s.tasks && AttemptOf(s.tasks[op], L1)
    requires s'.phase == L1Committed && s'.d.stage == s.d.stage && s'.toMark.None? && s'.h.metaOk == s.h.metaOk
    requires |s'.d.utxos| == |s.tasks[op].tx.outs| && Replayables(s'.d) == {}
    ensures Sized(s', n, l1)
  {
    hide Replayables, RecordsStaged, ToMarkStaged;
  }

  lemma AttemptStage(s: State, op: OutPoint)
    requires Staged(s) && s.h.metaOk && (s.phase == InL2 || s.phase == Running)
    ensures s.d.stage == Some(L2Partial) || s.d.stage == Some(L2Done)
  {
    hide RecordsStaged, ToMarkStaged;
  }

  /** Once a stage write has failed nothing is claimed any more. */
  lemma NothingClaimed(s: State, n: int, l1: int)
    requires !s.h.metaOk
    ensures Sized(s, n, l1)
  {
  }

  lemma ReplayedSize(s: State, key: TxId)
    requires Inv(s) && WellBuilt(s) && Staged(s) && s.h.metaOk && key in Replayables(s.d)
    requires s.d.stage == Some(StageNone) && |s.d.utxos| == 1
    ensures |ReplayOne(s.d, key).utxos| == |key.outs| && Replayables(ReplayOne(s.d, key)) == {}
  {
    hide Inv, WellBuilt, Spendable, SoundIn, ReplayOne, PhaseStaged, ToMarkStaged;
    RecordFacts(s, key);
    var tx := TxOf(key, Decode(key, s.d.pending[key]));
    ReplayOneIsSpend(s.d, key);
    LastRecordInL1(s.d, key);
    RecordSpends(s, key);
    SizeAfterSpend(s.d.utxos, tx);
  }

  lemma RecordSpends(s: State, key: TxId)
    requires Inv(s) && WellBuilt(s) && key in Replayables(s.d) && Decode(key, s.d.pending[key]).stage == Some(L1Done)
    ensures WriteAhead(s.d) && Faithful(key, Decode(key, s.d.pending[key]))
    ensures var tx := TxOf(key, Decode(key, s.d.pending[key]));
      && tx.input.op in s.d.utxos && (forall x :: x in Spendable(tx) ==> x !in s.d.utxos)
      && (forall i :: 0 <= i < |tx.outs| ==> tx.outs[i] > 0)
  {
    hide Mirror, RecordsOwned, SentOwned, TasksFitPhase, Tracked;
    assert SoundRecord(key, Decode(key, s.d.pending[key]));
  }

  lemma ReplaySized(s: State, key: TxId, n: int, l1: int)
    requires Inv(s) && WellBuilt(s) && Staged(s) && Sized(s, n, l1) && s.phase == Down && key in Replayables(s.d)
    requires Faithful(key, Decode(key, s.d.pending[key]))
    ensures Sized(DoReplayCommit(s, key), n, l1)
  {
    assert key in s.d.pending;
    hide Inv, WellBuilt, Staged, Sized, ReplayOne, Spendable, Replayables, Decode;
    RecordFacts(s, key);
    hide Faithful, SoundRecordIn, WriteAhead;
    ReplayOneIsSpend(s.d, key);
    var s' := DoReplayCommit(s, key);
    if !s.h.metaOk {
      NothingClaimed(s', n, l1);
    } else {
      RecordStage(s, key);
      if s.d.stage == Some(StageNone) {
        RecordSized(s, key, n, l1);
        ReplayedSize(s, key);
        ReplayedSized(s', n, l1);
      } else {
        PastL1Sized(s, s', n, l1);
      }
    }
  }

  lemma RecordStage(s: State, key: TxId)
    requires Staged(s) && s.h.metaOk && key in Replayables(s.d)
    ensures s.d.stage != Some(L1Done) &&
      (s.d.stage != Some(StageNone) ==> Decode(key, s.d.pending[key]).stage != Some(L1Done))
  {
    hide PhaseStaged, ToMarkStaged;
  }

  lemma RecordSized(s: State, key: TxId, n: int, l1: int)
    requires Sized(s, n, l1) && s.h.metaOk && key in Replayables(s.d) && s.d.stage == Some(StageNone)
    ensures |s.d.utxos| == 1 && key.Spend? && |key.outs| == l1
  {
    hide Replayables, PhaseSized;
  }

  lemma ReplayedSized(s: State, n: int, l1: int)
    requires s.phase == Down && s.d.stage == Some(StageNone) && Replayables(s.d) == {} && |s.d.utxos| == l1
    ensures Sized(s, n, l1)
  {
    hide Replayables;
  }

  // ------------------------------------------------------- launches and restarts

  lemma QueueSize(s: State, order: seq<OutPoint>)
    requires Inv(s) && s.phase != Down && IsOrder(order, s.tasks.Keys)
    ensures |order| == |s.d.utxos|
  {
    hide Mirror, WriteAhead, RecordsOwned, SentOwned, TasksFitPhase;
    assert |s.tasks.Keys| == |s.d.utxos.Keys|;
  }

  lemma BeginL2Sized(s: State, order: seq<OutPoint>, wrote: bool, n: int, l1: int)
    requires s.cfg.Valid() && IsOrder(order, s.tasks.Keys) && |order| == l1 && s.cfg.numChains == n && s.toMark.None?
    ensures Sized(BeginL2(s, order, wrote), n, l1)
  {
    hide IsOrder, Parents, L2Widths, Replayables;
  }

  lemma BeginL1Sized(s: State, op: OutPoint, wrote: bool, n: int, l1: int)
    requires op in s.tasks && l1 == L1Count(s.cfg) && s.toMark.None? && Replayables(s.d) == {}
    requires forall x :: x in s.tasks ==> s.tasks[x].Queued?
    ensures Sized(BeginL1(s, op, wrote), n, l1)
  {
    hide BuildFanout, L1Count, SoundIn;
    var s' := BeginL1(s, op, wrote);
    assert Replayables(s'.d) == {};
    if s'.phase == InL1 { FanoutIsSound(s.tasks[op].Held(), L1Count(s.cfg), s.cfg.mode, L1); }
  }

  lemma ResumeSized(s: State, mark: bool, wrote: bool, n: int, l1: int)
    requires Sized(s, n, l1) && s.phase == Idle && s.toMark.None?
    ensures Sized(Halt(s), n, l1) && Sized(Resume(s, true, wrote), n, l1)
    ensures s.mem == L2Done && (s.h.metaOk ==> s.d.stage == Some(L2Done)) ==> Sized(Resume(s, false, wrote), n, l1)
  {
    hide Replayables;
  }

  lemma BootstrapSized(s: State, order: seq<OutPoint>, wrote: bool, n: int, l1: int)
    requires Inv(s) && Staged(s) && Sized(s, n, l1) && s.phase == Idle && s.cfg.Valid() && IsOrder(order, s.tasks.Keys)
    requires s.cfg.numChains == n && l1 == L1Count(s.cfg)
    ensures Sized(Bootstrap(s, order, wrote), n, l1)
  {
    hide Inv, Sized, BeginL1, BeginL2, Resume, Halt, L1Count, Replayables, IsOrder;
    IdleIsQuiet(s);
    QueueSize(s, order);
    if s.h.metaOk { IdleStage(s, n, l1); }
    ResumeSized(s, true, wrote, n, l1);
    if |order| == l1 { BeginL2Sized(s, order, wrote, n, l1); }
    if |order| == 1 {
      IdleQueued(s);
      OrderCovers(order, s.tasks.Keys);
      assert order[0] in order;
      BeginL1Sized(s, order[0], wrote, n, l1);
    }
    if !s.h.metaOk {
      StaysFailed(s, order, wrote);
      NothingClaimed(BeginL2(s, order, wrote), n, l1);
      NothingClaimed(Resume(s, false, wrote), n, l1);
    }
  }

  lemma IdleQueued(s: State)
    requires Inv(s) && s.phase == Idle
    ensures AllQueued(s)
  {
    hide Mirror, WriteAhead, RecordsOwned, SentOwned, Replayables;
  }

  lemma IdleStage(s: State, n: int, l1: int)
    requires Staged(s) && Sized(s, n, l1) && s.phase == Idle && s.h.metaOk
    ensures s.mem == L1Done ==> |s.d.utxos| == l1
    ensures s.mem == L2Done ==> s.d.stage == Some(L2Done)
  {
    hide Replayables;
  }

  lemma DispatchSized(s: State, order: seq<OutPoint>, wrote: bool, n: int, l1: int)
    requires Inv(s) && Staged(s) && Sized(s, n, l1) && Enabled(s, Dispatch(order, wrote))
    requires s.cfg.numChains == n && l1 == L1Count(s.cfg)
    ensures Sized(Do(s, Dispatch(order, wrote)), n, l1)
  {
    hide Inv, Bootstrap, L1Count, Replayables, IsOrder;
    LockKeepsInv(s);
    SameDurableStaged(s, s.(locked := true));
    BootstrapSized(s.(locked := true), order, wrote, n, l1);
  }

  lemma StartL2Sized(s: State, order: seq<OutPoint>, wrote: bool, n: int, l1: int)
    requires Inv(s) && Sized(s, n, l1) && Enabled(s, StartL2(order, wrote)) && s.cfg.numChains == n
    ensures Sized(Do(s, StartL2(order, wrote)), n, l1)
  {
    hide Inv, Replayables, IsOrder, BeginL2;
    IdleIsQuiet(s);
    QueueSize(s, order);
    if s.h.metaOk {
      BeginL2Sized(s, order, wrote, n, l1);
    } else {
      StaysFailed(s, order, wrote);
      NothingClaimed(BeginL2(s, order, wrote), n, l1);
    }
  }

  lemma StaysFailed(s: State, order: seq<OutPoint>, wrote: bool)
    requires !s.h.metaOk && s.cfg.Valid() && IsOrder(order, s.tasks.Keys)
    ensures !BeginL2(s, order, wrote).h.metaOk && !Resume(s, false, wrote).h.metaOk
  {
    hide IsOrder, Parents, L2Widths;
  }

  lemma MarkL1Sized(s: State, wrote: bool, n: int, l1: int)
    requires Inv(s) && Sized(s, n, l1) && s.phase == L1Committed
    ensures Sized(Do(s, MarkL1(wrote)), n, l1)
  {
    hide Inv, Replayables;
    IdleIsQuiet(s);
  }

  lemma ReplayMarkSized(s: State, wrote: bool, n: int, l1: int)
    requires Staged(s) && Sized(s, n, l1) && Enabled(s, ReplayMark(wrote))
    ensures Sized(Do(s, ReplayMark(wrote)), n, l1)
  {
    hide RecordsStaged, PhaseStaged;
    assert Replayables(Do(s, ReplayMark(wrote)).d) == Replayables(s.d);
    hide Replayables;
  }

  lemma FinishSized(s: State, wrote: bool, n: int, l1: int)
    requires Sized(s, n, l1) && Enabled(s, FinishL2(wrote)) && s.toMark.None?
    ensures Sized(Do(s, FinishL2(wrote)), n, l1)
  {
    hide Sized, SetMeta, ProducedCount, Requeue;
    var s1 := s.(tasks := Requeue(s.tasks));
    FinishedSized(s, s1, L2Partial, Halted, wrote, n, l1);
    FinishedSized(s, s1, L2Done, Running, wrote, n, l1);
  }

  lemma FinishedSized(s: State, s1: State, stage: Stage, phase: Phase, wrote: bool, n: int, l1: int)
    requires Sized(s, n, l1) && s.phase == InL2 && s.toMark.None? && s1 == s.(tasks := s1.tasks)
    requires (stage == L2Partial && phase == Halted) || (stage == L2Done && phase == Running)
    ensures Sized(SetMeta(s1, stage, wrote).(phase := phase), n, l1)
  {
    hide Sized;
    var s' := SetMeta(s1, stage, wrote).(phase := phase);
    if s'.h.metaOk { PastL1Sized(s, s', n, l1); } else { NothingClaimed(s', n, l1); }
  }

  lemma FundSized(s: State, us: map<OutPoint, UTXO>, n: int, l1: int)
    requires Inv(s) && Staged(s) && Sized(s, n, l1) && Enabled(s, Fund(us))
    ensures Sized(Do(s, Fund(us)), n, l1)
  {
    hide Inv;
    IdleIsQuiet(s);
    assert Replayables(Do(s, Fund(us)).d) == {};
    hide Replayables;
  }

  lemma BootSized(s: State, cfg: Config, wrote: bool, n: int, l1: int)
    requires Sized(s, n, l1) && Enabled(s, Boot(cfg, wrote))
    ensures Sized(DoBoot(s, cfg, wrote), n, l1)
  {
    assert Replayables(DoBoot(s, cfg, wrote).d) == {};
    hide Replayables;
  }

  lemma RestSizes(s: State, a: Action)
    requires Enabled(s, a) && (a.Configure? || a.PopChain? || a.Deliver? || a.Crash?)
    ensures SameSizes(s, Do(s, a))
  {
    hide Replayables;
  }

  lemma GarbleSizes(s: State, key: TxId, stored: Stored)
    requires Enabled(s, Garble(key, stored))
    ensures SameSizes(s, Do(s, Garble(key, stored)))
  {
    GarbledRecord(s.d, Do(s, Garble(key, stored)).d, key, stored);
    hide Replayables;
  }

  lemma SizedStep(s: State, a: Action, n: int, l1: int)
    requires Inv(s) && WellBuilt(s) && Staged(s) && Sized(s, n, l1) && Enabled(s, a)
    requires s.cfg.numChains == n && l1 == L1Count(s.cfg)
    ensures Sized(Do(s, a), n, l1)
  {
    hide Inv, WellBuilt, Staged, Sized, SameSizes, L1Count, Bootstrap, BeginL2, DoBuildL2, DoBuildHop, Drop, GiveUp,
         DoReply;
    hide DoSave, DoCommit, DoClear, DoReplayCommit, DoBoot, IsOrder, ProducedCount, Replayables;
    match a {
      case Save(op, ok, now) =>
        if ok { SaveSized(s, op, now, n, l1); }
        else { FailedWrite(s, op, now); EndSizes(s, op); SameSizesKeep(s, Do(s, a), n, l1); }
      case Commit(op, ok) =>
        if ok { CommitSized(s, op, n, l1); }
        else { FailedWrite(s, op, 0); EndSizes(s, op); SameSizesKeep(s, Do(s, a), n, l1); }
      case Clear(op, cleared, retry) => ClearSizes(s, op, cleared, retry); SameSizesKeep(s, Do(s, a), n, l1);
      case BuildL2(op) => BuildSizes(s, op); SameSizesKeep(s, Do(s, a), n, l1);
      case BuildHop(op) => BuildSizes(s, op); SameSizesKeep(s, Do(s, a), n, l1);
      case Reply(op, _) => BuildSizes(s, op); SameSizesKeep(s, Do(s, a), n, l1);
      case Panic(op) => EndSizes(s, op); SameSizesKeep(s, Do(s, a), n, l1);
      case ReplayCommit(key) => ReplaySized(s, key, n, l1);
      case ReplayMark(wrote) => ReplayMarkSized(s, wrote, n, l1);
      case Dispatch(order, wrote) => DispatchSized(s, order, wrote, n, l1);
      case StartL2(order, wrote) => StartL2Sized(s, order, wrote, n, l1);
      case MarkL1(wrote) => MarkL1Sized(s, wrote, n, l1);
      case FinishL2(wrote) => UpHasNothingToMark(s); FinishSized(s, wrote, n, l1);
      case Fund(us) => FundSized(s, us, n, l1);
      case Boot(cfg, wrote) => BootSized(s, cfg, wrote, n, l1);
      case Garble(key, stored) => GarbleSizes(s, key, stored); SameSizesKeep(s, Do(s, a), n, l1);
      case _ => RestSizes(s, a); SameSizesKeep(s, Do(s, a), n, l1);
    }
  }

  /** All states up to i have the same number of chains and the same fanout size. */
  ghost predicate FixedParameters(states: seq<State>, i: nat)
    requires i < |states|
  {
    forall j :: 0 <= j <= i ==> Uses(states[j].cfg, states[i].cfg.numChains, states[i].cfg.fanoutSize)
  }

  /** Restarted with the same parameters every time, the engine keeps to these sizes. */
  lemma {:induction false} RunKeepsSized(states: seq<State>, actions: seq<Action>, i: nat)
    requires IsRun(states, actions) && i < |states| && FixedParameters(states, i)
    ensures Sized(states[i], states[i].cfg.numChains, L1Count(states[i].cfg))
  {
    hide Enabled, Do, Inv, WellBuilt, Staged;
    if i > 0 {
      hide Init, Sized;
      assert Uses(states[i - 1].cfg, states[i].cfg.numChains, states[i].cfg.fanoutSize);
      RunKeepsSized(states, actions, i - 1);
      RunKeepsInv(states, actions, i - 1);
      RunKeepsBuilt(states, actions, i - 1);
      RunKeepsStaged(states, actions, i - 1);
      SizedStep(states[i - 1], actions[i - 1], states[i].cfg.numChains, L1Count(states[i].cfg));
    }
  }
}
