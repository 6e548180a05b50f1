/** Every step keeps the accounts of the L2 fanout; the theorems about its outcome. */
module ProgressSteps {
  import opened Outcomes
  import opened Ledger
  import opened Stages
  import opened StoreSpec
  import opened TxBuilder
  import opened Replay
  import opened Widths
  import opened Tally
  import opened Engine
  import opened Safety
  import opened SafetySteps
  import opened Built
  import opened StageOrder
  import opened Progress

  lemma SaveEpoch(s: State, op: OutPoint, now: nat)
    requires Inv(s) && Staged(s) && Epoch(s) && op in s.tasks && s.tasks[op].Trying?
    ensures Epoch(DoSave(s, op, true, now))
  {
    hide Inv, Staged, Created, Count, Born, HasWidth;
    var s', tx := DoSave(s, op, true, now), s.tasks[op].tx;
    if InEpoch(s') {
      AttemptIsL2(s, op);
      HeldKey(s, op);
      SavedRecord(s.d, tx, StageOf(s.tasks[op].kind), now);
      assert forall i :: 0 <= i < |s.h.parents| ==> (Replaced(s.d.utxos, s.h, i) <==> Replaced(s'.d.utxos, s'.h, i));
      hide Replaced;
      assert Accounted(s'.d, s'.h);
      forall x | x in s'.tasks ensures FitsFanout(s'.tasks[x], x, s'.h) { SameFits(s'.tasks[x], x, s.h, s'.h); }
    }
  }

  lemma HeldKey(s: State, op: OutPoint)
    requires Inv(s) && op in s.tasks
    ensures s.tasks[op].Held().op == op && op in s.d.utxos && s.d.utxos[op] == s.tasks[op].Held()
  {
    hide WriteAhead, RecordsOwned, SentOwned, TasksFitPhase, Mirror;
    HeldIsBorn(s, op);
  }

  lemma CommitEpoch(s: State, op: OutPoint)
    requires Inv(s) && WellBuilt(s) && Staged(s) && Epoch(s) && op in s.tasks && s.tasks[op].ToCommit?
    ensures Epoch(DoCommit(s, op, true))
  {
    hide Inv, WellBuilt, Staged, Mirror, Shape, Accounted, Born, CommitPending, Replayables, Spendable, NewTasks;
    var s', tx := DoCommit(s, op, true), s.tasks[op].tx;
    CommitEffect(s, op);
    if InEpoch(s') {
      CommitStaysInEpoch(s, op);
      AttemptIsL2(s, op);
      HeldKey(s, op);
      AttemptIsSound(s, op);
      ShapeSizes(s.h);
      assert HasWidth(s.h.parents, s.h.widths, op, |tx.outs|);
      var k :| 0 <= k < |s.h.parents| && s.h.parents[k] == op && s.h.widths[k] == |tx.outs|;
      InvMirror(s);
      SpendKeepsEpoch(s.d, s.h, s'.d, s'.h, tx, k);
      CommitTasksFit(s, op);
    }
  }

  lemma CommitStaysInEpoch(s: State, op: OutPoint)
    requires Inv(s) && op in s.tasks && s.tasks[op].ToCommit? && InEpoch(DoCommit(s, op, true))
    ensures InEpoch(s)
  {
    hide Inv, PutAll;
    CommitPhase(s, op);
  }

  lemma CommitPhase(s: State, op: OutPoint)
    requires Inv(s) && op in s.tasks && s.tasks[op].ToCommit?
    ensures DoCommit(s, op, true).phase == s.phase || DoCommit(s, op, true).phase == L1Committed
  {
    hide Inv, PutAll;
  }

  lemma InvMirror(s: State)
    requires Inv(s)
    ensures Mirror(s.d.utxos, s.h.seeds, s.h.committed)
  {
    hide WriteAhead, RecordsOwned, SentOwned, TasksFitPhase, Mirror, Tracked;
  }

  /** The new outputs of an L2 commit are not parents, and the other tasks are as they were. */
  lemma OutputsFit(tasks: map<OutPoint, Task>, op: OutPoint, tx: Tx, h: History, h': History)
    requires Shape(h) && h'.parents == h.parents && h'.widths == h.widths && |h.parents| == |h.widths|
    requires forall x :: x in tasks ==> FitsFanout(tasks[x], x, h)
    requires forall x :: x in Spendable(tx) ==> !Born(h.seeds, h.committed, x)
    ensures var tasks' := (tasks - {op}) + NewTasks(L2, tx); forall x :: x in tasks' ==> FitsFanout(tasks'[x], x, h')
  {
    hide Born, Spendable, NewTasks, Shape, FitsFanout;
    NewTasksHold(L2, tx);
    NewTaskKinds(L2, tx);
    var tasks' := (tasks - {op}) + NewTasks(L2, tx);
    forall x | x in tasks' ensures FitsFanout(tasks'[x], x, h') {
      if x in NewTasks(L2, tx) {
        UnbornIsNoParent(h, x);
        ProducedFits(tasks'[x], x, h');
      } else {
        SameFits(tasks'[x], x, h, h');
      }
    }
  }

  lemma ProducedFits(t: Task, x: OutPoint, h: History)
    requires |h.parents| == |h.widths| && t.Produced? && x !in h.parents
    ensures FitsFanout(t, x, h)
  {
  }

  lemma CommitTasksFit(s: State, op: OutPoint)
    requires Inv(s) && Epoch(s) && s.phase == InL2 && op in s.tasks && s.tasks[op].ToCommit? && s.tasks[op].kind == L2
    ensures |s.h.parents| == |s.h.widths| && TasksFit(DoCommit(s, op, true))
  {
    hide Inv, Accounted, Born, CommitPending, Spendable, Mirror, Replayables, NewTasks, Shape, FitsFanout;
    CommitEffect(s, op);
    ShapeSizes(s.h);
    OutputsFit(s.tasks, op, s.tasks[op].tx, s.h, DoCommit(s, op, true).h);
  }

  lemma UnbornIsNoParent(h: History, x: OutPoint)
    requires Shape(h) && !Born(h.seeds, h.committed, x)
    ensures x !in h.parents
  {
    hide Born;
  }

  lemma ReplayEpoch(s: State, key: TxId)
    requires Inv(s) && WellBuilt(s) && Staged(s) && Epoch(s) && s.phase == Down && key in Replayables(s.d)
    ensures Faithful(key, Decode(key, s.d.pending[key])) && Epoch(DoReplayCommit(s, key))
  {
    hide Tracked, RecordsOwned, SentOwned, TasksFitPhase, Mirror, Shape, Born, CommitPending, Spendable, Count,
         Replaced;
    var p := Decode(key, s.d.pending[key]);
    var s', tx := DoReplayCommit(s, key), TxOf(key, p);
    ReplayOneIsSpend(s.d, key);
    if InEpoch(s') {
      ShapeSizes(s.h);
      assert SoundRecord(key, p);
      assert Sound(L2, tx);
      var k :| 0 <= k < |s.h.parents| && s.h.parents[k] == key.input && s.h.widths[k] == |key.outs|;
      SpendKeepsEpoch(s.d, s.h, s'.d, s'.h, tx, k);
    }
  }

  lemma ClearEpoch(s: State, op: OutPoint, cleared: bool, retry: bool)
    requires Inv(s) && Epoch(s) && op in s.tasks && s.tasks[op].ToClear?
    ensures Epoch(DoClear(s, op, cleared, retry))
  {
    hide Inv, Epoch, GiveUp;
    var kind, tx := s.tasks[op].kind, s.tasks[op].tx;
    var s1 := s.(d := if cleared then ClearPending(s.d, IdOf(tx)) else s.d);
    ClearedEpoch(s, IdOf(tx));
    if retry {
      RetryEpoch(s1, op);
    } else {
      LocalEpoch(s1, op, kind, false);
    }
  }

  lemma ClearedEpoch(s: State, key: TxId)
    requires Epoch(s)
    ensures Epoch(s.(d := ClearPending(s.d, key)))
  {
    hide Shape, Count, Born, HasWidth, Replaced;
    assert Replayables(ClearPending(s.d, key)) <= Replayables(s.d);
  }

  lemma RetryEpoch(s: State, op: OutPoint)
    requires Epoch(s) && op in s.tasks && s.tasks[op].ToClear?
    ensures var kind, tx := s.tasks[op].kind, s.tasks[op].tx;
      Epoch(s.(tasks := s.tasks[op := if kind == Hop then ChainTop(tx.input) else Trying(kind, tx)]))
  {
    hide Epoch, Shape, Accounted, HasWidth;
    var kind, tx := s.tasks[op].kind, s.tasks[op].tx;
    var t := if kind == Hop then ChainTop(tx.input) else Trying(kind, tx);
    OneTaskFits(s, s.(tasks := s.tasks[op := t]), op, t);
  }

  // -------------------------------------------------------------- a new L2 epoch

  lemma NewParentsFit(order: seq<OutPoint>, numChains: int, tasks: map<OutPoint, Task>, h: History, op: OutPoint)
    requires IsOrder(order, tasks.Keys) && h.parents == order && h.widths == L2Widths(numChains, |order|) && op in tasks
    ensures op in Parents(tasks, order, numChains) && FitsFanout(Parents(tasks, order, numChains)[op], op, h)
  {
    OrderCovers(order, tasks.Keys);
    var i :| 0 <= i < |order| && order[i] == op;
    ParentAt(tasks, order, numChains, i);
    hide Parents, L2Width, IsOrder;
  }

  lemma NewTasksFit(order: seq<OutPoint>, numChains: int, tasks: map<OutPoint, Task>, h: History)
    requires IsOrder(order, tasks.Keys) && h.parents == order && h.widths == L2Widths(numChains, |order|)
    ensures var ps := Parents(tasks, order, numChains); forall op :: op in ps ==> FitsFanout(ps[op], op, h)
  {
    hide Parents, IsOrder, FitsFanout;
    ParentsHold(tasks, order, numChains);
    var ps := Parents(tasks, order, numChains);
    forall op | op in ps ensures FitsFanout(ps[op], op, h) { NewParentsFit(order, numChains, tasks, h, op); }
  }

  /** The outpoints drained together: distinct, born, and none made by another. */
  lemma DrainedShape(s: State, order: seq<OutPoint>)
    requires Inv(s) && s.phase != Down && IsOrder(order, s.tasks.Keys)
    ensures Distinct(order) &&
      (forall i :: 0 <= i < |order| ==> order[i] in s.d.utxos && Born(s.h.seeds, s.h.committed, order[i]))
    ensures forall i :: 0 <= i < |order| && order[i].txid.Spend? ==> order[i].txid.input !in order
    ensures |s.d.utxos| == |order|
  {
    hide WriteAhead, RecordsOwned, SentOwned, TasksFitPhase;
    assert s.tasks.Keys == s.d.utxos.Keys;
    forall i | 0 <= i < |order|
      ensures order[i] in s.d.utxos && Born(s.h.seeds, s.h.committed, order[i])
      ensures order[i].txid.Spend? ==> order[i].txid.input !in order
    {
      DurableNotSpent(s.d.utxos, s.h.seeds, s.h.committed, order[i]);
      if order[i].txid.Spend? {
        NotSeed(s, order[i]);
        CommittedIsBorn(s.d.utxos, s.h.seeds, s.h.committed, order[i].txid.input);
        assert forall k :: 0 <= k < |order| ==> order[k] != order[i].txid.input;
      }
    }
  }

  lemma NotSeed(s: State, op: OutPoint)
    requires Mirror(s.d.utxos, s.h.seeds, s.h.committed) && op.txid.Spend?
    ensures op !in s.h.seeds
  {
  }

  /** At the start every parent is durable and nothing is recorded. */
  lemma NewEpoch(s: State, order: seq<OutPoint>, d': Durable, h': History)
    requires Inv(s) && s.phase != Down && s.cfg.Valid() && IsOrder(order, s.tasks.Keys) && order != [] &&
      Replayables(s.d) == {}
    requires d'.utxos == s.d.utxos && d'.pending == s.d.pending && h'.seeds == s.h.seeds &&
      h'.committed == s.h.committed
    requires h'.parents == order && h'.chains == s.cfg.numChains && h'.widths == L2Widths(s.cfg.numChains, |order|)
    ensures Shape(h') && Accounted(d', h')
  {
    hide Inv, Born, Count, L2Width, IsOrder, Replaced, HasWidth;
    DrainedShape(s, order);
    WidthsSumToChains(s.cfg.numChains, |order|);
    CountAllPresent(h'.parents, h'.widths, d'.utxos.Keys);
    assert Replayables(d') == {};
  }

  lemma StartedEpoch(s: State, order: seq<OutPoint>, s': State)
    requires Inv(s) && s.phase != Down && s.cfg.Valid() && IsOrder(order, s.tasks.Keys) && order != [] &&
      Replayables(s.d) == {}
    requires SameLedger(s, s')
    requires s'.h.parents == order && s'.h.chains == s.cfg.numChains &&
      s'.h.widths == L2Widths(s.cfg.numChains, |order|)
    requires s'.phase == InL2 ==> s'.tasks == Parents(s.tasks, order, s.cfg.numChains)
    ensures Epoch(s')
  {
    hide Inv, Parents, L2Widths, IsOrder, Replayables, Shape, Accounted, FitsFanout;
    NewEpoch(s, order, s'.d, s'.h);
    ShapeSizes(s'.h);
    NewTasksFit(order, s.cfg.numChains, s.tasks, s'.h);
  }

  lemma BeginL2Epoch(s: State, order: seq<OutPoint>, wrote: bool)
    requires Inv(s) && s.phase != Down && s.cfg.Valid() && IsOrder(order, s.tasks.Keys) && Replayables(s.d) == {}
    requires s.h.metaOk ==> order != []
    ensures Epoch(BeginL2(s, order, wrote))
  {
    hide Inv, BeginL2, L2Widths, Parents, IsOrder, Replayables, Epoch, SameLedger;
    BeginL2Frame(s, order, wrote);
    BeginL2Records(s, order, wrote);
    if order != [] { StartedEpoch(s, order, BeginL2(s, order, wrote)); } else { NotInEpoch(BeginL2(s, order, wrote)); }
  }

  lemma BeginL2Records(s: State, order: seq<OutPoint>, wrote: bool)
    requires s.cfg.Valid() && IsOrder(order, s.tasks.Keys)
    ensures var s' := BeginL2(s, order, wrote);
      && s'.h.parents == order && s'.h.chains == s.cfg.numChains && s'.h.widths == L2Widths(s.cfg.numChains, |order|)
      && (s'.phase == InL2 ==> s'.tasks == Parents(s.tasks, order, s.cfg.numChains))
      && (order == [] ==> s'.phase == Halted && s'.h.metaOk == (s.h.metaOk && wrote))
  {
    hide L2Widths, Parents, IsOrder;
  }

  /** Outside an epoch there is nothing to keep. */
  lemma NotInEpoch(s: State)
    requires !InEpoch(s)
    ensures Epoch(s)
  {
  }

  lemma HaltedEpoch(s: State, s': State)
    requires Epoch(s) && SameFanout(s, s') && s'.phase != InL2
    ensures Epoch(s')
  {
    hide Epoch, SameFanout;
    SameFanoutEpoch(s, s');
  }

  lemma BeginL1Epoch(s: State, op: OutPoint, wrote: bool)
    requires op in s.tasks && s.phase == Idle
    ensures Epoch(BeginL1(s, op, wrote))
  {
    hide BuildFanout, L1Count, Shape, Accounted;
    NotInEpoch(BeginL1(s, op, wrote));
  }

  lemma ResumeEpoch(s: State, wrote: bool)
    requires Epoch(s) && Staged(s) && s.phase == Idle
    ensures Epoch(Resume(s, true, wrote)) && Epoch(Halt(s))
    ensures s.mem == L2Done ==> Epoch(Resume(s, false, wrote))
  {
    hide Shape, Accounted, RecordsStaged, ToMarkStaged;
    HaltedEpoch(s, Halt(s));
  }

  /** A queue that leads to an L2 fanout is not empty. */
  lemma L2HasParents(s: State, order: seq<OutPoint>)
    requires Inv(s) && Staged(s) && s.h.metaOk && s.cfg.Valid() && IsOrder(order, s.tasks.Keys)
    requires s.phase == L1Marked || (s.phase == Idle && (s.mem == L1Done || |order| == L1Count(s.cfg)))
    ensures order != []
  {
    hide Mirror, WriteAhead, RecordsOwned, SentOwned, TasksFitPhase, Replayables;
    if s.d.stage == Some(L1Done) {
      assert s.d.utxos != map[];
      var op :| op in s.d.utxos;
      assert op in s.tasks.Keys;
    }
    CeilDivIsLeast(s.cfg.numChains, s.cfg.fanoutSize);
  }

  lemma BootstrapEpoch(s: State, order: seq<OutPoint>, wrote: bool)
    requires Inv(s) && Staged(s) && Epoch(s) && s.phase == Idle && s.cfg.Valid() && IsOrder(order, s.tasks.Keys) &&
      Replayables(s.d) == {}
    ensures Epoch(Bootstrap(s, order, wrote))
  {
    hide Inv, Staged, Epoch, BeginL1, BeginL2, Resume, Halt, L1Count, Replayables;
    ResumeEpoch(s, wrote);
    if |order| == 1 { BeginL1Epoch(s, order[0], wrote); }
    if !s.h.metaOk || s.mem == L1Done || |order| == L1Count(s.cfg) {
      if s.h.metaOk { L2HasParents(s, order); }
      BeginL2Epoch(s, order, wrote);
    }
  }

  lemma DispatchEpoch(s: State, order: seq<OutPoint>, wrote: bool)
    requires Inv(s) && Staged(s) && Epoch(s) && Enabled(s, Dispatch(order, wrote))
    ensures Epoch(Bootstrap(s.(locked := true), order, wrote))
  {
    hide Inv, Staged, Epoch, Bootstrap, Replayables;
    IdleIsQuiet(s);
    LockKeepsInv(s);
    LockedStays(s);
    BootstrapEpoch(s.(locked := true), order, wrote);
  }

  lemma LockedStays(s: State)
    requires Staged(s) && Epoch(s)
    ensures Staged(s.(locked := true)) && Epoch(s.(locked := true))
  {
    hide Shape, Accounted, RecordsStaged;
    SameDurableStaged(s, s.(locked := true));
    if s.phase == InL2 { ShapeSizes(s.h); }
    SameFanoutEpoch(s, s.(locked := true));
  }

  // ------------------------------------------------------------- all other steps

  lemma FinishEpoch(s: State, wrote: bool)
    requires Epoch(s) && Enabled(s, FinishL2(wrote))
    ensures Epoch(Do(s, FinishL2(wrote)))
  {
    hide Shape, Accounted, ProducedCount, Requeue;
    var s' := Do(s, FinishL2(wrote));
    if s'.phase == Running { NotInEpoch(s'); } else { HaltedEpoch(s, s'); }
  }

  /** During an L2 epoch the store is never empty, so no funding is looked for. */
  lemma EpochNotEmpty(s: State)
    requires Epoch(s) && InEpoch(s)
    ensures s.d.utxos != map[]
  {
    hide Replaced, HasWidth, Count;
    assert s.d.utxos == map[] ==> |s.d.utxos| == 0;
    if s.d.utxos == map[] { CountNonePresent(s.h.parents, s.h.widths, s.d.utxos.Keys); }
  }

  lemma FundEpoch(s: State, us: map<OutPoint, UTXO>)
    requires Epoch(s) && Enabled(s, Fund(us))
    ensures Epoch(Do(s, Fund(us)))
  {
    hide Epoch;
    if InEpoch(s) { EpochNotEmpty(s); }
    NotInEpoch(Do(s, Fund(us)));
  }

  lemma MarkEpoch(s: State, wrote: bool)
    requires Staged(s) && Epoch(s) && s.phase == Down && s.toMark.Some?
    ensures Epoch(SetMeta(s, s.toMark.value, wrote).(toMark := None))
  {
    hide Shape, Accounted, RecordsStaged;
    HaltedEpoch(s, SetMeta(s, s.toMark.value, wrote).(toMark := None));
  }

  lemma RestIsSameFanout(s: State, a: Action)
    requires Enabled(s, a) && (a.Configure? || a.MarkL1? || a.PopChain? || a.Crash?)
    ensures SameFanout(s, Do(s, a)) && Do(s, a).phase != InL2
  {
    hide Replayables;
  }

  lemma BootEpoch(s: State, cfg: Config, wrote: bool)
    requires Epoch(s) && s.phase == Down
    ensures Epoch(DoBoot(s, cfg, wrote))
  {
    hide Epoch;
    HaltedEpoch(s, DoBoot(s, cfg, wrote));
  }

  lemma HopEpoch(s: State, op: OutPoint)
    requires Epoch(s) && op in s.tasks && s.tasks[op].ChainTop? && s.phase == Running
    ensures Epoch(DoBuildHop(s, op))
  {
    hide Epoch, BuildSustain;
    HaltedEpoch(s, DoBuildHop(s, op));
  }

  lemma DeliverEpoch(s: State, tx: Tx)
    requires Epoch(s) && Enabled(s, Deliver(tx))
    ensures Epoch(Do(s, Deliver(tx)))
  {
    hide Shape, Accounted, FitsFanout, Replayables;
    var s' := Do(s, Deliver(tx));
    if s.phase == InL2 {
      ShapeSizes(s.h);
      forall x | x in s'.tasks ensures FitsFanout(s'.tasks[x], x, s'.h) { SameFits(s'.tasks[x], x, s.h, s'.h); }
    }
    SameFanoutEpoch(s, s');
  }

  lemma GarbleEpoch(s: State, key: TxId, stored: Stored)
    requires Epoch(s) && Enabled(s, Garble(key, stored))
    ensures Epoch(Do(s, Garble(key, stored)))
  {
    hide Shape, Count, Born, HasWidth, Replaced;
    var s' := Do(s, Garble(key, stored));
    GarbledRecord(s.d, s'.d, key, stored);
    if InEpoch(s') { ShapeKept(s.h, s'.h, s.d.utxos); }
  }

  /** The accounts of a fanout do not speak of the other parts of the history. */
  lemma ShapeKept(h: History, h': History, utxos: Utxos)
    requires Shape(h) && h' == h.(intact := h'.intact)
    ensures Shape(h') && |h.parents| == |h.widths|
    ensures forall i :: 0 <= i < |h.parents| ==> (Replaced(utxos, h, i) <==> Replaced(utxos, h', i))
  {
    hide Born;
  }

  lemma RestEpoch(s: State, a: Action)
    requires Epoch(s) && Enabled(s, a)
    requires a.Configure? || a.MarkL1? || a.PopChain? || a.Deliver? || a.Crash? || a.Garble? || a.Boot? || a.BuildHop?
    ensures Epoch(Do(s, a))
  {
    hide Epoch, Replayables, DoBoot, DoBuildHop, SameFanout;
    match a {
      case Deliver(tx) => DeliverEpoch(s, tx);
      case Garble(key, stored) => GarbleEpoch(s, key, stored);
      case BuildHop(op) => HopEpoch(s, op);
      case Boot(cfg, wrote) => BootEpoch(s, cfg, wrote);
      case PopChain(op) => RestIsSameFanout(s, a); HaltedEpoch(s, Do(s, a));
      case MarkL1(_) => RestIsSameFanout(s, a); HaltedEpoch(s, Do(s, a));
      case Configure(_) => RestIsSameFanout(s, a); HaltedEpoch(s, Do(s, a));
      case Crash => RestIsSameFanout(s, a); HaltedEpoch(s, Do(s, a));
    }
  }

  lemma EpochStep(s: State, a: Action)
    requires Inv(s) && WellBuilt(s) && Staged(s) && Epoch(s) && Enabled(s, a)
    ensures Epoch(Do(s, a))
  {
    hide Inv, WellBuilt, Staged, Epoch, Bootstrap, BeginL2, DoBuildL2, DoBuildHop, Drop, GiveUp, DoReply, DoSave,
         DoCommit, DoClear, DoReplayCommit, DoBoot, IsOrder, ProducedCount, Replayables;
    match a {
      case Save(op, ok, now) => if ok { SaveEpoch(s, op, now); } else { GiveUpEpoch(s, op, now); }
      case Commit(op, ok) => if ok { CommitEpoch(s, op); } else { DropEpoch(s, op); }
      case Panic(op) => PanicEpoch(s, op);
      case Reply(op, accepted) => LocalEpoch(s, op, L1, accepted);
      case Clear(op, cleared, retry) => ClearEpoch(s, op, cleared, retry);
      case ReplayCommit(key) => ReplayEpoch(s, key);
      case ReplayMark(wrote) => MarkEpoch(s, wrote);
      case BuildL2(op) => BuildL2Epoch(s, op);
      case FinishL2(wrote) => FinishEpoch(s, wrote);
      case Fund(us) => FundEpoch(s, us);
      case Dispatch(order, wrote) => DispatchEpoch(s, order, wrote);
      case StartL2(order, wrote) =>
        IdleIsQuiet(s);
        if s.h.metaOk { L2HasParents(s, order); }
        BeginL2Epoch(s, order, wrote);
      case _ => RestEpoch(s, a);
    }
  }

  lemma ChainsAfterL2(s: State, op: OutPoint)
    requires Inv(s) && op in s.tasks && s.tasks[op].ChainTop?
    ensures s.phase == Running
  {
    hide Mirror, WriteAhead, RecordsOwned, SentOwned;
  }

  lemma DropIsSameFanout(s: State, op: OutPoint)
    requires op in s.tasks
    ensures SameFanout(s, Drop(s, op))
  {
  }

  lemma PanicEpoch(s: State, op: OutPoint)
    requires Inv(s) && Epoch(s) && op in s.tasks && s.tasks[op].Active()
    ensures Epoch(Drop(s, op))
  {
    hide Epoch, SameFanout, Inv;
    if s.tasks[op].ChainTop? {
      ChainsAfterL2(s, op);
      DropIsSameFanout(s, op);
      HaltedEpoch(s, Drop(s, op));
    } else {
      LocalEpoch(s, op, L1, false);
    }
  }

  lemma GiveUpEpoch(s: State, op: OutPoint, now: nat)
    requires Epoch(s) && op in s.tasks && s.tasks[op].Trying?
    ensures Epoch(DoSave(s, op, false, now))
  {
    hide Epoch;
    LocalEpoch(s, op, s.tasks[op].kind, false);
  }

  lemma DropEpoch(s: State, op: OutPoint)
    requires Epoch(s) && op in s.tasks && s.tasks[op].ToCommit?
    ensures Epoch(DoCommit(s, op, false))
  {
    hide Epoch;
    LocalEpoch(s, op, L1, false);
  }

  lemma {:induction false} RunKeepsEpoch(states: seq<State>, actions: seq<Action>, i: nat)
    requires IsRun(states, actions) && i < |states|
    ensures Epoch(states[i])
  {
    hide Enabled, Do, Inv, WellBuilt, Staged;
    if i > 0 {
      hide Init, Epoch;
      RunKeepsEpoch(states, actions, i - 1);
      RunKeepsInv(states, actions, i - 1);
      RunKeepsBuilt(states, actions, i - 1);
      RunKeepsStaged(states, actions, i - 1);
      EpochStep(states[i - 1], actions[i - 1]);
    }
  }
}
