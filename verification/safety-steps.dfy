/** The remaining steps keep the engine's invariant, and so every run does. */
module SafetySteps {
  import opened Ledger
  import opened Stages
  import opened StoreSpec
  import opened TxBuilder
  import opened Replay
  import opened Widths
  import opened Engine
  import opened Safety

  // -------------------------------------------------------------------- commits

  /** What a commit by the owner of op does to the durable state. */
  lemma CommitEffect(s: State, op: OutPoint)
    requires Inv(s) && op in s.tasks && s.tasks[op].ToCommit?
    ensures var tx, d' := s.tasks[op].tx, DoCommit(s, op, true).d;
      && d' == s.d.(utxos := (s.d.utxos - {op}) + Spendable(tx), pending := s.d.pending - {IdOf(tx)})
      && Replayables(d') == Replayables(s.d) - {IdOf(tx)}
      && Mirror(d'.utxos, s.h.seeds, s.h.committed[op := tx])
      && tx.input.op == op && op in s.d.utxos
      && (forall x :: x in Spendable(tx) ==> x !in s.d.utxos && x !in s.tasks && !Born(s.h.seeds, s.h.committed, x))
  {
    hide WriteAhead, RecordsOwned, SentOwned, TasksFitPhase, Mirror, Born, PutAll;
    var tx := s.tasks[op].tx;
    NotDown(s, op);
    HeldIsBorn(s, op);
    CommitIsSpend(s.d, tx);
    SpendKeepsMirror(s.d.utxos, s.h.seeds, s.h.committed, tx);
    forall x | x in Spendable(tx) ensures x !in s.d.utxos && x !in s.tasks && !Born(s.h.seeds, s.h.committed, x) {
      OutputsAreFresh(s.d.utxos, s.h.seeds, s.h.committed, tx, x);
    }
  }

  /** Applying a transaction keeps the write-ahead condition of the records that spend something else. */
  lemma SpendKeepsWriteAhead(d: Durable, d': Durable, tx: Tx)
    requires WriteAhead(d)
    requires d'.utxos == (d.utxos - {tx.input.op}) + Spendable(tx) && d'.pending == d.pending - {IdOf(tx)}
    requires forall key :: key in Replayables(d) && key.Spend? && key.input == tx.input.op ==> key == IdOf(tx)
    requires forall x :: x in Spendable(tx) ==> x !in d.utxos
    ensures WriteAhead(d')
  {
    hide Spendable;
    assert Replayables(d') == Replayables(d) - {IdOf(tx)};
  }

  lemma CommitKeepsWriteAhead(s: State, op: OutPoint)
    requires Inv(s) && op in s.tasks && s.tasks[op].ToCommit?
    ensures WriteAhead(DoCommit(s, op, true).d)
  {
    hide SentOwned, TasksFitPhase, Mirror, Born, PutAll, RecordsOwned, WriteAhead, Spendable, Replayables;
    NotDown(s, op);
    CommitEffect(s, op);
    forall key | key in Replayables(s.d) && key.Spend? && key.input == op ensures key == IdOf(s.tasks[op].tx) {
      OwnersRecord(s, op, key);
    }
    SpendKeepsWriteAhead(s.d, DoCommit(s, op, true).d, s.tasks[op].tx);
  }

  lemma NewTasksHold(kind: Kind, tx: Tx)
    ensures NewTasks(kind, tx).Keys == Spendable(tx).Keys
    ensures forall x :: x in Spendable(tx) ==>
      x in NewTasks(kind, tx) && NewTasks(kind, tx)[x].Held() == Spendable(tx)[x]
  {
    hide Spendable;
  }

  lemma CommitKeepsTracked(s: State, op: OutPoint)
    requires Inv(s) && op in s.tasks && s.tasks[op].ToCommit?
    ensures Tracked(DoCommit(s, op, true))
  {
    hide WriteAhead, RecordsOwned, SentOwned, TasksFitPhase, Mirror, Born, PutAll, Spendable, NewTasks, Replayables,
         CommitPending;
    NotDown(s, op);
    CommitEffect(s, op);
    var s', tx := DoCommit(s, op, true), s.tasks[op].tx;
    NewTasksHold(s.tasks[op].kind, tx);
    assert s'.tasks.Keys == s'.d.utxos.Keys;
  }

  lemma CommitKeepsOwner(s: State, op: OutPoint, op': OutPoint, tx: Tx)
    requires op in s.tasks && s.tasks[op].ToCommit? && MayOwn(s, op', tx) && op' != op &&
      op' !in Spendable(s.tasks[op].tx)
    requires s.phase != Halted
    ensures MayOwn(DoCommit(s, op, true), op', tx)
  {
    hide BuildSustain, PutAll;
  }

  /** In the L1 phase the committed record is the only one. */
  lemma NoOtherRecordInL1(s: State, op: OutPoint)
    requires Inv(s) && op in s.tasks && s.tasks[op].ToCommit? && s.phase == InL1
    ensures Replayables(DoCommit(s, op, true).d) == {}
    ensures s.tasks.Keys == {op}
  {
    hide WriteAhead, SentOwned, Mirror, Born, PutAll;
    CommitEffect(s, op);
    OnlyKey(s.tasks, op);
    forall key | key in Replayables(s.d) ensures key == IdOf(s.tasks[op].tx) {
      assert key.input in s.tasks;
      OwnersRecord(s, op, key);
    }
  }

  lemma CommitFitsPhase(s: State, op: OutPoint)
    requires Inv(s) && op in s.tasks && s.tasks[op].ToCommit?
    ensures TasksFitPhase(DoCommit(s, op, true))
    ensures s.phase != Halted && (s.tasks[op].kind == L1 <==> s.phase == InL1)
  {
    hide WriteAhead, RecordsOwned, SentOwned, Mirror, CommitPending, Replayables, NewTasks, BuildSustain;
    NotDown(s, op);
    NewTaskKinds(s.tasks[op].kind, s.tasks[op].tx);
    if s.phase == InL1 { NoOtherRecordInL1(s, op); }
  }

  lemma NewTaskKinds(kind: Kind, tx: Tx)
    ensures forall x :: x in NewTasks(kind, tx) ==>
      match kind
      case L1 => NewTasks(kind, tx)[x].Queued?
      case L2 => NewTasks(kind, tx)[x].Produced?
      case Hop => NewTasks(kind, tx)[x].ChainTop?
  {
    hide Spendable;
  }

  lemma CommitKeepsRecords(s: State, op: OutPoint)
    requires Inv(s) && op in s.tasks && s.tasks[op].ToCommit?
    ensures RecordsOwned(DoCommit(s, op, true))
  {
    hide WriteAhead, SentOwned, TasksFitPhase, Mirror, Born, PutAll, MayOwn, Spendable;
    NotDown(s, op);
    CommitEffect(s, op);
    CommitFitsPhase(s, op);
    var s', tx := DoCommit(s, op, true), s.tasks[op].tx;
    forall key | key in Replayables(s'.d)
      ensures Faithful(key, Decode(key, s'.d.pending[key])) &&
        MayOwn(s', key.input, TxOf(key, Decode(key, s'.d.pending[key])))
    {
      var t := TxOf(key, Decode(key, s.d.pending[key]));
      assert MayOwn(s, key.input, t);
      OwnerHolds(s, key.input, t);
      if key.input == op { OwnersRecord(s, op, key); }
      CommitKeepsOwner(s, op, key.input, t);
    }
  }

  lemma OwnerHolds(s: State, op: OutPoint, tx: Tx)
    requires MayOwn(s, op, tx)
    ensures op in s.tasks
  {
  }

  lemma CommitKeepsSent(s: State, op: OutPoint)
    requires Inv(s) && op in s.tasks && s.tasks[op].ToCommit?
    ensures SentOwned(DoCommit(s, op, true))
  {
    hide WriteAhead, RecordsOwned, TasksFitPhase, Mirror, PutAll, MayOwn, Spendable;
    NotDown(s, op);
    CommitEffect(s, op);
    CommitFitsPhase(s, op);
    HeldIsBorn(s, op);
    var s' := DoCommit(s, op, true);
    forall tx | tx in s.h.sent
      ensures Born(s'.h.seeds, s'.h.committed, tx.input.op) && (tx.input.op in s'.tasks ==> MayOwn(s', tx.input.op, tx))
    {
      if tx.input.op in s'.tasks {
        assert tx.input.op in s.tasks && tx.input.op != op;
        CommitKeepsOwner(s, op, tx.input.op, tx);
      }
    }
  }

  lemma CommitStep(s: State, op: OutPoint)
    requires Inv(s) && Enabled(s, Commit(op, true))
    ensures Inv(Do(s, Commit(op, true)))
  {
    hide WriteAhead, RecordsOwned, SentOwned, TasksFitPhase, Tracked, Mirror, PutAll, Spendable, Born, Replayables;
    CommitEffect(s, op);
    CommitKeepsWriteAhead(s, op);
    CommitKeepsTracked(s, op);
    CommitKeepsRecords(s, op);
    CommitKeepsSent(s, op);
    CommitFitsPhase(s, op);
  }

  // ------------------------------------------------------------------- recovery

  lemma CrashStep(s: State)
    requires Inv(s)
    ensures Inv(Do(s, Crash))
  {
    hide Mirror, WriteAhead, Born;
  }

  /** A garbled record, or a new one that cannot be replayed, only takes its key from the replayable ones. */
  lemma GarbledRecord(d: Durable, d': Durable, key: TxId, stored: Stored)
    requires !Replayable(key, stored) && d' == d.(pending := d.pending[key := stored])
    ensures Replayables(d') == Replayables(d) - {key}
    ensures WriteAhead(d) ==> WriteAhead(d')
  {
    assert Replayables(d') == Replayables(d) - {key};
  }

  lemma GarbleStep(s: State, key: TxId, stored: Stored)
    requires Inv(s) && Enabled(s, Garble(key, stored))
    ensures Inv(Do(s, Garble(key, stored)))
  {
    hide Mirror, WriteAhead, Born, Replayables;
    GarbledRecord(s.d, Do(s, Garble(key, stored)).d, key, stored);
  }

  lemma RecordedInput(d: Durable, key: TxId)
    requires WriteAhead(d) && key in Replayables(d)
    ensures key in d.pending && Faithful(key, Decode(key, d.pending[key]))
    ensures key.input in d.utxos && d.utxos[key.input] == TxOf(key, Decode(key, d.pending[key])).input
    ensures TxOf(key, Decode(key, d.pending[key])).input.op == key.input
  {
  }

  lemma ReplayKeepsInv(s: State, key: TxId)
    requires Inv(s) && s.phase == Down && key in Replayables(s.d)
    ensures Faithful(key, Decode(key, s.d.pending[key])) && Inv(DoReplayCommit(s, key))
  {
    hide Mirror, Spendable, ReplayOne, WriteAhead, Replayables, MayOwn, Born;
    RecordedInput(s.d, key);
    var tx := TxOf(key, Decode(key, s.d.pending[key]));
    ReplayOneKeepsWriteAhead(s.d, key);
    ReplayOneIsSpend(s.d, key);
    SpendKeepsMirror(s.d.utxos, s.h.seeds, s.h.committed, tx);
  }

  lemma ReplayCommitStep(s: State, key: TxId)
    requires Inv(s) && Enabled(s, ReplayCommit(key))
    ensures Inv(Do(s, ReplayCommit(key)))
  {
    hide Inv, Replayables, DoReplayCommit;
    ReplayKeepsInv(s, key);
  }

  lemma BootStep(s: State, cfg: Config, wrote: bool)
    requires Inv(s) && Enabled(s, Boot(cfg, wrote))
    ensures Inv(Do(s, Boot(cfg, wrote)))
  {
    hide Mirror, Born, WriteAhead, Replayables;
    MetaKeepsInv(s, Unknown, wrote);
  }

  // -------------------------------------------------------- launches and funding

  /** Nothing is in flight: the queue holds every UTXO and no record is pending. */
  ghost predicate Quiet(s: State) {
    && AllQueued(s) && !s.failed && s.phase != Down && s.phase != Halted && Replayables(s.d) == {}
  }

  /** The same UTXOs, held by someone else. */
  ghost predicate HandsOver(s: State, s': State) {
    && s'.d.utxos == s.d.utxos && s'.d.pending == s.d.pending
    && s'.h.seeds == s.h.seeds && s'.h.committed == s.h.committed && s'.h.sent == s.h.sent
    && s'.tasks.Keys == s.tasks.Keys && (forall op :: op in s.tasks ==> s'.tasks[op].Held() == s.tasks[op].Held())
    && s'.phase != Down && s'.toMark == s.toMark
  }

  lemma HandOverKeepsInv(s: State, s': State)
    requires Inv(s) && Quiet(s) && HandsOver(s, s') && TasksFitPhase(s')
    ensures Inv(s')
  {
    hide Mirror, Born, TasksFitPhase;
    assert Replayables(s'.d) == {};
    forall tx | tx in s.h.sent ensures tx.input.op !in s.tasks {
      assert !MayOwn(s, tx.input.op, tx);
    }
  }

  lemma OrderCovers(order: seq<OutPoint>, keys: set<OutPoint>)
    requires IsOrder(order, keys)
    ensures forall op :: op in keys <==> op in order
  {
    var s := set i | 0 <= i < |order| :: order[i];
    OrderSize(order);
    assert s <= keys;
    SubsetOfSameSize(s, keys);
    forall op | op in keys ensures op in order { assert op in s; }
  }

  lemma OrderLength(order: seq<OutPoint>, keys: set<OutPoint>)
    requires IsOrder(order, keys)
    ensures |order| == |keys|
  {
  }

  lemma {:induction false} OrderSize(order: seq<OutPoint>)
    requires forall i, j :: 0 <= i < j < |order| ==> order[i] != order[j]
    ensures |set i | 0 <= i < |order| :: order[i]| == |order|
  {
    var s := set i | 0 <= i < |order| :: order[i];
    if order != [] {
      var front := order[..|order| - 1];
      OrderSize(front);
      var t := set i | 0 <= i < |front| :: front[i];
      assert s == t + {order[|order| - 1]} by {
        forall x | x in t ensures x in s {
          var i :| 0 <= i < |front| && front[i] == x;
          assert order[i] == x;
        }
        forall x | x in s ensures x in t + {order[|order| - 1]} {
          var i :| 0 <= i < |order| && order[i] == x;
          if i < |front| { assert front[i] == x; }
        }
      }
    }
  }

  lemma SubsetOfSameSize<T>(a: set<T>, b: set<T>)
    requires a <= b && |a| == |b|
    ensures a == b
  {
    assert |b - a| == |b| - |a|;
  }

  lemma ParentAt(tasks: map<OutPoint, Task>, order: seq<OutPoint>, numChains: int, i: nat)
    requires IsOrder(order, tasks.Keys) && i < |order|
    ensures order[i] in Parents(tasks, order, numChains)
    ensures Parents(tasks, order, numChains)[order[i]] == Parent(tasks[order[i]].Held(), L2Width(numChains, |order|, i))
  {
  }

  lemma ParentsHold(tasks: map<OutPoint, Task>, order: seq<OutPoint>, numChains: int)
    requires IsOrder(order, tasks.Keys)
    ensures Parents(tasks, order, numChains).Keys == tasks.Keys
    ensures forall op :: op in tasks ==>
      Parents(tasks, order, numChains)[op].Parent? && Parents(tasks, order, numChains)[op].u == tasks[op].Held()
  {
    OrderCovers(order, tasks.Keys);
    var ps := Parents(tasks, order, numChains);
    forall op | op in ps ensures op in tasks {}
    hide Parents;
    forall op | op in tasks ensures op in ps && ps[op].Parent? && ps[op].u == tasks[op].Held() {
      var i :| 0 <= i < |order| && order[i] == op;
      ParentAt(tasks, order, numChains, i);
    }
  }

  lemma BeginL1Hands(s: State, op: OutPoint, wrote: bool)
    requires Quiet(s) && s.phase == Idle && op in s.tasks && |s.tasks| == 1
    ensures HandsOver(s, BeginL1(s, op, wrote)) && TasksFitPhase(BeginL1(s, op, wrote))
  {
    hide Replayables, FanoutShare;
    OnlyKey(s.tasks, op);
  }

  lemma BeginL2Hands(s: State, order: seq<OutPoint>, wrote: bool)
    requires Quiet(s) && s.cfg.Valid() && IsOrder(order, s.tasks.Keys)
    ensures HandsOver(s, BeginL2(s, order, wrote)) && TasksFitPhase(BeginL2(s, order, wrote))
  {
    hide Replayables, L2Widths, Parents;
    ParentsHold(s.tasks, order, s.cfg.numChains);
  }

  lemma ResumeHands(s: State, mark: bool, wrote: bool)
    requires Quiet(s)
    ensures HandsOver(s, Resume(s, mark, wrote)) && TasksFitPhase(Resume(s, mark, wrote))
    ensures HandsOver(s, Halt(s)) && TasksFitPhase(Halt(s))
  {
    hide Replayables;
  }

  /** bootstrapLocked is not something the invariant speaks of. */
  lemma LockKeepsInv(s: State)
    requires Inv(s) && s.phase == Idle
    ensures Inv(s.(locked := true)) && Quiet(s.(locked := true))
  {
    hide Mirror, WriteAhead;
    assert Replayables(s.(locked := true).d) == {};
  }

  lemma DispatchStep(s: State, order: seq<OutPoint>, wrote: bool)
    requires Inv(s) && Enabled(s, Dispatch(order, wrote))
    ensures Inv(Do(s, Dispatch(order, wrote)))
  {
    hide Inv, Quiet, HandsOver, TasksFitPhase, BeginL1, BeginL2, Resume, Halt, L1Count, Replayables;
    var s1 := s.(locked := true);
    LockKeepsInv(s);
    ResumeHands(s1, true, wrote);
    ResumeHands(s1, false, wrote);
    BeginL2Hands(s1, order, wrote);
    if |order| == 1 { BeginL1Hands(s1, order[0], wrote); }
    HandOverKeepsInv(s1, Bootstrap(s1, order, wrote));
  }

  lemma MarkL1Step(s: State, wrote: bool)
    requires Inv(s) && Enabled(s, MarkL1(wrote))
    ensures Inv(Do(s, MarkL1(wrote)))
  {
    hide Mirror, WriteAhead, Tracked, RecordsOwned, SentOwned, Replayables;
    MetaKeepsInv(s, L1Done, wrote);
    HandOverKeepsInv(s, Do(s, MarkL1(wrote)));
  }

  lemma StartL2Step(s: State, order: seq<OutPoint>, wrote: bool)
    requires Inv(s) && Enabled(s, StartL2(order, wrote))
    ensures Inv(Do(s, StartL2(order, wrote)))
  {
    hide Mirror, WriteAhead, Tracked, RecordsOwned, SentOwned, Replayables, HandsOver;
    BeginL2Hands(s, order, wrote);
    HandOverKeepsInv(s, Do(s, StartL2(order, wrote)));
  }

  /** Every L2 goroutine has ended, and the outputs are pushed. */
  ghost predicate Requeues(s: State, s': State) {
    && s.phase == InL2 && (forall op :: op in s.tasks ==> !s.tasks[op].Active())
    && s'.d.utxos == s.d.utxos && s'.d.pending == s.d.pending
    && s'.cfg == s.cfg && s'.failed == s.failed && s'.toMark == s.toMark
    && s'.h.seeds == s.h.seeds && s'.h.committed == s.h.committed && s'.h.sent == s.h.sent
    && s'.tasks == Requeue(s.tasks)
    && (s'.phase == Halted || (s'.phase == Running && !s.failed))
  }

  lemma RequeueKeepsOwner(s: State, s': State, op: OutPoint, tx: Tx)
    requires TasksFitPhase(s) && Requeues(s, s') && MayOwn(s, op, tx)
    ensures MayOwn(s', op, tx)
  {
    hide BuildSustain, HopAttempt;
  }

  lemma RequeueKeepsRecords(s: State, s': State)
    requires TasksFitPhase(s) && Requeues(s, s') && RecordsOwned(s)
    ensures RecordsOwned(s')
  {
    hide MayOwn, TasksFitPhase, Requeue;
    assert Replayables(s'.d) == Replayables(s.d);
    forall key | key in Replayables(s.d) ensures MayOwn(s', key.input, TxOf(key, Decode(key, s.d.pending[key]))) {
      RequeueKeepsOwner(s, s', key.input, TxOf(key, Decode(key, s.d.pending[key])));
    }
  }

  lemma RequeueKeepsSent(s: State, s': State)
    requires TasksFitPhase(s) && Requeues(s, s') && SentOwned(s)
    ensures SentOwned(s')
  {
    hide MayOwn, TasksFitPhase, Born;
    forall tx | tx in s.h.sent && tx.input.op in s'.tasks ensures MayOwn(s', tx.input.op, tx) {
      RequeueKeepsOwner(s, s', tx.input.op, tx);
    }
  }

  lemma RequeueHolds(tasks: map<OutPoint, Task>)
    ensures Requeue(tasks).Keys == tasks.Keys
    ensures forall op :: op in tasks ==>
      && Requeue(tasks)[op].Held() == tasks[op].Held()
      && (!tasks[op].Active() ==> Requeue(tasks)[op].Queued? || Requeue(tasks)[op] == tasks[op])
      && !Requeue(tasks)[op].Produced?
  {
  }

  lemma RequeueFits(s: State, s': State)
    requires TasksFitPhase(s) && Tracked(s) && Requeues(s, s')
    ensures TasksFitPhase(s') && Tracked(s')
  {
    hide HopAttempt, Replayables, Requeue;
    RequeueHolds(s.tasks);
  }

  /** Pushing the outputs of all fanouts changes no owner that matters, whether or not some fanout failed. */
  lemma RequeueKeepsInv(s: State, s': State)
    requires Inv(s) && Requeues(s, s')
    ensures Inv(s')
  {
    hide Mirror, WriteAhead, Tracked, RecordsOwned, SentOwned, TasksFitPhase, Requeue;
    SameRecordsSameCondition(s.d, s'.d);
    RequeueKeepsRecords(s, s');
    RequeueKeepsSent(s, s');
    RequeueFits(s, s');
  }

  lemma FinishL2Step(s: State, wrote: bool)
    requires Inv(s) && Enabled(s, FinishL2(wrote))
    ensures Inv(Do(s, FinishL2(wrote)))
  {
    hide Inv, ProducedCount, Requeue;
    RequeueKeepsInv(s, Do(s, FinishL2(wrote)));
  }

  lemma FundStep(s: State, us: map<OutPoint, UTXO>)
    requires Inv(s) && Enabled(s, Fund(us))
    ensures Inv(Do(s, Fund(us)))
  {
    hide Inv;
    IdleHasSentNothing(s);
    FundedKeepsInv(s, Do(s, Fund(us)), us);
  }

  lemma IdleHasSentNothing(s: State)
    requires Inv(s) && s.phase == Idle
    ensures s.h.sent == {} && Replayables(s.d) == {} && !s.failed && s.toMark.None?
    ensures Mirror(s.d.utxos, s.h.seeds, s.h.committed)
  {
    hide Mirror, WriteAhead, RecordsOwned, SentOwned, Replayables;
  }

  lemma FundedKeepsInv(s: State, s': State, us: map<OutPoint, UTXO>)
    requires Mirror(s.d.utxos, s.h.seeds, s.h.committed) && s.d.utxos == map[] && Replayables(s.d) == {}
    requires forall op :: op in us ==> op.txid.External? && us[op].op == op && us[op].value > 0 && op !in s.h.seeds
    requires s'.d == s.d.(utxos := us) && s'.phase == Idle && !s'.failed && s'.toMark.None?
    requires s'.tasks == map op | op in us :: Queued(us[op])
    requires s'.h.seeds == s.h.seeds + us && s'.h.committed == s.h.committed && s'.h.sent == {}
    ensures Inv(s')
  {
    hide Mirror, Born, MayOwn;
    FundKeepsMirror(s.d.utxos, s.h.seeds, s.h.committed, us);
    assert Replayables(s'.d) == {};
  }

  /** New external outputs enter an empty store. */
  lemma FundKeepsMirror(utxos: Utxos, seeds: Utxos, committed: Spends, us: Utxos)
    requires Mirror(utxos, seeds, committed) && utxos == map[]
    requires forall op :: op in us ==> op.txid.External? && us[op].op == op && us[op].value > 0 && op !in seeds
    ensures Mirror(us, seeds + us, committed)
  {
    forall op {:trigger op in us} {:trigger Born(seeds + us, committed, op)}
      ensures op in us <==> Born(seeds + us, committed, op) && op !in committed
      ensures op in us ==> Born(seeds + us, committed, op) && us[op] == BornAs(seeds + us, committed, op)
      ensures op in committed ==>
        Born(seeds + us, committed, op) && committed[op].input == BornAs(seeds + us, committed, op)
    {
      assert Born(seeds, committed, op) ==> op in committed;
    }
  }

  /** Every action keeps the invariant. */
  lemma Step(s: State, a: Action)
    requires Inv(s) && Enabled(s, a)
    ensures Inv(Do(s, a))
  {
    hide Mirror, WriteAhead, Tracked, RecordsOwned, SentOwned, TasksFitPhase, Replayables;
    match a {
      case Fund(us) => FundStep(s, us);
      case Configure(cfg) => ConfigureStep(s, cfg);
      case Dispatch(order, wrote) => DispatchStep(s, order, wrote);
      case MarkL1(wrote) => MarkL1Step(s, wrote);
      case StartL2(order, wrote) => StartL2Step(s, order, wrote);
      case FinishL2(wrote) => FinishL2Step(s, wrote);
      case Save(op, ok, now) => if ok { SaveStep(s, op, now); } else { MoveStep(s, a); }
      case Deliver(tx) => DeliverStep(s, tx);
      case Commit(op, ok) => if ok { CommitStep(s, op); } else { MoveStep(s, a); }
      case Clear(op, cleared, retry) => ClearStep(s, op, cleared, retry);
      case Crash => CrashStep(s);
      case Garble(key, stored) => GarbleStep(s, key, stored);
      case ReplayCommit(key) => ReplayCommitStep(s, key);
      case ReplayMark(wrote) => ReplayMarkStep(s, wrote);
      case Boot(cfg, wrote) => BootStep(s, cfg, wrote);
      case BuildL2(_) => MoveStep(s, a);
      case PopChain(_) => MoveStep(s, a);
      case BuildHop(_) => MoveStep(s, a);
      case Reply(_, _) => MoveStep(s, a);
      case Panic(_) => MoveStep(s, a);
    }
  }

  lemma ConfigureStep(s: State, cfg: Config)
    requires Inv(s) && Enabled(s, Configure(cfg))
    ensures Inv(Do(s, Configure(cfg)))
  {
    hide Mirror, WriteAhead, Replayables;
  }

  lemma DeliverStep(s: State, tx: Tx)
    requires Inv(s) && Enabled(s, Deliver(tx))
    ensures Inv(Do(s, Deliver(tx)))
  {
    hide Inv;
    LookalikeKeepsInv(s, Do(s, Deliver(tx)));
  }

  lemma ReplayMarkStep(s: State, wrote: bool)
    requires Inv(s) && Enabled(s, ReplayMark(wrote))
    ensures Inv(Do(s, ReplayMark(wrote)))
  {
    hide Mirror, WriteAhead, Replayables;
    MetaKeepsInv(s, s.toMark.value, wrote);
  }

  /** The invariant holds in every state of every run, whatever crashes and failures it contains. */
  lemma {:induction false} RunKeepsInv(states: seq<State>, actions: seq<Action>, i: nat)
    requires IsRun(states, actions) && i < |states|
    ensures Inv(states[i])
  {
    hide Inv;
    if i == 0 {
      InitHolds(states[0]);
    } else {
      RunKeepsInv(states, actions, i - 1);
      Step(states[i - 1], actions[i - 1]);
    }
  }

  // --------------------------------------------------------------------- frames

  lemma EndFrame(s: State, op: OutPoint)
    requires op in s.tasks
    ensures SameLedger(s, Drop(s, op)) && forall kind :: SameLedger(s, GiveUp(s, op, kind))
  {
  }

  lemma BuildFrame(s: State, op: OutPoint)
    requires op in s.tasks
    ensures s.tasks[op].Parent? ==> SameLedger(s, DoBuildL2(s, op))
    ensures s.tasks[op].ChainTop? ==> SameLedger(s, DoBuildHop(s, op))
    ensures SameLedger(s, Drop(s, op))
  {
    hide BuildFanout, BuildSustain, Drop, GiveUp;
    EndFrame(s, op);
  }

  /** The UTXOs and what they come from. */
  ghost predicate SameUtxos(s: State, s': State) {
    s'.d.utxos == s.d.utxos && s'.h.seeds == s.h.seeds && s'.h.committed == s.h.committed
  }

  lemma SaveOrClearFrame(s: State, op: OutPoint, flag: bool, retry: bool, now: nat)
    requires op in s.tasks
    ensures s.tasks[op].Trying? ==> SameUtxos(s, DoSave(s, op, flag, now))
    ensures s.tasks[op].ToClear? ==> SameUtxos(s, DoClear(s, op, flag, retry))
    ensures s.tasks[op].ToCommit? ==> SameUtxos(s, DoCommit(s, op, false))
  {
    hide RecordOf;
  }

  lemma PlainFrame(s: State, a: Action)
    requires Enabled(s, a)
    requires a.Configure? || a.MarkL1? || a.PopChain? || a.Deliver? || a.Reply? || a.Crash? || a.Garble? ||
      a.ReplayMark?
    ensures SameUtxos(s, Do(s, a))
  {
    hide Replayables;
  }

  lemma WholesaleFrame(s: State, a: Action)
    requires Enabled(s, a) && (a.FinishL2? || a.Boot?)
    ensures SameUtxos(s, Do(s, a))
  {
    hide ProducedCount, Replayables, Requeue;
  }

  /** Only funding, commits and replayed commits change the UTXOs. */
  lemma LedgerFrame(s: State, a: Action)
    requires Enabled(s, a) && !a.Fund? && !a.ReplayCommit? && (a.Commit? ==> !a.ok)
    ensures SameUtxos(s, Do(s, a))
  {
    hide Bootstrap, BeginL2, DoBuildL2, DoBuildHop, Drop, DoSave, DoClear, DoCommit, IsOrder, ProducedCount,
         Replayables, SetMeta, DoBoot, DoReply;
    match a {
      case Dispatch(order, wrote) => BootstrapFrame(s.(locked := true), order, wrote);
      case StartL2(order, wrote) => BeginL2Frame(s, order, wrote);
      case BuildL2(op) => BuildFrame(s, op);
      case BuildHop(op) => BuildFrame(s, op);
      case Panic(op) => BuildFrame(s, op);
      case Save(op, ok, now) => SaveOrClearFrame(s, op, ok, false, now);
      case Commit(op, _) => SaveOrClearFrame(s, op, false, false, 0);
      case Clear(op, cleared, retry) => SaveOrClearFrame(s, op, cleared, retry, 0);
      case FinishL2(_) => WholesaleFrame(s, a);
      case Boot(_, _) => WholesaleFrame(s, a);
      case _ => PlainFrame(s, a);
    }
  }
}
