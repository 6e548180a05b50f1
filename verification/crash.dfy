/**
 Crash refinement: what the store holds after recovery, compared with what the
 network accepted. Conditional on what the design relies on: an error from the
 broadcaster means the transaction was not accepted, a record found at startup
 belongs to an accepted transaction, and no record that could be replayed goes
 bad on disk.
 */
module CrashSafety {
  import opened Ledger
  import opened StoreSpec
  import opened TxBuilder
  import opened Replay
  import opened Widths
  import opened Engine
  import opened Safety
  import opened SafetySteps

  /** tx has a pending record. */
  predicate Recorded(d: Durable, tx: Tx) {
    && IdOf(tx) in Replayables(d)
    && Faithful(IdOf(tx), Decode(IdOf(tx), d.pending[IdOf(tx)]))
    && TxOf(IdOf(tx), Decode(IdOf(tx), d.pending[IdOf(tx)])) == tx
  }

  /** The contracts, as far as the history has tested them. */
  predicate Contracts(h: History) {
    h.honest && h.trusted && h.intact
  }

  /** tx has been applied to the store, or its record is there for recovery to apply. */
  predicate Settled(s: State, tx: Tx) {
    (tx.input.op in s.h.committed && s.h.committed[tx.input.op] == tx) || Recorded(s.d, tx)
  }

  predicate Answering(t: Task) {
    t.Saved? || t.ToCommit? || t.ToClear?
  }

  /** A broadcast has its record until it is committed or cleared; nil meant accepted; an honest error meant refused. */
  ghost predicate BroadcastsRecorded(s: State) {
    && (forall op :: op in s.tasks && Answering(s.tasks[op]) ==> Recorded(s.d, s.tasks[op].tx))
    && (forall op :: op in s.tasks && s.tasks[op].ToCommit? ==> s.tasks[op].tx in s.h.accepted)
    && (forall op :: op in s.tasks && s.tasks[op].ToClear? ==> s.tasks[op].tx !in s.h.inFlight)
    && (s.h.honest ==> forall op :: op in s.tasks && s.tasks[op].ToClear? ==> s.tasks[op].tx !in s.h.accepted)
  }

  /** The store has applied only accepted transactions, and every accepted one is applied or on record. */
  ghost predicate Synced(s: State) {
    Contracts(s.h) ==>
      && (forall op :: op in s.h.committed ==> s.h.committed[op] in s.h.accepted)
      && (forall tx :: tx in s.h.accepted ==> Settled(s, tx))
  }

  /** What the network may still accept, of this run or of one that crashed, is applied or on record as well. */
  ghost predicate FlightsSettled(s: State) {
    s.h.intact ==> forall tx :: tx in s.h.inFlight ==> Settled(s, tx)
  }

  ghost predicate CrashInv(s: State) {
    BroadcastsRecorded(s) && Synced(s) && FlightsSettled(s)
  }

  /** A step that leaves pending records, commits and acceptances alone, and starts no reply. */
  ghost predicate Unrelated(s: State, s': State) {
    && s'.d.pending == s.d.pending && s'.h.committed == s.h.committed && s'.h.accepted == s.h.accepted
    && s'.h.honest == s.h.honest && s'.h.trusted == s.h.trusted
    && s'.h.inFlight == s.h.inFlight && s'.h.intact == s.h.intact
    && (forall op :: op in s'.tasks && Answering(s'.tasks[op]) ==> op in s.tasks && s'.tasks[op] == s.tasks[op])
  }

  lemma UnrelatedKeeps(s: State, s': State)
    requires CrashInv(s) && Unrelated(s, s')
    ensures CrashInv(s')
  {
    assert Replayables(s'.d) == Replayables(s.d);
  }

  lemma SavedStaysRecorded(s: State, op: OutPoint, now: nat)
    requires Inv(s) && op in s.tasks && s.tasks[op].Trying?
    ensures Recorded(DoSave(s, op, true, now).d, s.tasks[op].tx)
    ensures forall t :: Recorded(s.d, t) ==> Recorded(DoSave(s, op, true, now).d, t)
  {
    hide Inv, Created;
    var s', tx := DoSave(s, op, true, now), s.tasks[op].tx;
    SavedRecord(s.d, tx, StageOf(s.tasks[op].kind), now);
    forall t | Recorded(s.d, t) ensures Recorded(s'.d, t) {
      if IdOf(t) == IdOf(tx) { SameRecord(s, op, t); }
    }
  }

  lemma SaveCrash(s: State, op: OutPoint, now: nat)
    requires Inv(s) && CrashInv(s) && op in s.tasks && s.tasks[op].Trying?
    ensures CrashInv(DoSave(s, op, true, now))
  {
    hide Inv, Recorded, SavePending;
    SavedStaysRecorded(s, op, now);
    forall op' | op' in s.tasks && s.tasks[op'].ToClear? ensures s.tasks[op'].tx != s.tasks[op].tx {
      HeldOp(s, op);
      HeldOp(s, op');
    }
  }

  /** The record of the owner's transaction is of that transaction. */
  lemma SameRecord(s: State, op: OutPoint, t: Tx)
    requires Inv(s) && op in s.tasks && (s.tasks[op].Trying? || s.tasks[op].ToClear? || s.tasks[op].ToCommit?)
    requires Recorded(s.d, t) && IdOf(t) == IdOf(s.tasks[op].tx)
    ensures t == s.tasks[op].tx
  {
    hide Mirror, Born, WriteAhead, SentOwned, TasksFitPhase;
    NotDown(s, op);
    HeldIsBorn(s, op);
    assert MayOwn(s, op, t);
  }

  /** Removing the record of op's transaction leaves every other record alone. */
  lemma OthersStayRecorded(s: State, op: OutPoint, d': Durable)
    requires Inv(s) && op in s.tasks && (s.tasks[op].ToClear? || s.tasks[op].ToCommit?)
    requires d'.pending == s.d.pending - {IdOf(s.tasks[op].tx)}
    ensures forall t :: Recorded(s.d, t) && t != s.tasks[op].tx ==> Recorded(d', t)
    ensures forall op' :: op' in s.tasks && op' != op && Answering(s.tasks[op']) ==> s.tasks[op'].tx != s.tasks[op].tx
  {
    hide Inv;
    var tx := s.tasks[op].tx;
    forall t | Recorded(s.d, t) && t != tx ensures Recorded(d', t) {
      if IdOf(t) == IdOf(tx) { SameRecord(s, op, t); }
    }
    forall op' | op' in s.tasks && op' != op && Answering(s.tasks[op']) ensures s.tasks[op'].tx != tx {
      HeldOp(s, op);
      HeldOp(s, op');
    }
  }

  lemma HeldOp(s: State, op: OutPoint)
    requires Inv(s) && op in s.tasks
    ensures s.tasks[op].Held().op == op && op !in s.h.committed
  {
    hide Mirror, WriteAhead, RecordsOwned, SentOwned, TasksFitPhase;
    HeldIsBorn(s, op);
  }

  /** The record of a refused transaction goes together with the attempt. */
  lemma ClearedCrash(s: State, s': State, op: OutPoint, t: Task)
    requires Inv(s) && CrashInv(s) && op in s.tasks && s.tasks[op].ToClear? && !Answering(t)
    requires s'.d == ClearPending(s.d, IdOf(s.tasks[op].tx)) && s'.h == s.h && s'.tasks == s.tasks[op := t]
    ensures CrashInv(s')
  {
    hide Inv, Recorded;
    OthersStayRecorded(s, op, ClearPending(s.d, IdOf(s.tasks[op].tx)));
  }

  lemma ClearCrash(s: State, op: OutPoint, cleared: bool, retry: bool)
    requires Inv(s) && CrashInv(s) && op in s.tasks && s.tasks[op].ToClear?
    ensures CrashInv(DoClear(s, op, cleared, retry))
  {
    hide Inv, CrashInv, Unrelated;
    var s' := DoClear(s, op, cleared, retry);
    if cleared {
      ClearedCrash(s, s', op, s'.tasks[op]);
    } else {
      OneTaskIsUnrelated(s, s', op, s'.tasks[op]);
      UnrelatedKeeps(s, s');
    }
  }

  lemma CommitKeepsBroadcasts(s: State, op: OutPoint)
    requires Inv(s) && BroadcastsRecorded(s) && op in s.tasks && s.tasks[op].ToCommit?
    ensures BroadcastsRecorded(DoCommit(s, op, true))
  {
    hide Inv, Recorded, PutAll, NewTasks;
    NewTaskKinds(s.tasks[op].kind, s.tasks[op].tx);
    OthersStayRecorded(s, op, DoCommit(s, op, true).d);
  }

  lemma CommitKeepsSynced(s: State, op: OutPoint)
    requires Inv(s) && CrashInv(s) && op in s.tasks && s.tasks[op].ToCommit?
    ensures Synced(DoCommit(s, op, true)) && FlightsSettled(DoCommit(s, op, true))
  {
    hide Inv, Recorded, PutAll, NewTasks;
    HeldOp(s, op);
    OthersStayRecorded(s, op, DoCommit(s, op, true).d);
  }

  lemma ReplayCrash(s: State, key: TxId)
    requires Inv(s) && CrashInv(s) && s.phase == Down && key in Replayables(s.d)
    ensures Faithful(key, Decode(key, s.d.pending[key]))
    ensures CrashInv(DoReplayCommit(s, key))
  {
    hide Mirror, RecordsOwned, SentOwned, TasksFitPhase, CommitPending, Spendable;
    var s' := DoReplayCommit(s, key);
    ReplayOneIsSpend(s.d, key);
    DurableNotCommitted(s, key);
    var tx := TxOf(key, Decode(key, s.d.pending[key]));
    forall t | Recorded(s.d, t) && t != tx ensures Recorded(s'.d, t) {}
  }

  lemma DurableNotCommitted(s: State, key: TxId)
    requires Mirror(s.d.utxos, s.h.seeds, s.h.committed) && WriteAhead(s.d) && key in Replayables(s.d)
    ensures key.input !in s.h.committed
  {
  }

  lemma ReplyCrash(s: State, op: OutPoint, accepted: bool)
    requires CrashInv(s) && op in s.tasks && s.tasks[op].Saved? && (accepted ==> s.tasks[op].tx in s.h.accepted)
    ensures CrashInv(DoReply(s, op, accepted))
  {
    hide Recorded;
  }

  lemma DeliverCrash(s: State, tx: Tx)
    requires CrashInv(s) && Enabled(s, Deliver(tx))
    ensures CrashInv(Do(s, Deliver(tx)))
  {
    hide Recorded, Replayables;
  }

  lemma GarbleCrash(s: State, key: TxId, stored: Stored)
    requires Inv(s) && CrashInv(s) && Enabled(s, Garble(key, stored))
    ensures CrashInv(Do(s, Garble(key, stored)))
  {
    hide Mirror, WriteAhead, RecordsOwned, SentOwned, TasksFitPhase;
    GarbledRecord(s.d, Do(s, Garble(key, stored)).d, key, stored);
  }

  lemma BeginL1IsUnrelated(s: State, op: OutPoint, wrote: bool)
    requires op in s.tasks
    ensures Unrelated(s, BeginL1(s, op, wrote))
  {
    hide BuildFanout;
  }

  lemma BeginL2IsUnrelated(s: State, order: seq<OutPoint>, wrote: bool)
    requires s.cfg.Valid() && IsOrder(order, s.tasks.Keys)
    ensures Unrelated(s, BeginL2(s, order, wrote))
  {
    hide IsOrder, Parents, L2Widths;
    ParentsHold(s.tasks, order, s.cfg.numChains);
  }

  lemma ResumeIsUnrelated(s: State, wrote: bool)
    ensures Unrelated(s, Resume(s, true, wrote)) && Unrelated(s, Resume(s, false, wrote)) && Unrelated(s, Halt(s))
  {
  }

  lemma BootstrapIsUnrelated(s: State, order: seq<OutPoint>, wrote: bool)
    requires s.cfg.Valid() && IsOrder(order, s.tasks.Keys)
    ensures Unrelated(s, Bootstrap(s, order, wrote))
  {
    hide BeginL1, BeginL2, Unrelated, Resume, Halt;
    BeginL2IsUnrelated(s, order, wrote);
    ResumeIsUnrelated(s, wrote);
    if |order| == 1 { BeginL1IsUnrelated(s, order[0], wrote); }
  }

  lemma OneTaskIsUnrelated(s: State, s': State, op: OutPoint, t: Task)
    requires op in s.tasks && s'.tasks == s.tasks[op := t] && !Answering(t)
    requires s'.d == s.d && s'.h == s.h
    ensures Unrelated(s, s')
  {
  }

  lemma LocalIsUnrelated(s: State, op: OutPoint)
    requires op in s.tasks
    ensures Unrelated(s, Drop(s, op))
    ensures forall kind :: Unrelated(s, GiveUp(s, op, kind))
  {
    hide Unrelated;
    OneTaskIsUnrelated(s, Drop(s, op), op, Drop(s, op).tasks[op]);
    forall kind ensures Unrelated(s, GiveUp(s, op, kind)) {
      OneTaskIsUnrelated(s, GiveUp(s, op, kind), op, GiveUp(s, op, kind).tasks[op]);
    }
  }

  lemma BuildIsUnrelated(s: State, op: OutPoint)
    requires op in s.tasks
    ensures s.tasks[op].Parent? ==> Unrelated(s, DoBuildL2(s, op))
    ensures s.tasks[op].ChainTop? ==> Unrelated(s, DoBuildHop(s, op))
  {
    hide BuildFanout, BuildSustain;
  }

  lemma QuietStepIsUnrelated(s: State, a: Action)
    requires Enabled(s, a) && (a.Fund? || a.Configure? || a.MarkL1? || a.PopChain? || a.Crash? || a.ReplayMark?)
    ensures Unrelated(s, Do(s, a))
  {
    hide Replayables;
  }

  lemma RequeueIsUnrelated(s: State, s': State)
    requires s'.d.pending == s.d.pending && s'.h == s.h.(metaOk := s'.h.metaOk)
    requires s'.tasks == Requeue(s.tasks) && forall op :: op in s.tasks ==> !s.tasks[op].Active()
    ensures Unrelated(s, s')
  {
    hide Requeue;
    RequeueHolds(s.tasks);
  }

  lemma FinishIsUnrelated(s: State, wrote: bool)
    requires Enabled(s, FinishL2(wrote))
    ensures Unrelated(s, Do(s, FinishL2(wrote)))
  {
    hide ProducedCount, Requeue, Unrelated;
    RequeueIsUnrelated(s, Do(s, FinishL2(wrote)));
  }

  /** The steps that send, answer and apply nothing. */
  lemma OtherSteps(s: State, a: Action)
    requires Enabled(s, a)
    requires !a.Deliver? && !a.Reply? && !a.Clear? && !a.ReplayCommit? && !a.Garble?
    requires (a.Save? ==> !a.ok) && (a.Commit? ==> !a.ok)
    ensures Unrelated(s, Do(s, a))
  {
    hide Unrelated, Replayables, ProducedCount, IsOrder, Bootstrap, BeginL2, Drop, GiveUp, DoBuildL2, DoBuildHop,
         DoBoot;
    match a {
      case Dispatch(order, wrote) =>
        BootstrapIsUnrelated(s.(locked := true), order, wrote);
        LockIsUnrelated(s, Do(s, a));
      case StartL2(order, wrote) => BeginL2IsUnrelated(s, order, wrote);
      case BuildL2(op) => BuildIsUnrelated(s, op);
      case BuildHop(op) => BuildIsUnrelated(s, op);
      case Save(op, _, _) => LocalIsUnrelated(s, op);
      case Commit(op, _) => LocalIsUnrelated(s, op);
      case Panic(op) => LocalIsUnrelated(s, op);
      case Boot(cfg, wrote) => BootIsUnrelated(s, cfg, wrote);
      case FinishL2(wrote) => FinishIsUnrelated(s, wrote);
      case _ => QuietStepIsUnrelated(s, a);
    }
  }

  lemma LockIsUnrelated(s: State, s': State)
    requires Unrelated(s.(locked := true), s')
    ensures Unrelated(s, s')
  {
  }

  lemma BootIsUnrelated(s: State, cfg: Config, wrote: bool)
    ensures Unrelated(s, DoBoot(s, cfg, wrote))
  {
  }

  lemma CrashStepKeeps(s: State, a: Action)
    requires Inv(s) && CrashInv(s) && Enabled(s, a)
    ensures CrashInv(Do(s, a))
  {
    hide Inv, BroadcastsRecorded, Synced, FlightsSettled, Replayables, WriteAhead, Unrelated;
    match a {
      case Save(op, ok, now) => if ok { SaveCrash(s, op, now); } else { OtherSteps(s, a); UnrelatedKeeps(s, Do(s, a)); }
      case Deliver(tx) => DeliverCrash(s, tx);
      case Garble(key, stored) => GarbleCrash(s, key, stored);
      case Reply(op, accepted) => ReplyCrash(s, op, accepted);
      case Commit(op, ok) =>
        if ok {
          CommitKeepsBroadcasts(s, op);
          CommitKeepsSynced(s, op);
        } else {
          OtherSteps(s, a);
          UnrelatedKeeps(s, Do(s, a));
        }
      case Clear(op, cleared, retry) => ClearCrash(s, op, cleared, retry);
      case ReplayCommit(key) => ReplayCrash(s, key);
      case _ => OtherSteps(s, a); UnrelatedKeeps(s, Do(s, a));
    }
  }

  lemma {:induction false} RunKeepsCrashInv(states: seq<State>, actions: seq<Action>, i: nat)
    requires IsRun(states, actions) && i < |states|
    ensures CrashInv(states[i])
  {
    hide Enabled, Do, Inv;
    if i > 0 {
      hide Init, CrashInv;
      RunKeepsCrashInv(states, actions, i - 1);
      RunKeepsInv(states, actions, i - 1);
      CrashStepKeeps(states[i - 1], actions[i - 1]);
    }
  }
}
