/** The crash-safety theorems, over every run of the engine. */
module CrashTheorems {
  import opened Outcomes
  import opened Ledger
  import opened Stages
  import opened StoreSpec
  import opened TxBuilder
  import opened Replay
  import opened Engine
  import opened Safety
  import opened SafetySteps
  import opened CrashSafety

  /** On a ledger of funding outputs and transactions, u is a positive output at op that nothing spends. */
  ghost predicate Unspent(seeds: Utxos, txs: set<Tx>, op: OutPoint, u: UTXO) {
    && ((op in seeds && seeds[op] == u) || exists tx :: tx in txs && op in Spendable(tx) && Spendable(tx)[op] == u)
    && forall tx :: tx in txs ==> tx.input.op != op
  }

  ghost predicate HoldsExactlyUnspent(utxos: Utxos, seeds: Utxos, txs: set<Tx>) {
    forall op, u :: (op in utxos && utxos[op] == u) <==> Unspent(seeds, txs, op, u)
  }

  /** Every record that recovery would apply belongs to an accepted transaction. */
  ghost predicate RecordsAccepted(d: Durable, accepted: set<Tx>) {
    forall key :: key in Replayables(d) ==>
      Faithful(key, Decode(key, d.pending[key])) && TxOf(key, Decode(key, d.pending[key])) in accepted
  }

  /** An accepted transaction that spends op is committed at op, or recorded by the one record that spends op. */
  lemma WhoSpends(s: State, tx: Tx)
    requires Inv(s) && CrashInv(s) && Contracts(s.h) && tx in s.h.accepted
    ensures (tx.input.op in s.h.committed && s.h.committed[tx.input.op] == tx)
      || (Recorded(s.d, tx) && tx.input.op in s.d.utxos && tx.input.op !in s.h.committed)
  {
    hide RecordsOwned, SentOwned, TasksFitPhase, Tracked, Born;
  }

  lemma CommittedSpends(s: State, op: OutPoint)
    requires Inv(s) && op in s.h.committed
    ensures s.h.committed[op].input.op == op && op !in s.d.utxos && Born(s.h.seeds, s.h.committed, op)
  {
    hide RecordsOwned, SentOwned, TasksFitPhase, Tracked, WriteAhead;
    CommittedIsBorn(s.d.utxos, s.h.seeds, s.h.committed, op);
  }

  /** A durable UTXO that no record spends is unspent on the network. */
  lemma DurableIsUnspent(s: State, op: OutPoint)
    requires Inv(s) && CrashInv(s) && Contracts(s.h) && op in s.d.utxos
    requires forall tx :: tx in s.h.accepted && tx.input.op == op ==> !Recorded(s.d, tx)
    ensures Unspent(s.h.seeds, s.h.accepted, op, s.d.utxos[op])
  {
    hide RecordsOwned, SentOwned, TasksFitPhase, Tracked, WriteAhead, Recorded;
    assert Born(s.h.seeds, s.h.committed, op) && s.d.utxos[op] == BornAs(s.h.seeds, s.h.committed, op);
    forall tx | tx in s.h.accepted ensures tx.input.op != op {
      if tx.input.op == op { WhoSpends(s, tx); }
    }
    if op !in s.h.seeds {
      var tx := s.h.committed[op.txid.input];
      assert op in Spendable(tx) && Spendable(tx)[op] == s.d.utxos[op];
    }
  }

  /** An accepted transaction whose record is gone has been committed. */
  lemma UnspentIsBorn(s: State, op: OutPoint, u: UTXO)
    requires Inv(s) && CrashInv(s) && Contracts(s.h)
    requires Unspent(s.h.seeds, s.h.accepted, op, u) && op.txid !in Replayables(s.d)
    ensures Born(s.h.seeds, s.h.committed, op) && (op !in s.h.seeds ==> BornAs(s.h.seeds, s.h.committed, op) == u)
    ensures op in s.h.seeds ==> s.h.seeds[op] == u
  {
    hide Inv, CrashInv, Replayables;
    if op in s.h.seeds { FundedIsExternal(s, op); }
    if !(op in s.h.seeds && s.h.seeds[op] == u) {
      var tx :| tx in s.h.accepted && op in Spendable(tx) && Spendable(tx)[op] == u;
      WhoSpends(s, tx);
      assert CreatedBy(op, tx);
    }
  }

  lemma FundedIsExternal(s: State, op: OutPoint)
    requires Inv(s) && op in s.h.seeds
    ensures op.txid.External?
  {
    hide RecordsOwned, SentOwned, TasksFitPhase, Tracked, WriteAhead;
  }

  lemma BornUnlessCommitted(s: State, op: OutPoint)
    requires Inv(s) && Born(s.h.seeds, s.h.committed, op) && op !in s.h.committed
    ensures op in s.d.utxos && s.d.utxos[op] == BornAs(s.h.seeds, s.h.committed, op)
  {
    hide RecordsOwned, SentOwned, TasksFitPhase, Tracked, WriteAhead, Born;
  }

  /** An output unspent on the network that no record creates is durable. */
  lemma UnspentIsDurable(s: State, op: OutPoint, u: UTXO)
    requires Inv(s) && CrashInv(s) && Contracts(s.h)
    requires Unspent(s.h.seeds, s.h.accepted, op, u) && op.txid !in Replayables(s.d)
    ensures op in s.d.utxos && s.d.utxos[op] == u
  {
    hide Inv, Replayables, Recorded, Spendable, Born, BroadcastsRecorded;
    if op in s.h.committed { CommittedSpends(s, op); }
    UnspentIsBorn(s, op, u);
    BornUnlessCommitted(s, op);
  }

  /** The outputs of an accepted record are unspent on the network, and are what recovery creates. */
  lemma RecordOutputs(s: State, op: OutPoint, u: UTXO)
    requires Inv(s) && CrashInv(s) && Contracts(s.h)
    requires op.txid in Replayables(s.d) && RecordsAccepted(s.d, s.h.accepted)
    ensures Recovered(s.d, op, u) <==> Unspent(s.h.seeds, s.h.accepted, op, u)
  {
    hide RecordsOwned, SentOwned, TasksFitPhase, Tracked;
    var key := op.txid;
    var tx := TxOf(key, Decode(key, s.d.pending[key]));
    OutputsAreFresh(s.d.utxos, s.h.seeds, s.h.committed, tx, op);
    forall t | t in s.h.accepted ensures t.input.op != op {
      if t.input.op == op { WhoSpends(s, t); }
    }
    hide WriteAhead, Mirror;
    if Recovered(s.d, op, u) {
      assert op in Spendable(tx) && Spendable(tx)[op] == u;
    }
  }

  lemma AcceptedRecordsRecover(s: State, op: OutPoint, u: UTXO)
    requires Inv(s) && CrashInv(s) && Contracts(s.h) && RecordsAccepted(s.d, s.h.accepted)
    ensures Recovered(s.d, op, u) <==> Unspent(s.h.seeds, s.h.accepted, op, u)
  {
    hide Inv, CrashInv, Unspent, Replayables;
    if op.txid in Replayables(s.d) {
      RecordOutputs(s, op, u);
    } else {
      if Recovered(s.d, op, u) {
        forall tx | tx in s.h.accepted && tx.input.op == op ensures !Recorded(s.d, tx) {}
        DurableIsUnspent(s, op);
      }
      if Unspent(s.h.seeds, s.h.accepted, op, u) {
        UnspentIsDurable(s, op, u);
        forall key | key in Replayables(s.d) && key.Spend? && key.input == op ensures false {
          SpentByRecord(s, key, op, u);
        }
      }
    }
  }

  lemma SpentByRecord(s: State, key: TxId, op: OutPoint, u: UTXO)
    requires RecordsAccepted(s.d, s.h.accepted) && key in Replayables(s.d) && key.Spend? && key.input == op
    ensures !Unspent(s.h.seeds, s.h.accepted, op, u)
  {
    var tx := TxOf(key, Decode(key, s.d.pending[key]));
    assert tx in s.h.accepted && tx.input.op == op;
  }

  /** A record that was not accepted makes recovery drop an output that is unspent on the network. */
  lemma UnacceptedRecordLoses(s: State, key: TxId)
    requires Inv(s) && CrashInv(s) && Contracts(s.h)
    requires key in Replayables(s.d) && Faithful(key, Decode(key, s.d.pending[key]))
    requires TxOf(key, Decode(key, s.d.pending[key])) !in s.h.accepted
    ensures key.input in s.d.utxos
    ensures Unspent(s.h.seeds, s.h.accepted, key.input, s.d.utxos[key.input])
    ensures !Recovered(s.d, key.input, s.d.utxos[key.input])
  {
    hide RecordsOwned, SentOwned, TasksFitPhase, Tracked, Mirror, Unspent;
    forall tx | tx in s.h.accepted && tx.input.op == key.input ensures !Recorded(s.d, tx) {
      assert Recorded(s.d, tx) ==> IdOf(tx) == key;
    }
    DurableIsUnspent(s, key.input);
  }

  /**
   The exact condition for crash safety. From any state reached under the
   contracts, crash there and recover in any order with any interruptions: the
   store then holds exactly the unspent outputs of the accepted transactions if
   and only if every record left behind had been accepted.
   */
  lemma RecoveryIsExactIff(states: seq<State>, actions: seq<Action>, i: nat, steps: seq<RecoveryStep>, end: Durable)
    requires IsRun(states, actions) && i < |states| && Contracts(states[i].h)
    requires IsRecovery(states[i].d, steps, end) && Replayables(end) == {}
    ensures HoldsExactlyUnspent(end.utxos, states[i].h.seeds, states[i].h.accepted)
      <==> RecordsAccepted(states[i].d, states[i].h.accepted)
  {
    hide IsRun, CrashInv, Unspent, Recovered, RecordsOwned, SentOwned, TasksFitPhase, Tracked, Mirror, IsRecovery,
         TxOf, Decode;
    var s := states[i];
    RunKeepsInv(states, actions, i);
    RunKeepsCrashInv(states, actions, i);
    RecoveryKeepsTarget(s.d, steps, end);
    RecoveredAtRest(end);
    if RecordsAccepted(s.d, s.h.accepted) {
      forall op, u ensures (op in end.utxos && end.utxos[op] == u) <==> Unspent(s.h.seeds, s.h.accepted, op, u) {
        assert Recovered(end, op, u) <==> Recovered(s.d, op, u);
        AcceptedRecordsRecover(s, op, u);
      }
    } else {
      var key :| key in Replayables(s.d) &&
        !(Faithful(key, Decode(key, s.d.pending[key])) && TxOf(key, Decode(key, s.d.pending[key])) in s.h.accepted);
      UnacceptedRecordLoses(s, key);
      assert Recovered(end, key.input, s.d.utxos[key.input]) <==> Recovered(s.d, key.input, s.d.utxos[key.input]);
    }
  }

  /**
   Crash refinement: in every run in which errors meant "not accepted", every
   replayed record had been accepted and none was damaged on disk, whenever no
   record is left to replay the store holds exactly the unspent positive outputs
   of the accepted transactions.
   */
  lemma CrashRefinement(states: seq<State>, actions: seq<Action>, i: nat)
    requires IsRun(states, actions) && i < |states| && Contracts(states[i].h)
    requires Replayables(states[i].d) == {}
    ensures HoldsExactlyUnspent(states[i].d.utxos, states[i].h.seeds, states[i].h.accepted)
  {
    hide IsRun, HoldsExactlyUnspent;
    assert IsRecovery(states[i].d, [], states[i].d);
    RecoveryIsExactIff(states, actions, i, [], states[i].d);
  }

  /** Under the same contracts, no two accepted transactions ever spend one outpoint. */
  lemma NoDoubleSpend(states: seq<State>, actions: seq<Action>, i: nat, tx: Tx, tx': Tx)
    requires IsRun(states, actions) && i < |states| && Contracts(states[i].h)
    requires tx in states[i].h.accepted && tx' in states[i].h.accepted && tx.input.op == tx'.input.op
    ensures tx == tx'
  {
    hide IsRun, CrashInv, RecordsOwned, SentOwned, TasksFitPhase, Tracked, Mirror;
    var s := states[i];
    RunKeepsInv(states, actions, i);
    RunKeepsCrashInv(states, actions, i);
    WhoSpends(s, tx);
    WhoSpends(s, tx');
  }

  /**
   Whatever the broadcaster answers, the write-ahead condition holds in every
   state of every run, and no recovery from it, complete or not, brings back an
   outpoint that a committed transaction has spent.
   */
  lemma NoReplayResurrects(states: seq<State>, actions: seq<Action>, i: nat, steps: seq<RecoveryStep>, end: Durable)
    requires IsRun(states, actions) && i < |states|
    requires IsRecovery(states[i].d, steps, end)
    ensures WriteAhead(states[i].d)
    ensures forall op :: op in states[i].h.committed ==> op !in end.utxos
  {
    hide IsRun, RecordsOwned, SentOwned, TasksFitPhase, Tracked, IsRecovery;
    var s := states[i];
    RunKeepsInv(states, actions, i);
    forall op | op in s.h.committed ensures op !in end.utxos {
      SpentStaysSpent(s.d, s.h.seeds, s.h.committed, steps, end, op);
    }
  }

  lemma {:induction false} SpentStaysSpent(d: Durable, seeds: Utxos, committed: Spends, steps: seq<RecoveryStep>,
    end: Durable, op: OutPoint)
    requires Mirror(d.utxos, seeds, committed) && WriteAhead(d) && IsRecovery(d, steps, end) && op in committed
    ensures op !in end.utxos
    decreases |steps|
  {
    hide Mirror, Recovered;
    if steps == [] {
      CommittedIsBorn(d.utxos, seeds, committed, op);
    } else {
      var d' := Recover(d, steps[0]);
      match steps[0] {
        case Apply(key) =>
          var tx := TxOf(key, Decode(key, d.pending[key]));
          ReplayOneIsSpend(d, key);
          ReplayOneKeepsWriteAhead(d, key);
          SpendKeepsMirror(d.utxos, seeds, committed, tx);
          SpentStaysSpent(d', seeds, committed[key.input := tx], steps[1..], end, op);
        case WriteStage(stage) =>
          assert Replayables(d') == Replayables(d);
          SpentStaysSpent(d', seeds, committed, steps[1..], end, op);
        case CrashAndRestart => SpentStaysSpent(d, seeds, committed, steps[1..], end, op);
      }
    }
  }

  // ------------------------------------------------ one transaction per outpoint

  /** Only a crash forgets what this run has sent. */
  lemma SentGrows(s: State, a: Action)
    requires Enabled(s, a) && !a.Crash?
    ensures s.h.sent <= Do(s, a).h.sent
    ensures a.Save? && a.ok ==> s.tasks[a.op].tx in Do(s, a).h.sent
  {
    hide Replayables, ProducedCount, IsOrder, Bootstrap, BeginL2, DoSave, DoClear, DoCommit, DoBuildL2, DoBuildHop,
         Drop, DoBoot, SetMeta, Requeue;
    match a {
      case Dispatch(order, wrote) => BootstrapFrame(s.(locked := true), order, wrote);
      case StartL2(order, wrote) => BeginL2Frame(s, order, wrote);
      case Save(op, ok, now) => LocalSent(s, op, ok, false, now);
      case Clear(op, cleared, retry) => LocalSent(s, op, cleared, retry, 0);
      case Commit(op, ok) => LocalSent(s, op, ok, false, 0);
      case BuildL2(op) => BuildFrame(s, op);
      case BuildHop(op) => BuildFrame(s, op);
      case Panic(op) => BuildFrame(s, op);
      case MarkL1(wrote) => MetaSent(s, L1Done, wrote);
      case ReplayMark(wrote) => MetaSent(s, s.toMark.value, wrote);
      case Boot(cfg, wrote) => BootSent(s, cfg, wrote);
      case FinishL2(wrote) =>
        MetaSent(s.(tasks := Requeue(s.tasks)), L2Partial, wrote);
        MetaSent(s.(tasks := Requeue(s.tasks)), L2Done, wrote);
      case _ =>
    }
  }

  lemma MetaSent(s: State, stage: Stage, wrote: bool)
    ensures SetMeta(s, stage, wrote).h.sent == s.h.sent
  {
  }

  lemma BootSent(s: State, cfg: Config, wrote: bool)
    ensures DoBoot(s, cfg, wrote).h.sent == s.h.sent
  {
  }

  lemma LocalSent(s: State, op: OutPoint, flag: bool, retry: bool, now: nat)
    requires op in s.tasks
    ensures s.tasks[op].Trying? ==> s.h.sent <= DoSave(s, op, flag, now).h.sent
    ensures s.tasks[op].Trying? && flag ==> s.tasks[op].tx in DoSave(s, op, flag, now).h.sent
    ensures s.tasks[op].ToClear? ==> s.h.sent <= DoClear(s, op, flag, retry).h.sent
    ensures s.tasks[op].ToCommit? ==> s.h.sent <= DoCommit(s, op, flag).h.sent
  {
    hide SavePending, RecordOf, CommitPending, NewTasks;
  }

  lemma {:induction false} SentStays(states: seq<State>, actions: seq<Action>, i: nat, j: nat)
    requires IsRun(states, actions) && i <= j < |states|
    requires forall k :: i <= k < j ==> !actions[k].Crash?
    ensures states[i].h.sent <= states[j].h.sent
    decreases j
  {
    hide Enabled, Do, Init;
    if i < j {
      SentStays(states, actions, i, j - 1);
      SentGrows(states[j - 1], actions[j - 1]);
    }
  }

  /**
   Within one run of the process, every broadcast that spends an outpoint
   carries the same transaction, even when the broadcaster reports errors for
   transactions it accepted. Each broadcast is preceded by its Save.
   */
  lemma OneTransactionPerOutpoint(states: seq<State>, actions: seq<Action>, i: nat, j: nat)
    requires IsRun(states, actions) && i < j < |actions|
    requires forall k :: i <= k <= j ==> !actions[k].Crash?
    requires actions[i].Save? && actions[i].ok && actions[j].Save? && actions[j].ok && actions[i].op == actions[j].op
    ensures actions[i].op in states[i].tasks && actions[j].op in states[j].tasks
    ensures states[i].tasks[actions[i].op].Trying? && states[j].tasks[actions[j].op].Trying?
    ensures states[i].tasks[actions[i].op].tx == states[j].tasks[actions[j].op].tx
  {
    hide Do, Inv, Replayables;
    SentGrows(states[i], actions[i]);
    SentGrows(states[j], actions[j]);
    SentStays(states, actions, i + 1, j + 1);
    RunKeepsInv(states, actions, i);
    RunKeepsInv(states, actions, j);
    RunKeepsInv(states, actions, j + 1);
    HeldOp(states[i], actions[i].op);
    HeldOp(states[j], actions[j].op);
    SentAgree(states[j + 1], states[i].tasks[actions[i].op].tx, states[j].tasks[actions[j].op].tx);
  }

  lemma SentAgree(s: State, tx: Tx, tx': Tx)
    requires Inv(s) && tx in s.h.sent && tx' in s.h.sent && tx.input.op == tx'.input.op
    ensures tx == tx'
  {
    hide Mirror, WriteAhead, Tracked, RecordsOwned, TasksFitPhase, Born, MayOwn;
  }

  // ------------------------------------------------------- the trust is necessary

  // A run in which the process dies between writing a record and sending it.
  const EX_CFG := Config(1, 1, TaggedDrop(7))
  const EX_OP := OutPoint(External(0), 0)
  const EX_SEED := UTXO(EX_OP, 1000, 0)
  const EX_TX := Tx(EX_SEED, [993])
  const EX_EMPTY := Durable(map[], map[], None)
  const EX_FUNDED := Durable(map[EX_OP := EX_SEED], map[], None)
  const EX_SAVED := SavePending(SetStage(EX_FUNDED, StageNone), IdOf(EX_TX), RecordOf(EX_TX, L1Done, 0))

  function ExHistory(seeds: Utxos, sent: set<Tx>, inFlight: set<Tx> := {}): History {
    History(seeds, map[], {}, sent, inFlight, {}, [], [], 0, true, true, true, true)
  }

  const EX_STATES: seq<State> := [
    State(EX_EMPTY, Down, map[], false, false, EX_CFG, StageNone, None, ExHistory(map[], {})),
    State(EX_EMPTY, Idle, map[], false, false, EX_CFG, StageNone, None, ExHistory(map[], {})),
    State(EX_FUNDED, Idle, map[EX_OP := Queued(EX_SEED)], false, false, EX_CFG, StageNone, None,
      ExHistory(map[EX_OP := EX_SEED], {})),
    State(SetStage(EX_FUNDED, StageNone), InL1, map[EX_OP := Trying(L1, EX_TX)], false, true, EX_CFG, StageNone, None,
          ExHistory(map[EX_OP := EX_SEED], {})),
    State(EX_SAVED, InL1, map[EX_OP := Saved(L1, EX_TX)], false, true, EX_CFG, StageNone, None,
          ExHistory(map[EX_OP := EX_SEED], {EX_TX}, {EX_TX})),
    State(EX_SAVED, Down, map[], false, false, EX_CFG, StageNone, None, ExHistory(map[EX_OP := EX_SEED], {}, {EX_TX}))]

  const EX_ACTIONS: seq<Action> := [
    Boot(EX_CFG, true), Fund(map[EX_OP := EX_SEED]), Dispatch([EX_OP], true), Save(EX_OP, true, 0), Crash]

  lemma ExBoot()
    ensures Init(EX_STATES[0])
    ensures Enabled(EX_STATES[0], EX_ACTIONS[0]) && Do(EX_STATES[0], EX_ACTIONS[0]) == EX_STATES[1]
  {
  }

  lemma ExFund()
    ensures Enabled(EX_STATES[1], EX_ACTIONS[1]) && Do(EX_STATES[1], EX_ACTIONS[1]) == EX_STATES[2]
  {
  }

  lemma ExBuild()
    ensures BuildFanout(EX_SEED, 1, Some(TaggedDrop(7))) == Ok(EX_TX)
  {
    var mode := TaggedDrop(7);
    NoOverflow(mode, 1);
    assert ExactSize(mode, 1) == 69;
    assert FanoutFee(mode, 1) == 7;
    assert FanoutShare(1000, 1, mode) == Ok(993);
    assert seq(1, _ => 993) == [993];
  }

  lemma ExLaunch()
    ensures Enabled(EX_STATES[2], EX_ACTIONS[2]) && Do(EX_STATES[2], EX_ACTIONS[2]) == EX_STATES[3]
  {
    hide BuildFanout, RecordOf;
    ExBuild();
    assert EX_STATES[2].tasks.Keys == {EX_OP};
  }

  lemma ExSaveAndCrash()
    ensures Enabled(EX_STATES[3], EX_ACTIONS[3]) && Do(EX_STATES[3], EX_ACTIONS[3]) == EX_STATES[4]
    ensures Enabled(EX_STATES[4], EX_ACTIONS[4]) && Do(EX_STATES[4], EX_ACTIONS[4]) == EX_STATES[5]
  {
    hide BuildFanout, RecordOf;
  }

  /**
   Without the trust that a leftover record was accepted, a crash between
   writing the record and sending the transaction breaks recovery: here the
   network has accepted nothing, yet recovery replaces the funding output by
   an output that does not exist.
   */
  lemma CrashBeforeSendingMisleads(end: Durable)
    requires end == CommitPending(EX_STATES[5].d, Some(IdOf(EX_TX)), [EX_SEED], Created(EX_TX))
    ensures IsRun(EX_STATES, EX_ACTIONS)
    ensures IsRecovery(EX_STATES[5].d, [Apply(IdOf(EX_TX))], end) && Replayables(end) == {}
    ensures !HoldsExactlyUnspent(end.utxos, EX_STATES[5].h.seeds, EX_STATES[5].h.accepted)
  {
    hide Do, Enabled, Init, Inv, CommitPending, HoldsExactlyUnspent;
    ExBoot();
    ExFund();
    ExLaunch();
    ExSaveAndCrash();
    var d, key := EX_STATES[5].d, IdOf(EX_TX);
    SavedRecord(SetStage(EX_FUNDED, StageNone), EX_TX, L1Done, 0);
    assert ReplayOne(d, key) == end;
    assert [Apply(key)][1..] == [];
    assert IsRecovery(d, [Apply(key)], end);
    ExRun();
    RunKeepsWriteAhead(EX_STATES, EX_ACTIONS, 5);
    ReplayOneIsSpend(d, key);
    RecoveryIsExactIff(EX_STATES, EX_ACTIONS, 5, [Apply(key)], end);
  }

  lemma ExRun()
    ensures IsRun(EX_STATES, EX_ACTIONS)
  {
    hide Do, Enabled, Init;
    ExBoot();
    ExFund();
    ExLaunch();
    ExSaveAndCrash();
  }

  lemma RunKeepsWriteAhead(states: seq<State>, actions: seq<Action>, i: nat)
    requires IsRun(states, actions) && i < |states|
    ensures WriteAhead(states[i].d)
  {
    hide IsRun, Mirror, Tracked, RecordsOwned, SentOwned, TasksFitPhase, WriteAhead;
    RunKeepsInv(states, actions, i);
  }
}
