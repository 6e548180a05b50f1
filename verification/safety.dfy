/**
 What every step of the engine keeps: the store mirrors the committed
 transactions, the write-ahead condition holds, every durable UTXO has one
 owner, and within one run an outpoint is only ever spent by one transaction.
 */
module Safety {
  import opened Outcomes
  import opened Ledger
  import opened Stages
  import opened StoreSpec
  import opened TxBuilder
  import opened Replay
  import opened Engine

  type Utxos = map<OutPoint, UTXO>
  type Spends = map<OutPoint, Tx>

  /** op was funded, or is a positive output of a committed transaction. */
  predicate Born(seeds: Utxos, committed: Spends, op: OutPoint) {
    op in seeds ||
    (op.txid.Spend? && op.txid.input in committed && IdOf(committed[op.txid.input]) == op.txid
     && op.vout < |op.txid.outs| && op.txid.outs[op.vout] > 0)
  }

  function BornAs(seeds: Utxos, committed: Spends, op: OutPoint): UTXO
    requires Born(seeds, committed, op)
  {
    if op in seeds then seeds[op] else UTXO(op, op.txid.outs[op.vout], 0)
  }

  /** utxos holds exactly the outputs born and not spent by a committed transaction. */
  ghost predicate Mirror(utxos: Utxos, seeds: Utxos, committed: Spends) {
    && (forall op {:trigger op in utxos} {:trigger Born(seeds, committed, op)} ::
         op in utxos <==> Born(seeds, committed, op) && op !in committed)
    && (forall op {:trigger utxos[op]} :: op in utxos ==>
      Born(seeds, committed, op) && utxos[op] == BornAs(seeds, committed, op))
    && (forall op {:trigger Born(seeds, committed, op)} :: op in committed ==>
         Born(seeds, committed, op) && committed[op].input == BornAs(seeds, committed, op))
    && (forall op :: op in seeds ==> op.txid.External? && seeds[op].op == op && seeds[op].value > 0)
  }

  /** A spent outpoint was born, and is no longer held. */
  lemma CommittedIsBorn(utxos: Utxos, seeds: Utxos, committed: Spends, op: OutPoint)
    requires Mirror(utxos, seeds, committed) && op in committed
    ensures Born(seeds, committed, op) && committed[op].input.op == op && op !in utxos
  {
    assert Born(seeds, committed, op) || !Born(seeds, committed, op);
  }

  /** Outputs of a transaction that spends a durable UTXO are new. */
  lemma OutputsAreFresh(utxos: Utxos, seeds: Utxos, committed: Spends, tx: Tx, op: OutPoint)
    requires Mirror(utxos, seeds, committed)
    requires tx.input.op in utxos && op.txid == IdOf(tx)
    ensures !Born(seeds, committed, op) && op !in utxos && op !in committed
  {
  }

  /** What Mirror says of one outpoint after tx is applied. */
  ghost predicate MirrorsAfter(utxos: Utxos, seeds: Utxos, committed: Spends, tx: Tx, op: OutPoint) {
    var utxos', committed' := (utxos - {tx.input.op}) + Spendable(tx), committed[tx.input.op := tx];
    && (op in utxos' <==> Born(seeds, committed', op) && op !in committed')
    && (op in utxos' ==> Born(seeds, committed', op) && utxos'[op] == BornAs(seeds, committed', op))
    && (op in committed' ==> Born(seeds, committed', op) && committed'[op].input == BornAs(seeds, committed', op))
  }

  lemma SpendAtOutput(utxos: Utxos, seeds: Utxos, committed: Spends, tx: Tx, op: OutPoint)
    requires Mirror(utxos, seeds, committed)
    requires tx.input.op in utxos && utxos[tx.input.op] == tx.input && op.txid == IdOf(tx)
    ensures MirrorsAfter(utxos, seeds, committed, tx, op)
  {
    hide Mirror;
    OutputsAreFresh(utxos, seeds, committed, tx, op);
  }

  lemma SpendBearsOnlyItsOutputs(seeds: Utxos, committed: Spends, tx: Tx, op: OutPoint)
    requires op.txid != IdOf(tx) && tx.input.op !in committed
    ensures Born(seeds, committed, op) <==> Born(seeds, committed[tx.input.op := tx], op)
    ensures op !in Spendable(tx)
  {
  }

  lemma SpendElsewhere(utxos: Utxos, seeds: Utxos, committed: Spends, tx: Tx, op: OutPoint)
    requires Mirror(utxos, seeds, committed)
    requires tx.input.op in utxos && utxos[tx.input.op] == tx.input && op.txid != IdOf(tx)
    ensures MirrorsAfter(utxos, seeds, committed, tx, op)
  {
    hide Born, Spendable;
    assert Born(seeds, committed, tx.input.op) && tx.input.op !in committed;
    SpendBearsOnlyItsOutputs(seeds, committed, tx, op);
    assert op in committed ==> Born(seeds, committed, op);
  }

  lemma SpendKeepsMirror(utxos: Utxos, seeds: Utxos, committed: Spends, tx: Tx)
    requires Mirror(utxos, seeds, committed)
    requires tx.input.op in utxos && utxos[tx.input.op] == tx.input
    ensures Mirror((utxos - {tx.input.op}) + Spendable(tx), seeds, committed[tx.input.op := tx])
  {
    hide Born, Spendable;
    var utxos', committed' := (utxos - {tx.input.op}) + Spendable(tx), committed[tx.input.op := tx];
    forall op {:trigger op in utxos'} {:trigger Born(seeds, committed', op)}
      ensures op in utxos' <==> Born(seeds, committed', op) && op !in committed'
      ensures op in utxos' ==> Born(seeds, committed', op) && utxos'[op] == BornAs(seeds, committed', op)
      ensures op in committed' ==> Born(seeds, committed', op) && committed'[op].input == BornAs(seeds, committed', op)
    {
      if op.txid == IdOf(tx) {
        SpendAtOutput(utxos, seeds, committed, tx, op);
      } else {
        SpendElsewhere(utxos, seeds, committed, tx, op);
      }
    }
  }

  // ------------------------------------------------------------- the invariant

  /** Every durable UTXO is held by exactly one place of a running process, with the value it has on disk. */
  ghost predicate Tracked(s: State) {
    if s.phase == Down then s.tasks == map[]
    else
      && s.toMark.None? && s.tasks.Keys == s.d.utxos.Keys
      && forall op :: op in s.tasks ==> s.tasks[op].Held() == s.d.utxos[op]
  }

  /** The owner of op can have sent tx, and nothing else that spends op. */
  predicate MayOwn(s: State, op: OutPoint, tx: Tx) {
    op in s.tasks &&
    match s.tasks[op]
    case Queued(_) => s.failed || s.phase == Halted
    case Parent(_, _) => false
    case Produced(_) => false
    case ChainTop(u) => BuildSustain(u, Some(s.cfg.mode)) == Ok(tx)
    case Trying(_, t) => t == tx
    case Saved(_, t) => t == tx
    case ToCommit(_, t) => t == tx
    case ToClear(_, t) => t == tx
    case Lost(_) => true
  }

  /** Every replayable record belongs to the owner of the outpoint it spends. */
  ghost predicate RecordsOwned(s: State) {
    s.phase != Down ==> forall key :: key in Replayables(s.d) ==>
      Faithful(key, Decode(key, s.d.pending[key])) && MayOwn(s, key.input, TxOf(key, Decode(key, s.d.pending[key])))
  }

  /** Every transaction sent in this run spends an outpoint whose owner can send no other. */
  ghost predicate SentOwned(s: State) {
    && (s.phase == Down ==> s.h.sent == {})
    && (forall tx :: tx in s.h.sent ==>
         Born(s.h.seeds, s.h.committed, tx.input.op) && (tx.input.op in s.tasks ==> MayOwn(s, tx.input.op, tx)))
    && (forall tx, tx' :: tx in s.h.sent && tx' in s.h.sent && tx.input.op == tx'.input.op ==> tx == tx')
  }

  predicate AttemptOf(t: Task, kind: Kind) {
    (t.Trying? || t.Saved? || t.ToCommit? || t.ToClear?) && t.kind == kind
  }

  /** A chain's attempt is always at the transaction its UTXO builds. */
  predicate HopAttempt(t: Task, mode: Mode) {
    AttemptOf(t, Hop) && BuildSustain(t.tx.input, Some(mode)) == Ok(t.tx)
  }

  /** Which tasks a phase can hold. */
  ghost predicate TasksFitPhase(s: State) {
    match s.phase
    case Down => !s.failed
    case Idle => AllQueued(s) && !s.failed && s.h.sent == {} && Replayables(s.d) == {}
    case InL1 => !s.failed && |s.tasks| == 1 && forall op :: op in s.tasks ==> AttemptOf(s.tasks[op], L1)
    case L1Committed => AllQueued(s) && !s.failed && Replayables(s.d) == {}
    case L1Marked => AllQueued(s) && !s.failed && Replayables(s.d) == {}
    case InL2 => forall op :: op in s.tasks ==>
      s.tasks[op].Parent? || s.tasks[op].Produced? || AttemptOf(s.tasks[op], L2) ||
        (s.failed && (s.tasks[op].Queued? || s.tasks[op].Lost?))
    case Running => !s.failed && forall op :: op in s.tasks ==>
      s.tasks[op].Queued? || s.tasks[op].ChainTop? || s.tasks[op].Lost? || HopAttempt(s.tasks[op], s.cfg.mode)
    case Halted => forall op :: op in s.tasks ==> !s.tasks[op].Active()
  }

  ghost predicate Inv(s: State) {
    && Mirror(s.d.utxos, s.h.seeds, s.h.committed)
    && WriteAhead(s.d)
    && Tracked(s)
    && RecordsOwned(s)
    && SentOwned(s)
    && TasksFitPhase(s)
  }

  /** The same UTXOs, records, and ledger history. */
  ghost predicate SameLedger(s: State, s': State) {
    && s'.d.utxos == s.d.utxos && s'.d.pending == s.d.pending && s'.cfg == s.cfg
    && s'.h.seeds == s.h.seeds && s'.h.committed == s.h.committed && s'.h.accepted == s.h.accepted
    && s'.h.sent == s.h.sent && s'.h.honest == s.h.honest && s'.h.trusted == s.h.trusted
  }

  lemma BeginL1Frame(s: State, op: OutPoint, wrote: bool)
    requires op in s.tasks
    ensures SameLedger(s, BeginL1(s, op, wrote))
  {
    hide BuildFanout, L1Count;
    var s' := BeginL1(s, op, wrote);
    assert s'.d == SetMeta(s, StageNone, wrote).d && s'.h == SetMeta(s, StageNone, wrote).h && s'.cfg == s.cfg;
  }

  lemma BeginL2Frame(s: State, order: seq<OutPoint>, wrote: bool)
    requires s.cfg.Valid() && IsOrder(order, s.tasks.Keys)
    ensures SameLedger(s, BeginL2(s, order, wrote))
  {
    hide IsOrder, Parents;
  }

  lemma ResumeFrame(s: State, wrote: bool)
    ensures SameLedger(s, Resume(s, true, wrote)) && SameLedger(s, Resume(s, false, wrote)) && SameLedger(s, Halt(s))
  {
  }

  lemma BootstrapFrame(s: State, order: seq<OutPoint>, wrote: bool)
    requires s.cfg.Valid() && IsOrder(order, s.tasks.Keys)
    ensures SameLedger(s, Bootstrap(s, order, wrote))
  {
    hide SameLedger, L1Count, BeginL1, BeginL2, Resume, Halt;
    BeginL2Frame(s, order, wrote);
    ResumeFrame(s, wrote);
    if |order| == 1 { BeginL1Frame(s, order[0], wrote); }
  }

  lemma InitHolds(s: State)
    requires Init(s)
    ensures Inv(s)
  {
  }

  /** A step that only moves one task on, keeping what it holds and whose transaction it is. */
  ghost predicate MovesOneTask(s: State, s': State, op: OutPoint) {
    && op in s.tasks && op in s'.tasks && s'.tasks[op].Held() == s.tasks[op].Held()
    && s'.tasks == s.tasks[op := s'.tasks[op]]
    && s'.d == s.d && s'.cfg == s.cfg && s'.toMark == s.toMark
    && s'.h.seeds == s.h.seeds && s'.h.committed == s.h.committed && s'.h.sent == s.h.sent
    && (s.failed ==> s'.failed)
    && (s'.phase == s.phase || s'.phase == Halted)
    && forall tx :: MayOwn(s, op, tx) ==> MayOwn(s', op, tx)
  }

  lemma MoveKeepsOwner(s: State, s': State, op: OutPoint, op': OutPoint, tx: Tx)
    requires MovesOneTask(s, s', op) && MayOwn(s, op', tx)
    ensures MayOwn(s', op', tx)
  {
    hide BuildSustain;
  }

  lemma MoveKeepsRecords(s: State, s': State, op: OutPoint)
    requires RecordsOwned(s) && MovesOneTask(s, s', op) && s.phase != Down
    ensures RecordsOwned(s')
  {
    hide MayOwn;
    forall key | key in Replayables(s.d) ensures MayOwn(s', key.input, TxOf(key, Decode(key, s.d.pending[key]))) {
      MoveKeepsOwner(s, s', op, key.input, TxOf(key, Decode(key, s.d.pending[key])));
    }
  }

  lemma MoveKeepsSent(s: State, s': State, op: OutPoint)
    requires SentOwned(s) && MovesOneTask(s, s', op) && s.phase != Down
    ensures SentOwned(s')
  {
    hide MayOwn, Born;
    forall tx | tx in s.h.sent && tx.input.op in s.tasks ensures MayOwn(s', tx.input.op, tx) {
      MoveKeepsOwner(s, s', op, tx.input.op, tx);
    }
  }

  lemma MoveKeepsInv(s: State, s': State, op: OutPoint)
    requires Inv(s) && MovesOneTask(s, s', op) && s.phase != Down
    requires TasksFitPhase(s')
    ensures Inv(s')
  {
    hide Mirror, WriteAhead, RecordsOwned, SentOwned, TasksFitPhase, MayOwn;
    MoveKeepsRecords(s, s', op);
    MoveKeepsSent(s, s', op);
  }

  // --------------------------------------------------- steps that move one task

  lemma BuildL2Moves(s: State, op: OutPoint)
    requires TasksFitPhase(s) && s.phase == InL2 && op in s.tasks && s.tasks[op].Parent?
    ensures MovesOneTask(s, DoBuildL2(s, op), op) && TasksFitPhase(DoBuildL2(s, op))
  {
    hide Replayables, RawSize, FanoutShare;
  }

  lemma PopChainMoves(s: State, op: OutPoint)
    requires TasksFitPhase(s) && Enabled(s, PopChain(op))
    ensures MovesOneTask(s, Do(s, PopChain(op)), op) && TasksFitPhase(Do(s, PopChain(op)))
  {
    hide Replayables, BuildSustain;
  }

  lemma BuildHopMoves(s: State, op: OutPoint)
    requires TasksFitPhase(s) && s.phase == Running && op in s.tasks && s.tasks[op].ChainTop?
    ensures MovesOneTask(s, DoBuildHop(s, op), op) && TasksFitPhase(DoBuildHop(s, op))
  {
    hide Replayables;
  }

  lemma ReplyMoves(s: State, op: OutPoint, accepted: bool)
    requires TasksFitPhase(s) && op in s.tasks && s.tasks[op].Saved? && s.phase != Down
    ensures MovesOneTask(s, DoReply(s, op, accepted), op) && TasksFitPhase(DoReply(s, op, accepted))
  {
    hide Replayables, BuildSustain;
  }

  /** A goroutine that ends without a commit, for whatever reason. */
  lemma DropMoves(s: State, op: OutPoint)
    requires TasksFitPhase(s) && op in s.tasks && s.tasks[op].Active() && s.phase != Down
    ensures MovesOneTask(s, Drop(s, op), op) && TasksFitPhase(Drop(s, op))
  {
    hide Replayables, BuildSustain, MovesOneTask;
    DropIsMove(s, op);
    assert |s.tasks| == 1 ==> s.tasks.Keys == {op} by { if |s.tasks| == 1 { OnlyKey(s.tasks, op); } }
  }

  lemma DropIsMove(s: State, op: OutPoint)
    requires op in s.tasks
    ensures MovesOneTask(s, Drop(s, op), op)
  {
    hide BuildSustain;
  }

  lemma GiveUpIsMove(s: State, op: OutPoint, kind: Kind)
    requires op in s.tasks && AttemptOf(s.tasks[op], kind)
    ensures MovesOneTask(s, GiveUp(s, op, kind), op)
  {
    hide BuildSustain;
  }

  lemma GiveUpMoves(s: State, op: OutPoint, kind: Kind)
    requires TasksFitPhase(s) && op in s.tasks && AttemptOf(s.tasks[op], kind) && s.phase != Down
    ensures MovesOneTask(s, GiveUp(s, op, kind), op) && TasksFitPhase(GiveUp(s, op, kind))
  {
    hide Replayables, BuildSustain, MovesOneTask;
    GiveUpIsMove(s, op, kind);
    assert |s.tasks| == 1 ==> s.tasks.Keys == {op} by { if |s.tasks| == 1 { OnlyKey(s.tasks, op); } }
  }

  lemma OnlyKey(tasks: map<OutPoint, Task>, op: OutPoint)
    requires |tasks| == 1 && op in tasks
    ensures tasks.Keys == {op}
  {
    assert |tasks.Keys - {op}| == 0;
  }

  /** Actions that move one task on without touching the store. */
  predicate IsMove(a: Action) {
    a.BuildL2? || a.PopChain? || a.BuildHop? || a.Reply? || a.Panic? || (a.Save? && !a.ok) || (a.Commit? && !a.ok)
  }

  lemma Upright(s: State, op: OutPoint)
    requires Inv(s) && op in s.tasks
    ensures s.phase != Down && TasksFitPhase(s)
  {
    hide Mirror, WriteAhead, RecordsOwned, SentOwned, TasksFitPhase;
  }

  lemma FailedWrite(s: State, op: OutPoint, now: nat)
    requires op in s.tasks
    ensures s.tasks[op].Trying? ==> DoSave(s, op, false, now) == GiveUp(s, op, s.tasks[op].kind)
    ensures s.tasks[op].ToCommit? ==> DoCommit(s, op, false) == Drop(s, op)
  {
  }

  lemma MoveStep(s: State, a: Action)
    requires Inv(s) && Enabled(s, a) && IsMove(a)
    ensures Inv(Do(s, a))
  {
    hide Inv, TasksFitPhase, MovesOneTask, DoBuildL2, DoBuildHop, DoReply, Drop, GiveUp, DoSave, DoCommit, Replayables;
    Upright(s, a.op);
    match a {
      case BuildL2(op) => BuildL2Moves(s, op);
      case PopChain(op) => PopChainMoves(s, op);
      case BuildHop(op) => BuildHopMoves(s, op);
      case Reply(op, accepted) => ReplyMoves(s, op, accepted);
      case Panic(op) => DropMoves(s, op);
      case Save(op, _, now) => FailedWrite(s, op, now); GiveUpMoves(s, op, s.tasks[op].kind);
      case Commit(op, _) => FailedWrite(s, op, 0); DropMoves(s, op);
    }
    MoveKeepsInv(s, Do(s, a), a.op);
  }

  // -------------------------------------------------- steps that write the store

  /** Two states that agree on everything the invariant speaks of. */
  ghost predicate LooksLike(s: State, s': State) {
    && s'.d.utxos == s.d.utxos && s'.d.pending == s.d.pending && s'.tasks == s.tasks && s'.phase == s.phase
    && s'.failed == s.failed && s'.cfg == s.cfg && s'.toMark == s.toMark
    && s'.h.seeds == s.h.seeds && s'.h.committed == s.h.committed && s'.h.sent == s.h.sent
  }

  lemma SameOwner(s: State, s': State, op: OutPoint, tx: Tx)
    requires LooksLike(s, s')
    ensures MayOwn(s', op, tx) == MayOwn(s, op, tx)
  {
  }

  lemma SameOwners(s: State, s': State)
    requires LooksLike(s, s') && RecordsOwned(s) && SentOwned(s)
    ensures RecordsOwned(s') && SentOwned(s')
  {
    hide MayOwn, Born;
    forall op, tx ensures MayOwn(s', op, tx) == MayOwn(s, op, tx) { SameOwner(s, s', op, tx); }
  }

  lemma SameTasksFit(s: State, s': State)
    requires LooksLike(s, s') && TasksFitPhase(s)
    ensures TasksFitPhase(s')
  {
    hide HopAttempt;
    assert Replayables(s'.d) == Replayables(s.d);
  }

  lemma LookalikeKeepsInv(s: State, s': State)
    requires Inv(s) && LooksLike(s, s')
    ensures Inv(s')
  {
    hide Mirror, RecordsOwned, SentOwned, TasksFitPhase, Replayables;
    SameOwners(s, s');
    SameTasksFit(s, s');
    SameRecordsSameCondition(s.d, s'.d);
    hide WriteAhead;
  }

  lemma SameRecordsSameCondition(d: Durable, d': Durable)
    requires WriteAhead(d) && d'.utxos == d.utxos && d'.pending == d.pending
    ensures WriteAhead(d')
  {
    assert Replayables(d') == Replayables(d);
  }

  /** Writing, overwriting or clearing the stage touches nothing that Inv speaks of. */
  lemma MetaKeepsInv(s: State, stage: Stage, wrote: bool)
    requires Inv(s)
    ensures Inv(SetMeta(s, stage, wrote))
    ensures Replayables(SetMeta(s, stage, wrote).d) == Replayables(s.d)
  {
    hide Inv;
    assert Replayables(SetMeta(s, stage, wrote).d) == Replayables(s.d);
    LookalikeKeepsInv(s, SetMeta(s, stage, wrote));
  }

  /** Two records that spend one outpoint are the record of its owner's transaction. */
  lemma OwnersRecord(s: State, op: OutPoint, key: TxId)
    requires RecordsOwned(s) && s.phase != Down && key in Replayables(s.d) && key.Spend? && key.input == op
    requires op in s.tasks &&
      (s.tasks[op].Trying? || s.tasks[op].Saved? || s.tasks[op].ToCommit? || s.tasks[op].ToClear?)
    ensures key == IdOf(s.tasks[op].tx)
  {
  }

  lemma SavedRecord(d: Durable, tx: Tx, stage: Stage, now: nat)
    ensures var d' := SavePending(d, IdOf(tx), RecordOf(tx, stage, now));
      && Replayables(d') == Replayables(d) + {IdOf(tx)}
      && Faithful(IdOf(tx), Decode(IdOf(tx), d'.pending[IdOf(tx)]))
      && TxOf(IdOf(tx), Decode(IdOf(tx), d'.pending[IdOf(tx)])) == tx
  {
    var d' := SavePending(d, IdOf(tx), RecordOf(tx, stage, now));
    assert Decode(IdOf(tx), d'.pending[IdOf(tx)]) == RecordOf(tx, stage, now);
  }

  /** Writing the record of a transaction keeps the write-ahead condition if no other record spends its input. */
  lemma RecordKeepsWriteAhead(d: Durable, tx: Tx, stage: Stage, now: nat)
    requires WriteAhead(d) && tx.input.op in d.utxos && d.utxos[tx.input.op] == tx.input
    requires forall key :: key in Replayables(d) && key.Spend? && key.input == tx.input.op ==> key == IdOf(tx)
    requires forall op :: op in d.utxos ==> op.txid != IdOf(tx)
    ensures WriteAhead(SavePending(d, IdOf(tx), RecordOf(tx, stage, now)))
  {
    hide Created;
    SavedRecord(d, tx, stage, now);
  }

  lemma SaveKeepsWriteAhead(s: State, op: OutPoint, now: nat)
    requires Inv(s) && op in s.tasks && s.tasks[op].Trying? && s.phase != Down
    ensures WriteAhead(DoSave(s, op, true, now).d)
  {
    hide Mirror, WriteAhead, SentOwned, TasksFitPhase, Born, Created, RecordsOwned, MayOwn;
    var tx := s.tasks[op].tx;
    HeldIsBorn(s, op);
    forall key | key in Replayables(s.d) && key.Spend? && key.input == op ensures key == IdOf(tx) {
      OwnersRecord(s, op, key);
    }
    forall x | x in s.d.utxos ensures x.txid != IdOf(tx) {
      if x.txid == IdOf(tx) { OutputsAreFresh(s.d.utxos, s.h.seeds, s.h.committed, tx, x); }
    }
    RecordKeepsWriteAhead(s.d, tx, StageOf(s.tasks[op].kind), now);
  }

  lemma SaveKeepsOwner(s: State, op: OutPoint, now: nat, op': OutPoint, tx: Tx)
    requires op in s.tasks && s.tasks[op].Trying? && MayOwn(s, op', tx)
    ensures MayOwn(DoSave(s, op, true, now), op', tx)
  {
    hide BuildSustain;
  }

  lemma SaveKeepsRecords(s: State, op: OutPoint, now: nat)
    requires RecordsOwned(s) && op in s.tasks && s.tasks[op].Trying? && s.phase != Down && s.tasks[op].tx.input.op == op
    ensures RecordsOwned(DoSave(s, op, true, now))
  {
    hide BuildSustain, Created, MayOwn;
    var tx := s.tasks[op].tx;
    var s' := DoSave(s, op, true, now);
    SavedRecord(s.d, tx, StageOf(s.tasks[op].kind), now);
    forall key | key in Replayables(s'.d)
      ensures Faithful(key, Decode(key, s'.d.pending[key])) &&
        MayOwn(s', key.input, TxOf(key, Decode(key, s'.d.pending[key])))
    {
      if key == IdOf(tx) {
        SavedOwns(s, op, now);
      } else {
        SaveKeepsOwner(s, op, now, key.input, TxOf(key, Decode(key, s.d.pending[key])));
      }
    }
  }

  lemma SavedOwns(s: State, op: OutPoint, now: nat)
    requires op in s.tasks && s.tasks[op].Trying?
    ensures MayOwn(DoSave(s, op, true, now), op, s.tasks[op].tx)
  {
  }

  lemma SaveKeepsSent(s: State, op: OutPoint, now: nat)
    requires SentOwned(s) && op in s.tasks && s.tasks[op].Trying? && s.phase != Down && s.tasks[op].tx.input.op == op
    requires Born(s.h.seeds, s.h.committed, op)
    ensures SentOwned(DoSave(s, op, true, now))
  {
    hide BuildSustain, Created, Born;
    var s' := DoSave(s, op, true, now);
    forall tx | tx in s'.h.sent && tx.input.op in s'.tasks ensures MayOwn(s', tx.input.op, tx) {
      if tx in s.h.sent { SaveKeepsOwner(s, op, now, tx.input.op, tx); }
    }
  }

  lemma SaveFitsPhase(s: State, op: OutPoint, now: nat)
    requires TasksFitPhase(s) && op in s.tasks && s.tasks[op].Trying? && s.phase != Down
    ensures TasksFitPhase(DoSave(s, op, true, now))
  {
    hide BuildSustain, Created, SavePending, RecordOf, Replayables;
  }

  lemma HeldIsBorn(s: State, op: OutPoint)
    requires Mirror(s.d.utxos, s.h.seeds, s.h.committed) && Tracked(s) && op in s.tasks
    ensures op in s.d.utxos && s.d.utxos[op] == s.tasks[op].Held() && s.tasks[op].Held().op == op
    ensures Born(s.h.seeds, s.h.committed, op) && op !in s.h.committed && s.tasks[op].Held().value > 0
  {
    assert s.phase != Down;
    assert s.d.utxos[op] == BornAs(s.h.seeds, s.h.committed, op);
  }

  lemma NotDown(s: State, op: OutPoint)
    requires Tracked(s) && op in s.tasks
    ensures s.phase != Down
  {
  }

  lemma SaveStep(s: State, op: OutPoint, now: nat)
    requires Inv(s) && Enabled(s, Save(op, true, now))
    ensures Inv(Do(s, Save(op, true, now)))
  {
    hide Mirror, WriteAhead, RecordsOwned, SentOwned, TasksFitPhase, Born, Created, Replayables;
    NotDown(s, op);
    HeldIsBorn(s, op);
    SaveKeepsWriteAhead(s, op, now);
    SaveKeepsRecords(s, op, now);
    SaveKeepsSent(s, op, now);
    SaveFitsPhase(s, op, now);
  }

  lemma ClearedRecord(d: Durable, key: TxId)
    requires WriteAhead(d)
    ensures WriteAhead(ClearPending(d, key)) && Replayables(ClearPending(d, key)) == Replayables(d) - {key}
  {
    assert Replayables(ClearPending(d, key)) == Replayables(d) - {key};
  }

  lemma ClearKeepsRecords(s: State, key: TxId)
    requires RecordsOwned(s)
    ensures RecordsOwned(s.(d := ClearPending(s.d, key)))
  {
    hide BuildSustain;
    var s' := s.(d := ClearPending(s.d, key));
    assert forall op, tx :: MayOwn(s', op, tx) <==> MayOwn(s, op, tx);
  }

  lemma ClearKeepsSent(s: State, key: TxId)
    requires SentOwned(s)
    ensures SentOwned(s.(d := ClearPending(s.d, key)))
  {
    hide BuildSustain, Born;
    var s' := s.(d := ClearPending(s.d, key));
    assert forall op, tx :: MayOwn(s', op, tx) <==> MayOwn(s, op, tx);
  }

  /** Removing a record, on its own, keeps everything. */
  lemma ClearKeepsInv(s: State, key: TxId)
    requires Inv(s)
    ensures Inv(s.(d := ClearPending(s.d, key)))
  {
    hide Mirror, WriteAhead, BuildSustain, RecordsOwned, SentOwned, Replayables;
    ClearedRecord(s.d, key);
    ClearKeepsRecords(s, key);
    ClearKeepsSent(s, key);
  }

  lemma RetryMoves(s: State, op: OutPoint)
    requires TasksFitPhase(s) && op in s.tasks && s.tasks[op].ToClear? && s.phase != Down
    ensures var s' := DoClear(s, op, false, true);
      MovesOneTask(s, s', op) && TasksFitPhase(s')
  {
    hide Replayables, RawSize, FanoutShare;
  }

  lemma ClearStep(s: State, op: OutPoint, cleared: bool, retry: bool)
    requires Inv(s) && Enabled(s, Clear(op, cleared, retry))
    ensures Inv(Do(s, Clear(op, cleared, retry)))
  {
    hide Mirror, WriteAhead, RecordsOwned, SentOwned, TasksFitPhase, Tracked, MayOwn, BuildSustain, MovesOneTask;
    NotDown(s, op);
    var key := IdOf(s.tasks[op].tx);
    var s1 := if cleared then s.(d := ClearPending(s.d, key)) else s;
    ClearKeepsInv(s, key);
    assert Do(s, Clear(op, cleared, retry)) == DoClear(s1, op, false, retry);
    if retry {
      RetryMoves(s1, op);
      MoveKeepsInv(s1, DoClear(s1, op, false, retry), op);
    } else {
      GiveUpMoves(s1, op, s.tasks[op].kind);
      MoveKeepsInv(s1, GiveUp(s1, op, s.tasks[op].kind), op);
    }
  }
}
