/**
 The sequential code and the step machine are one system: whatever one turn of a
 chain or one L2 fanout leaves in the store (modules Chain and Fanout), a sequence
 of actions of module Engine leaves there too.
 */
module Sequential {
  import opened Outcomes
  import opened Ledger
  import opened Stages
  import opened StoreSpec
  import opened TxBuilder
  import opened Replay
  import opened Engine
  import opened Runs
  import C = Chain
  import F = Fanout

  /** What a goroutine leaves alone in the history. */
  predicate SameBootstrap(h: History, h': History) {
    h'.metaOk == h.metaOk && h'.parents == h.parents && h.accepted <= h'.accepted
  }

  /** s with another store and another task for op, but for the history. */
  ghost predicate Moved(s: State, s': State, d: Durable, op: OutPoint, t: Task) {
    s' == s.(d := d, tasks := s.tasks[op := t], failed := s'.failed, h := s'.h) && SameBootstrap(s.h, s'.h)
  }

  lemma MovedHas(s: State, s': State, d: Durable, op: OutPoint, t: Task)
    requires Moved(s, s', d, op, t)
    ensures op in s'.tasks && s'.tasks[op] == t && s'.d == d && s'.phase == s.phase && s'.cfg == s.cfg
  {
  }

  lemma MovedIs(s: State, s': State, d: Durable, op: OutPoint, t: Task)
    requires Moved(s, s', d, op, t)
    ensures s'.d == d && s'.tasks == s.tasks[op := t] && s'.phase == s.phase
  {
  }

  lemma MovedTwice(s: State, mid: State, s': State, d: Durable, d': Durable, op: OutPoint, t: Task, t': Task)
    requires Moved(s, mid, d, op, t) && Moved(mid, s', d', op, t')
    ensures Moved(s, s', d', op, t')
  {
  }

  lemma SaveMoves(s: State, op: OutPoint, now: nat)
    requires op in s.tasks && s.tasks[op].Trying?
    ensures Enabled(s, Save(op, true, now))
    ensures var kind, tx, s' := s.tasks[op].kind, s.tasks[op].tx, Do(s, Save(op, true, now));
      && Moved(s, s', SavePending(s.d, IdOf(tx), RecordOf(tx, StageOf(kind), now)), op, Saved(kind, tx))
      && tx in s'.h.inFlight
  {
    hide RecordOf, SavePending, Replayables;
  }

  lemma DeliverMoves(s: State, op: OutPoint)
    requires op in s.tasks && s.tasks[op].Saved? && s.tasks[op].tx in s.h.inFlight
    ensures Enabled(s, Deliver(s.tasks[op].tx))
    ensures var s' := Do(s, Deliver(s.tasks[op].tx));
      s' == s.(h := s'.h) && s.tasks[op].tx in s'.h.accepted && SameBootstrap(s.h, s'.h)
  {
    hide Replayables;
  }

  lemma AnswerMoves(s: State, op: OutPoint, accepted: bool)
    requires op in s.tasks && s.tasks[op].Saved? && (accepted ==> s.tasks[op].tx in s.h.accepted)
    ensures Enabled(s, Reply(op, accepted))
    ensures var kind, tx := s.tasks[op].kind, s.tasks[op].tx;
      Moved(s, Do(s, Reply(op, accepted)), s.d, op, if accepted then ToCommit(kind, tx) else ToClear(kind, tx))
  {
    hide Replayables;
  }

  /** A record is written, the transaction sent, and the answer arrives. */
  lemma SendMoves(s: State, op: OutPoint, now: nat, accepted: bool) returns (actions: seq<Action>, s': State)
    requires op in s.tasks && s.tasks[op].Trying?
    ensures Plays(s, actions, s')
    ensures var kind, tx := s.tasks[op].kind, s.tasks[op].tx;
      Moved(s, s', SavePending(s.d, IdOf(tx), RecordOf(tx, StageOf(kind), now)), op,
        if accepted then ToCommit(kind, tx) else ToClear(kind, tx))
  {
    hide Enabled, Do, Plays, SavePending, RecordOf;
    var tx := s.tasks[op].tx;
    SaveMoves(s, op, now);
    s', actions := Do(s, Save(op, true, now)), [Save(op, true, now)];
    PlaysOne(s, Save(op, true, now));
    if accepted {
      DeliverMoves(s', op);
      PlaysSnoc(s, actions, s', Deliver(tx));
      s', actions := Do(s', Deliver(tx)), actions + [Deliver(tx)];
    }
    AnswerMoves(s', op, accepted);
    PlaysSnoc(s, actions, s', Reply(op, accepted));
    s', actions := Do(s', Reply(op, accepted)), actions + [Reply(op, accepted)];
  }

  lemma ClearMoves(s: State, op: OutPoint, cleared: bool, retry: bool)
    requires op in s.tasks && s.tasks[op].ToClear? && s.tasks[op].kind != L1
    ensures Enabled(s, Clear(op, cleared, retry))
    ensures var kind, tx := s.tasks[op].kind, s.tasks[op].tx;
      Moved(s, Do(s, Clear(op, cleared, retry)), if cleared then ClearPending(s.d, IdOf(tx)) else s.d, op,
            if kind == Hop then if retry then ChainTop(tx.input) else Lost(tx.input)
            else if retry then Trying(L2, tx) else Queued(tx.input))
  {
    hide ClearPending, Replayables;
  }

  lemma FailedSaveMoves(s: State, op: OutPoint, now: nat)
    requires op in s.tasks && s.tasks[op].Trying? && s.tasks[op].kind != L1
    ensures Enabled(s, Save(op, false, now))
    ensures var u := s.tasks[op].tx.input;
      Moved(s, Do(s, Save(op, false, now)), s.d, op, if s.tasks[op].kind == Hop then Lost(u) else Queued(u))
  {
    hide Replayables;
  }

  /** What the commit of tx does, whether it works or fails. */
  ghost predicate Committed(s: State, s': State, op: OutPoint, kind: Kind, tx: Tx, ok: bool) {
    if ok then
      s' == s.(d := Durable((s.d.utxos - {tx.input.op}) + Spendable(tx), s.d.pending - {IdOf(tx)}, s.d.stage),
               tasks := (s.tasks - {op}) + NewTasks(kind, tx), h := s'.h) && SameBootstrap(s.h, s'.h)
    else Moved(s, s', s.d, op, Lost(tx.input))
  }

  lemma CommitMoves(s: State, op: OutPoint, ok: bool)
    requires op in s.tasks && s.tasks[op].ToCommit? && s.tasks[op].kind != L1 && s.phase != InL1
    ensures Enabled(s, Commit(op, ok)) && Committed(s, Do(s, Commit(op, ok)), op, s.tasks[op].kind, s.tasks[op].tx, ok)
  {
    CommitIsSpend(s.d, s.tasks[op].tx);
    hide CommitPending, NewTasks, Spendable, Replayables;
  }

  /** The commit of what s has moved on to. */
  lemma CommitEnds(s: State, mid: State, s': State, d: Durable, op: OutPoint, kind: Kind, tx: Tx, ok: bool)
    requires Moved(s, mid, d, op, ToCommit(kind, tx)) && Committed(mid, s', op, kind, tx, ok)
    ensures s'.phase == s.phase
    ensures s'.tasks == if ok then (s.tasks - {op}) + NewTasks(kind, tx) else s.tasks[op := Lost(tx.input)]
    ensures s'.d ==
      if ok then Durable((d.utxos - {tx.input.op}) + Spendable(tx), d.pending - {IdOf(tx)}, d.stage) else d
  {
    hide NewTasks, Spendable;
    assert mid.tasks - {op} == s.tasks - {op};
  }

  // ------------------------------------------------------------------- one L2 fanout

  /** The first k attempts, each of them retried. */
  lemma {:induction false} RetriesMove(s: State, op: OutPoint, tries: nat -> C.Try, k: nat)
    returns (actions: seq<Action>, s': State)
    requires op in s.tasks && s.tasks[op].Trying? && s.tasks[op].kind == L2
    requires forall j :: 0 <= j < k ==> tries(j).Retried()
    ensures Plays(s, actions, s')
    ensures var tx := s.tasks[op].tx;
      Moved(s, s', s.d.(pending := C.PendingAfter(s.d.pending, tx, L2Partial, tries, k, false)), op, Trying(L2, tx))
  {
    hide Enabled, Do, Plays, RecordOf;
    if k == 0 {
      actions, s' := [], s;
      PlaysNothing(s);
    } else {
      var before, mid := RetriesMove(s, op, tries, k - 1);
      var more, last := FailedTryMoves(mid, op, tries(k - 1), true);
      PlaysOn(s, before, mid, more, last);
      actions, s' := before + more, last;
      NextPending(s.d.pending, s.tasks[op].tx, tries, k - 1);
    }
  }

  lemma PlaysNothing(s: State)
    ensures Plays(s, [], s)
  {
  }

  function Attempted(pending: map<TxId, Stored>, tx: Tx, t: C.Try): map<TxId, Stored> {
    var saved := pending[IdOf(tx) := Encoded(RecordOf(tx, L2Partial, t.now))];
    if t.accepted || t.clearFails then saved else saved - {IdOf(tx)}
  }

  lemma NextPending(pending: map<TxId, Stored>, tx: Tx, tries: nat -> C.Try, k: nat)
    ensures Attempted(C.PendingAfter(pending, tx, L2Partial, tries, k, false), tx, tries(k))
      == C.PendingAfter(pending, tx, L2Partial, tries, k + 1, tries(k).accepted)
  {
    hide RecordOf;
    C.Rewritten(pending, C.PendingAfter(pending, tx, L2Partial, tries, k, false), tx, L2Partial, tries, k,
      tries(k).now);
  }

  /** One attempt that is not accepted. */
  lemma FailedTryMoves(s: State, op: OutPoint, t: C.Try, retry: bool) returns (actions: seq<Action>, s': State)
    requires op in s.tasks && s.tasks[op].Trying? && s.tasks[op].kind == L2 && !t.accepted
    ensures Plays(s, actions, s')
    ensures var tx := s.tasks[op].tx;
      Moved(s, s', s.d.(pending := Attempted(s.d.pending, tx, t)), op,
        if retry then Trying(L2, tx) else Queued(tx.input))
  {
    hide Enabled, Do, Plays, RecordOf;
    var before, mid := SendMoves(s, op, t.now, false);
    ClearMoves(mid, op, !t.clearFails, retry);
    PlaysSnoc(s, before, mid, Clear(op, !t.clearFails, retry));
    actions, s' := before + [Clear(op, !t.clearFails, retry)], Do(mid, Clear(op, !t.clearFails, retry));
  }

  /** broadcastWithRetry. */
  lemma BroadcastMoves(s: State, op: OutPoint, tries: nat -> C.Try, sent: nat, ok: bool)
    returns (actions: seq<Action>, s': State)
    requires op in s.tasks && s.tasks[op].Trying? && s.tasks[op].kind == L2 && C.SentExactly(tries, sent, ok)
    ensures Plays(s, actions, s')
    ensures var tx := s.tasks[op].tx;
      Moved(s, s', s.d.(pending := C.PendingAfter(s.d.pending, tx, L2Partial, tries, sent, ok)), op,
            if ok then ToCommit(L2, tx) else Queued(tx.input))
  {
    if sent == 0 || (!ok && sent < C.BOOTSTRAP_ATTEMPTS && tries(sent).saveFails && tries(sent - 1).Retried()) {
      actions, s' := UnsavedMoves(s, op, tries, sent);
    } else {
      actions, s' := SentMoves(s, op, tries, sent, ok);
    }
  }

  /** The record of the attempt after the first sent ones cannot be written. */
  lemma UnsavedMoves(s: State, op: OutPoint, tries: nat -> C.Try, sent: nat) returns (actions: seq<Action>, s': State)
    requires op in s.tasks && s.tasks[op].Trying? && s.tasks[op].kind == L2
    requires forall j :: 0 <= j < sent ==> tries(j).Retried()
    ensures Plays(s, actions, s')
    ensures var tx := s.tasks[op].tx;
      Moved(s, s', s.d.(pending := C.PendingAfter(s.d.pending, tx, L2Partial, tries, sent, false)), op,
        Queued(tx.input))
  {
    hide Enabled, Do, Plays, RecordOf, Moved, C.PendingAfter;
    var tx := s.tasks[op].tx;
    var d := s.d.(pending := C.PendingAfter(s.d.pending, tx, L2Partial, tries, sent, false));
    var before, mid := RetriesMove(s, op, tries, sent);
    MovedHas(s, mid, d, op, Trying(L2, tx));
    FailedSaveMoves(mid, op, 0);
    PlaysSnoc(s, before, mid, Save(op, false, 0));
    actions, s' := before + [Save(op, false, 0)], Do(mid, Save(op, false, 0));
    MovedTwice(s, mid, s', d, d, op, Trying(L2, tx), Queued(tx.input));
  }

  /** The last of the sent attempts is accepted, or is not tried again. */
  lemma SentMoves(s: State, op: OutPoint, tries: nat -> C.Try, sent: nat, ok: bool)
    returns (actions: seq<Action>, s': State)
    requires op in s.tasks && s.tasks[op].Trying? && s.tasks[op].kind == L2
    requires sent > 0 && (forall j :: 0 <= j < sent - 1 ==> tries(j).Retried()) && (tries(sent - 1).accepted <==> ok)
    ensures Plays(s, actions, s')
    ensures var tx := s.tasks[op].tx;
      Moved(s, s', s.d.(pending := C.PendingAfter(s.d.pending, tx, L2Partial, tries, sent, ok)), op,
            if ok then ToCommit(L2, tx) else Queued(tx.input))
  {
    hide Enabled, Do, Plays, RecordOf, Moved, C.PendingAfter;
    var tx, t := s.tasks[op].tx, tries(sent - 1);
    var d := s.d.(pending := C.PendingAfter(s.d.pending, tx, L2Partial, tries, sent - 1, false));
    var d' := s.d.(pending := C.PendingAfter(s.d.pending, tx, L2Partial, tries, sent, ok));
    var before, mid := RetriesMove(s, op, tries, sent - 1);
    MovedHas(s, mid, d, op, Trying(L2, tx));
    NextPending(s.d.pending, tx, tries, sent - 1);
    var more, last;
    if ok { more, last := SendMoves(mid, op, t.now, true); } else { more, last := FailedTryMoves(mid, op, t, false); }
    PlaysOn(s, before, mid, more, last);
    actions, s' := before + more, last;
    MovedTwice(s, mid, s', d, d', op, Trying(L2, tx), if ok then ToCommit(L2, tx) else Queued(tx.input));
  }

  lemma BuildMoves(s: State, op: OutPoint)
    requires s.phase == InL2 && op in s.tasks && s.tasks[op].Parent?
    ensures Enabled(s, BuildL2(op))
    ensures var u := s.tasks[op].u;
      match BuildFanout(u, s.tasks[op].n, Some(s.cfg.mode))
      case Err(_) => Moved(s, Do(s, BuildL2(op)), s.d, op, Queued(u))
      case Ok(tx) => Moved(s, Do(s, BuildL2(op)), s.d, op, Trying(L2, tx)) && tx.input == u
  {
    F.FanoutSpends(s.tasks[op].u, s.tasks[op].n, Some(s.cfg.mode));
    hide BuildFanout, Replayables;
  }

  /** The tasks once the goroutine of the parent u at op has ended. */
  function TasksAfter(tasks: map<OutPoint, Task>, op: OutPoint, u: UTXO, built: Result<Tx, BuildError>,
    outcome: F.Outcome): map<OutPoint, Task> {
    match outcome
    case Requeued(_) => tasks[op := Queued(u)]
    case LeftRecorded(_) => tasks[op := Lost(u)]
    case Replaced(_) => if built.Ok? then (tasks - {op}) + NewTasks(L2, built.value) else tasks
  }

  /**
   Every end of fanoutParent, with what it leaves in the store, is reached by
   actions of the goroutine of that parent.
   */
  lemma FanoutPlays(s: State, op: OutPoint, tries: nat -> C.Try, commitFails: bool, outcome: F.Outcome, d': Durable)
    returns (actions: seq<Action>, s': State)
    requires s.phase == InL2 && op in s.tasks && s.tasks[op].Parent?
    requires F.FanoutLeaves(s.d, d', outcome, s.tasks[op].u, s.tasks[op].n, Some(s.cfg.mode), tries, commitFails)
    ensures Plays(s, actions, s') && s'.d == d' && s'.phase == InL2
    ensures var u := s.tasks[op].u;
      s'.tasks == TasksAfter(s.tasks, op, u, BuildFanout(u, s.tasks[op].n, Some(s.cfg.mode)), outcome)
  {
    hide Enabled, Do, Plays, BuildFanout, RecordOf, NewTasks, C.SentExactly, C.PendingAfter, Spendable, Committed;
    var mode := Some(s.cfg.mode);
    BuildMoves(s, op);
    PlaysOne(s, BuildL2(op));
    var built := Do(s, BuildL2(op));
    if BuildFanout(s.tasks[op].u, s.tasks[op].n, mode).Err? {
      actions, s' := [BuildL2(op)], built;
    } else {
      var tx := BuildFanout(s.tasks[op].u, s.tasks[op].n, mode).value;
      hide Moved;
      MovedHas(s, built, s.d, op, Trying(L2, tx));
      var more, sent := BroadcastMoves(built, op, tries, outcome.sent, !outcome.Requeued?);
      var d := s.d.(pending := C.PendingAfter(s.d.pending, tx, L2Partial, tries, outcome.sent, !outcome.Requeued?));
      var t := if outcome.Requeued? then Queued(tx.input) else ToCommit(L2, tx);
      MovedTwice(s, built, sent, s.d, d, op, Trying(L2, tx), t);
      PlaysOn(s, [BuildL2(op)], built, more, sent);
      actions, s' := [BuildL2(op)] + more, sent;
      if outcome.Requeued? {
        MovedIs(s, s', d, op, t);
      } else {
        MovedHas(s, sent, d, op, t);
        CommitMoves(sent, op, !commitFails);
        PlaysSnoc(s, actions, sent, Commit(op, !commitFails));
        RecordGone(s.d.pending, s.tasks[op], mode, tries, outcome.sent);
        actions, s' := actions + [Commit(op, !commitFails)], Do(sent, Commit(op, !commitFails));
        CommitEnds(s, sent, s', d, op, L2, tx, !commitFails);
      }
    }
  }

  lemma RecordGone(pending: map<TxId, Stored>, t: Task, mode: Option<Mode>, tries: nat -> C.Try, sent: nat)
    requires t.Parent? && BuildFanout(t.u, t.n, mode).Ok?
    ensures var tx := BuildFanout(t.u, t.n, mode).value;
      C.PendingAfter(pending, tx, L2Partial, tries, sent, true) - {IdOf(tx)} == pending - {IdOf(tx)}
  {
    hide BuildFanout, RecordOf;
  }

  // ----------------------------------------------------------- one turn of a chain

  lemma HopMoves(s: State, op: OutPoint)
    requires s.phase == Running && op in s.tasks && s.tasks[op].ChainTop? && s.tasks[op].u.value > 0
    ensures Enabled(s, BuildHop(op))
    ensures Moved(s, Do(s, BuildHop(op)), s.d, op, Trying(Hop, C.HopTx(s.tasks[op].u, s.cfg.mode.sustainFee)))
  {
    C.SustainIsHop(s.tasks[op].u, s.cfg.mode);
    hide BuildSustain, Replayables;
  }

  /** The tasks after a turn of the chain at op, whose tip is u; a cancelled chain does not come back to its loop. */
  function TasksAfterTurn(tasks: map<OutPoint, Task>, op: OutPoint, u: UTXO, fee: nat, t: C.Tick,
    turn: C.Turn): map<OutPoint, Task> {
    match turn
    case Advance => (tasks - {op}) + NewTasks(Hop, C.HopTx(u, fee))
    case Stay => tasks[op := if t.cancelled then Lost(u) else ChainTop(u)]
    case Stop(_) => tasks[op := Lost(u)]
  }

  /** The accepted end of a turn: the commit, or its failure. */
  lemma AcceptedTurn(s: State, op: OutPoint, tx: Tx, t: C.Tick) returns (actions: seq<Action>, s': State)
    requires s.phase == Running && op in s.tasks && s.tasks[op] == Trying(Hop, tx) && t.accepted
    ensures Plays(s, actions, s') && s'.phase == Running
    ensures if t.commitFails
      then Moved(s, s', SavePending(s.d, IdOf(tx), RecordOf(tx, L2Done, t.now)), op, Lost(tx.input))
      else
        && s'.d == Durable((s.d.utxos - {tx.input.op}) + Spendable(tx), s.d.pending - {IdOf(tx)}, s.d.stage)
        && s'.tasks == (s.tasks - {op}) + NewTasks(Hop, tx)
  {
    hide Enabled, Do, Plays, RecordOf, NewTasks, Spendable;
    var before, sent := SendMoves(s, op, t.now, true);
    CommitMoves(sent, op, !t.commitFails);
    PlaysSnoc(s, before, sent, Commit(op, !t.commitFails));
    actions, s' := before + [Commit(op, !t.commitFails)], Do(sent, Commit(op, !t.commitFails));
    assert sent.d.pending - {IdOf(tx)} == s.d.pending - {IdOf(tx)};
    assert sent.tasks - {op} == s.tasks - {op};
  }

  /** The refused end of a turn. */
  lemma RefusedTurn(s: State, op: OutPoint, tx: Tx, t: C.Tick) returns (actions: seq<Action>, s': State)
    requires op in s.tasks && s.tasks[op] == Trying(Hop, tx) && !t.accepted
    ensures Plays(s, actions, s')
    ensures var d := SavePending(s.d, IdOf(tx), RecordOf(tx, L2Done, t.now));
      Moved(s, s', if t.clearFails then d else ClearPending(d, IdOf(tx)), op,
        if t.cancelled then Lost(tx.input) else ChainTop(tx.input))
  {
    hide Enabled, Do, Plays, RecordOf, SavePending, ClearPending;
    var before, sent := SendMoves(s, op, t.now, false);
    ClearMoves(sent, op, !t.clearFails, !t.cancelled);
    PlaysSnoc(s, before, sent, Clear(op, !t.clearFails, !t.cancelled));
    actions, s' := before + [Clear(op, !t.clearFails, !t.cancelled)], Do(sent, Clear(op, !t.clearFails, !t.cancelled));
  }

  /** Every turn of runChain, with what it leaves in the store, is reached by actions of that chain. */
  lemma TurnPlays(s: State, op: OutPoint, t: C.Tick, turn: C.Turn, d': Durable)
    returns (actions: seq<Action>, s': State)
    requires s.phase == Running && op in s.tasks && s.tasks[op].ChainTop? && s.tasks[op].u.value > 0
    requires C.TurnLeaves(s.d, d', s.tasks[op].u, s.cfg.mode.sustainFee, t, turn)
    ensures Plays(s, actions, s') && s'.d == d' && s'.phase == Running
    ensures s'.tasks == TasksAfterTurn(s.tasks, op, s.tasks[op].u, s.cfg.mode.sustainFee, t, turn)
  {
    hide Enabled, Do, Plays, RecordOf, NewTasks, Spendable;
    var tx := C.HopTx(s.tasks[op].u, s.cfg.mode.sustainFee);
    HopMoves(s, op);
    PlaysOne(s, BuildHop(op));
    var built := Do(s, BuildHop(op));
    var more: seq<Action>;
    if t.saveFails {
      FailedSaveMoves(built, op, t.now);
      PlaysOne(built, Save(op, false, t.now));
      more, s' := [Save(op, false, t.now)], Do(built, Save(op, false, t.now));
    } else if t.accepted {
      more, s' := AcceptedTurn(built, op, tx, t);
      assert built.tasks - {op} == s.tasks - {op};
    } else {
      more, s' := RefusedTurn(built, op, tx, t);
      assert s.d.pending[IdOf(tx) := Encoded(RecordOf(tx, L2Done, t.now))] - {IdOf(tx)} == s.d.pending - {IdOf(tx)};
    }
    PlaysOn(s, [BuildHop(op)], built, more, s');
    actions := [BuildHop(op)] + more;
  }
}
