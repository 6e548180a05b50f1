/**
 Every transaction in flight, on record or committed is one that the builders
 make of its input: it pays out no more than it takes in, and a fanout has only
 positive outputs.
 */
module Built {
  import opened Outcomes
  import opened Ledger
  import opened StoreSpec
  import opened TxBuilder
  import opened Replay
  import opened Engine
  import opened Safety
  import opened SafetySteps

  predicate Pays(tx: Tx) {
    Sum(tx.outs) <= tx.input.value
  }

  /** A builder returns tx for its input, under one of the modes and, for a fanout, some width. */
  ghost predicate Made(kind: Kind, tx: Tx, modes: iset<Mode>) {
    if kind == Hop then exists mode :: mode in modes && BuildSustain(tx.input, Some(mode)) == Ok(tx)
    else exists n, mode :: mode in modes && BuildFanout(tx.input, n, Some(mode)) == Ok(tx)
  }

  /** A chain hop has one output; a fanout has some, all positive. */
  ghost predicate SoundIn(kind: Kind, tx: Tx, modes: iset<Mode>) {
    && Made(kind, tx, modes) && Pays(tx) && |tx.outs| > 0
    && (if kind == Hop then |tx.outs| == 1 else forall i :: 0 <= i < |tx.outs| ==> tx.outs[i] > 0)
  }

  /** A record carries the stage of its kind and a sound transaction. */
  ghost predicate SoundRecordIn(key: TxId, p: PendingBroadcast, modes: iset<Mode>) {
    Faithful(key, p) && exists kind :: p.stage == Some(StageOf(kind)) && SoundIn(kind, TxOf(key, p), modes)
  }

  ghost predicate SoundSpend(tx: Tx, modes: iset<Mode>) {
    exists kind :: SoundIn(kind, tx, modes)
  }

  ghost predicate BuiltIn(s: State, modes: iset<Mode>) {
    && (forall op :: op in s.tasks ==>
         forall kind :: AttemptOf(s.tasks[op], kind) ==> SoundIn(kind, s.tasks[op].tx, modes))
    && (forall key :: key in Replayables(s.d) ==> SoundRecordIn(key, Decode(key, s.d.pending[key]), modes))
    && (forall op :: op in s.h.committed ==> SoundSpend(s.h.committed[op], modes))
  }

  lemma FanoutIsSoundIn(u: UTXO, n: int, mode: Mode, kind: Kind, modes: iset<Mode>)
    requires kind != Hop && BuildFanout(u, n, Some(mode)).Ok? && mode in modes
    ensures SoundIn(kind, BuildFanout(u, n, Some(mode)).value, modes)
    ensures |BuildFanout(u, n, Some(mode)).value.outs| == n
  {
    FanoutOutcome(u, n, mode);
    hide BuildFanout;
    assert BuildFanout(u, n, Some(mode)).value.input == u;
  }

  lemma SustainIsSound(u: UTXO, mode: Mode, modes: iset<Mode>)
    requires BuildSustain(u, Some(mode)).Ok? && mode in modes
    ensures SoundIn(Hop, BuildSustain(u, Some(mode)).value, modes)
  {
    var tx := BuildSustain(u, Some(mode)).value;
    assert BuildSustain(tx.input, Some(mode)) == Ok(tx);
    assert Sum(tx.outs) == tx.outs[0] by { assert tx.outs[1..] == []; }
  }

  /** Attempts come from attempts, records and commits from what was there. */
  ghost predicate KeepsBuilt(s: State, s': State, modes: iset<Mode>) {
    && (forall op :: op in s'.tasks ==> forall kind :: AttemptOf(s'.tasks[op], kind) ==>
         SoundIn(kind, s'.tasks[op].tx, modes) ||
           (op in s.tasks && AttemptOf(s.tasks[op], kind) && s.tasks[op].tx == s'.tasks[op].tx))
    && (forall key :: key in s'.d.pending ==> key in s.d.pending && s'.d.pending[key] == s.d.pending[key])
    && s'.h.committed == s.h.committed
  }

  lemma KeepsBuiltIsEnough(s: State, s': State, modes: iset<Mode>)
    requires BuiltIn(s, modes) && KeepsBuilt(s, s', modes)
    ensures BuiltIn(s', modes)
  {
    hide SoundIn, SoundRecordIn, SoundSpend;
  }

  lemma OneAttempt(s: State, s': State, op: OutPoint, t: Task, modes: iset<Mode>)
    requires op in s.tasks && s'.tasks == s.tasks[op := t] && s'.d.pending == s.d.pending &&
      s'.h.committed == s.h.committed
    requires forall kind :: AttemptOf(t, kind) ==>
      SoundIn(kind, t.tx, modes) || (AttemptOf(s.tasks[op], kind) && s.tasks[op].tx == t.tx)
    ensures KeepsBuilt(s, s', modes)
  {
    hide SoundIn;
  }

  lemma BuildL2Built(s: State, op: OutPoint, modes: iset<Mode>)
    requires s.cfg.mode in modes && op in s.tasks && s.tasks[op].Parent?
    ensures KeepsBuilt(s, DoBuildL2(s, op), modes)
  {
    hide KeepsBuilt, SoundIn, BuildFanout;
    var s' := DoBuildL2(s, op);
    if s'.tasks[op].Trying? { FanoutIsSoundIn(s.tasks[op].u, s.tasks[op].n, s.cfg.mode, L2, modes); }
    OneAttempt(s, s', op, s'.tasks[op], modes);
  }

  lemma BuildHopBuilt(s: State, op: OutPoint, modes: iset<Mode>)
    requires s.cfg.mode in modes && op in s.tasks && s.tasks[op].ChainTop?
    ensures KeepsBuilt(s, DoBuildHop(s, op), modes)
  {
    hide KeepsBuilt, SoundIn, BuildSustain;
    var s' := DoBuildHop(s, op);
    if s'.tasks[op].Trying? { SustainIsSound(s.tasks[op].u, s.cfg.mode, modes); }
    assert s.tasks[op := s.tasks[op]] == s.tasks;
    OneAttempt(s, s', op, s'.tasks[op], modes);
  }

  lemma BeginL1Built(s: State, op: OutPoint, wrote: bool, modes: iset<Mode>)
    requires s.cfg.mode in modes && op in s.tasks
    ensures KeepsBuilt(s, BeginL1(s, op, wrote), modes)
  {
    hide KeepsBuilt, SoundIn, BuildFanout, L1Count;
    var s' := BeginL1(s, op, wrote);
    if s'.phase == InL1 {
      FanoutIsSoundIn(s.tasks[op].Held(), L1Count(s.cfg), s.cfg.mode, L1, modes);
    }
    assert s.tasks[op := s.tasks[op]] == s.tasks;
    OneAttempt(s, s', op, s'.tasks[op], modes);
  }

  /** All tasks of s' are without an attempt, or as they were. */
  ghost predicate StartsNothing(s: State, s': State) {
    && (forall op :: op in s'.tasks ==> s'.tasks[op].Active() ==>
      s'.tasks[op].Parent? || s'.tasks[op].ChainTop? || (op in s.tasks && s'.tasks[op] == s.tasks[op]))
    && s'.d.pending == s.d.pending && s'.h.committed == s.h.committed
  }

  lemma StartsNothingBuilt(s: State, s': State, modes: iset<Mode>)
    requires StartsNothing(s, s')
    ensures KeepsBuilt(s, s', modes)
  {
    hide SoundIn;
  }

  lemma BeginL2StartsNothing(s: State, order: seq<OutPoint>, wrote: bool)
    requires s.cfg.Valid() && IsOrder(order, s.tasks.Keys)
    ensures StartsNothing(s, BeginL2(s, order, wrote))
  {
    hide IsOrder;
  }

  lemma ResumeStartsNothing(s: State, wrote: bool)
    ensures StartsNothing(s, Resume(s, true, wrote)) && StartsNothing(s, Resume(s, false, wrote)) &&
      StartsNothing(s, Halt(s))
  {
  }

  lemma BootstrapBuilt(s: State, order: seq<OutPoint>, wrote: bool, modes: iset<Mode>)
    requires s.cfg.mode in modes && s.cfg.Valid() && IsOrder(order, s.tasks.Keys)
    ensures KeepsBuilt(s, Bootstrap(s, order, wrote), modes)
  {
    hide KeepsBuilt, StartsNothing, BeginL1, BeginL2, Resume, Halt, L1Count;
    ResumeStartsNothing(s, wrote);
    StartsNothingBuilt(s, Resume(s, true, wrote), modes);
    StartsNothingBuilt(s, Resume(s, false, wrote), modes);
    StartsNothingBuilt(s, Halt(s), modes);
    BeginL2StartsNothing(s, order, wrote);
    StartsNothingBuilt(s, BeginL2(s, order, wrote), modes);
    if |order| == 1 { BeginL1Built(s, order[0], wrote, modes); }
  }

  lemma SameTasksBuilt(s: State, s': State, s1: State, modes: iset<Mode>)
    requires KeepsBuilt(s1, s', modes) && s1.tasks == s.tasks && s1.d == s.d && s1.h == s.h
    ensures KeepsBuilt(s, s', modes)
  {
    hide SoundIn;
  }

  lemma LocalStartsNothing(s: State, op: OutPoint, kind: Kind)
    requires op in s.tasks
    ensures StartsNothing(s, Drop(s, op)) && StartsNothing(s, GiveUp(s, op, kind))
  {
  }

  lemma QuietStartsNothing(s: State, a: Action)
    requires Enabled(s, a) &&
      (a.Fund? || a.Configure? || a.MarkL1? || a.PopChain? || a.Crash? || a.ReplayMark? || a.Deliver?)
    ensures StartsNothing(s, Do(s, a))
  {
    hide Replayables;
  }

  lemma WholesaleStartsNothing(s: State, a: Action)
    requires Enabled(s, a) && (a.FinishL2? || a.Boot?)
    ensures StartsNothing(s, Do(s, a))
  {
    hide Replayables, ProducedCount;
  }

  lemma ClearBuilt(s: State, op: OutPoint, cleared: bool, retry: bool, modes: iset<Mode>)
    requires op in s.tasks && s.tasks[op].ToClear?
    ensures KeepsBuilt(s, DoClear(s, op, cleared, retry), modes)
  {
    hide SoundIn;
  }

  lemma ReplyBuilt(s: State, op: OutPoint, accepted: bool, modes: iset<Mode>)
    requires op in s.tasks && s.tasks[op].Saved?
    ensures KeepsBuilt(s, DoReply(s, op, accepted), modes)
  {
    hide SoundIn;
  }

  lemma SaveBuilt(s: State, op: OutPoint, now: nat, modes: iset<Mode>)
    requires BuiltIn(s, modes) && op in s.tasks && s.tasks[op].Trying?
    ensures BuiltIn(DoSave(s, op, true, now), modes)
  {
    hide SoundIn, Created;
    var kind, tx := s.tasks[op].kind, s.tasks[op].tx;
    SavedRecord(s.d, tx, StageOf(kind), now);
    assert AttemptOf(s.tasks[op], kind);
    assert SoundRecordIn(IdOf(tx), RecordOf(tx, StageOf(kind), now), modes);
    hide SoundRecordIn;
  }

  lemma CommitBuilt(s: State, op: OutPoint, modes: iset<Mode>)
    requires BuiltIn(s, modes) && op in s.tasks && s.tasks[op].ToCommit?
    ensures BuiltIn(DoCommit(s, op, true), modes)
  {
    hide SoundIn, SoundRecordIn, PutAll, Spendable;
    var kind := s.tasks[op].kind;
    assert AttemptOf(s.tasks[op], kind);
    assert SoundSpend(s.tasks[op].tx, modes);
    hide SoundSpend;
    NewTasksIdle(kind, s.tasks[op].tx);
    hide NewTasks;
  }

  lemma NewTasksIdle(kind: Kind, tx: Tx)
    ensures forall op :: op in NewTasks(kind, tx) ==> forall k :: !AttemptOf(NewTasks(kind, tx)[op], k)
  {
    hide Spendable;
  }

  lemma ReplayBuilt(s: State, key: TxId, modes: iset<Mode>)
    requires BuiltIn(s, modes) && key in Replayables(s.d) && WriteAhead(s.d)
    ensures Faithful(key, Decode(key, s.d.pending[key])) && BuiltIn(DoReplayCommit(s, key), modes)
  {
    hide PutAll, Spendable, SoundIn;
    ReplayOneIsSpend(s.d, key);
    hide WriteAhead, CommitPending;
    assert SoundRecordIn(key, Decode(key, s.d.pending[key]), modes);
    assert SoundSpend(TxOf(key, Decode(key, s.d.pending[key])), modes);
    hide SoundRecordIn, SoundSpend;
  }

  lemma GarbleBuilt(s: State, key: TxId, stored: Stored, modes: iset<Mode>)
    requires BuiltIn(s, modes) && Enabled(s, Garble(key, stored))
    ensures BuiltIn(Do(s, Garble(key, stored)), modes)
  {
    hide SoundIn, SoundRecordIn, SoundSpend;
    GarbledRecord(s.d, Do(s, Garble(key, stored)).d, key, stored);
  }

  lemma BuiltStep(s: State, a: Action, modes: iset<Mode>)
    requires s.cfg.mode in modes && Inv(s) && BuiltIn(s, modes) && Enabled(s, a)
    ensures BuiltIn(Do(s, a), modes)
  {
    hide Mirror, Tracked, RecordsOwned, SentOwned, TasksFitPhase, WriteAhead, BuiltIn, KeepsBuilt, StartsNothing,
         Replayables;
    hide Bootstrap, BeginL2, Drop, GiveUp, DoBuildL2, DoBuildHop, DoBoot, IsOrder, ProducedCount;
    var s' := Do(s, a);
    match a {
      case Save(op, ok, now) =>
        if ok {
          SaveBuilt(s, op, now, modes);
        } else {
          LocalStartsNothing(s, op, s.tasks[op].kind);
          StartsNothingBuilt(s, s', modes);
        }
      case Commit(op, ok) =>
        if ok { CommitBuilt(s, op, modes); } else { LocalStartsNothing(s, op, L1); StartsNothingBuilt(s, s', modes); }
      case Panic(op) => LocalStartsNothing(s, op, L1); StartsNothingBuilt(s, s', modes);
      case Clear(op, cleared, retry) => ClearBuilt(s, op, cleared, retry, modes);
      case Reply(op, accepted) => ReplyBuilt(s, op, accepted, modes);
      case BuildL2(op) => BuildL2Built(s, op, modes);
      case BuildHop(op) => BuildHopBuilt(s, op, modes);
      case Dispatch(order, wrote) =>
        BootstrapBuilt(s.(locked := true), order, wrote, modes);
        SameTasksBuilt(s, s', s.(locked := true), modes);
      case StartL2(order, wrote) => BeginL2StartsNothing(s, order, wrote); StartsNothingBuilt(s, s', modes);
      case ReplayCommit(key) => ReplayBuilt(s, key, modes);
      case FinishL2(_) => WholesaleStartsNothing(s, a); StartsNothingBuilt(s, s', modes);
      case Boot(_, _) => WholesaleStartsNothing(s, a); StartsNothingBuilt(s, s', modes);
      case Garble(key, stored) => GarbleBuilt(s, key, stored, modes);
      case _ => QuietStartsNothing(s, a); StartsNothingBuilt(s, s', modes);
    }
    if !(a.Save? && a.ok) && !(a.Commit? && a.ok) && !a.ReplayCommit? && !a.Garble? {
      KeepsBuiltIsEnough(s, s', modes);
    }
  }

  /** Every transaction of a run was made under a mode that the process was started with or set to. */
  lemma {:induction false} RunBuiltIn(states: seq<State>, actions: seq<Action>, i: nat, modes: iset<Mode>)
    requires IsRun(states, actions) && i < |states| && forall j :: 0 <= j <= i ==> states[j].cfg.mode in modes
    ensures BuiltIn(states[i], modes)
  {
    hide Enabled, Do, Inv;
    if i > 0 {
      hide Init, BuiltIn;
      RunBuiltIn(states, actions, i - 1, modes);
      RunKeepsInv(states, actions, i - 1);
      BuiltStep(states[i - 1], actions[i - 1], modes);
    }
  }

  // ------------------------------------------------------------- under any mode

  ghost const ANY_MODE: iset<Mode> := iset mode: Mode | true

  ghost predicate Sound(kind: Kind, tx: Tx) { SoundIn(kind, tx, ANY_MODE) }

  ghost predicate SoundRecord(key: TxId, p: PendingBroadcast) { SoundRecordIn(key, p, ANY_MODE) }

  ghost predicate WellBuilt(s: State) { BuiltIn(s, ANY_MODE) }

  lemma FanoutIsSound(u: UTXO, n: int, mode: Mode, kind: Kind)
    requires kind != Hop && BuildFanout(u, n, Some(mode)).Ok?
    ensures Sound(kind, BuildFanout(u, n, Some(mode)).value) && |BuildFanout(u, n, Some(mode)).value.outs| == n
  {
    hide BuildFanout;
    FanoutIsSoundIn(u, n, mode, kind, ANY_MODE);
  }

  lemma RunKeepsBuilt(states: seq<State>, actions: seq<Action>, i: nat)
    requires IsRun(states, actions) && i < |states|
    ensures WellBuilt(states[i])
  {
    hide IsRun, BuiltIn;
    RunBuiltIn(states, actions, i, ANY_MODE);
  }
}
