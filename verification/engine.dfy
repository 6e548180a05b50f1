/**
 internal/engine as a step system. Each action is one atomic event: one bbolt
 Update, one broadcaster reply, one in-memory hand-over, or a crash. Goroutines
 are the entries of tasks, so every order of actions is an interleaving.

 Store failures, broadcaster replies, panics and timing are chosen by the
 environment through the parameters of an action.
 */
module Engine {
  import opened Outcomes
  import opened Ledger
  import opened Stages
  import opened StoreSpec
  import opened TxBuilder
  import opened Replay
  import opened Widths

  datatype Config = Config(numChains: int, fanoutSize: int, mode: Mode) {
    predicate Valid() { numChains > 0 && fanoutSize > 0 && mode.sustainFee > 0 }
  }

  /** Which code sends a transaction: the L1 fanout, an L2 fanout, or a chain hop. */
  datatype Kind = L1 | L2 | Hop

  /** What the process holds of one durable UTXO, and how far it is with spending it. */
  datatype Task =
    | Queued(u: UTXO)                // on the queue
    | Parent(u: UTXO, n: nat)        // an L2 goroutine about to build
    | ChainTop(u: UTXO)              // a chain at the top of its loop
    | Trying(kind: Kind, tx: Tx)     // built, pending record not yet written
    | Saved(kind: Kind, tx: Tx)      // pending record written, broadcast in flight
    | ToCommit(kind: Kind, tx: Tx)   // the broadcaster returned nil
    | ToClear(kind: Kind, tx: Tx)    // the broadcaster returned an error
    | Produced(u: UTXO)              // an L2 output waiting for the other fanouts
    | Lost(u: UTXO)                  // its goroutine has ended
  {
    function Held(): UTXO {
      match this
      case Queued(u) => u
      case Parent(u, _) => u
      case ChainTop(u) => u
      case Produced(u) => u
      case Lost(u) => u
      case Trying(_, tx) => tx.input
      case Saved(_, tx) => tx.input
      case ToCommit(_, tx) => tx.input
      case ToClear(_, tx) => tx.input
    }

    /** A goroutine is working on the UTXO. */
    predicate Active() {
      !Queued? && !Produced? && !Lost?
    }
  }

  datatype Phase =
    | Down          // before New has finished restoring
    | Idle          // restored, nothing launched
    | InL1          // the L1 fanout is in flight
    | L1Committed   // L1 committed, its stage not yet written
    | L1Marked      // about to start L2
    | InL2          // L2 goroutines running
    | Running       // chains running
    | Halted        // Run has returned an error

  /**
   What happened, for stating properties. The engine reads none of it: the
   network delivers what was sent, and nil means accepted.
   */
  datatype History = History(
    seeds: map<OutPoint, UTXO>,      // funding outputs saved
    committed: map<OutPoint, Tx>,    // transactions applied to the store, by the outpoint they spend
    accepted: set<Tx>,               // transactions the network has accepted
    sent: set<Tx>,                   // transactions handed to the broadcaster in this run
    inFlight: set<Tx>,               // transactions ever handed to it and not answered yet
    refused: set<Tx>,                // transactions it ever answered with an error
    parents: seq<OutPoint>,          // the last L2 fanout: its parents in drain order,
    widths: seq<nat>,                //   the width given to each,
    chains: nat,                     //   and the number of chains it aimed for
    honest: bool,                    // every error so far meant "not accepted"
    trusted: bool,                   // every replayed record so far had been accepted
    metaOk: bool,                    // every stage write so far succeeded
    intact: bool)                    // no replayable record was ever garbled

  datatype State = State(
    d: Durable,
    phase: Phase,
    tasks: map<OutPoint, Task>,
    failed: bool,                    // some L2 fanout of this run failed
    locked: bool,                    // bootstrapLocked
    cfg: Config,
    mem: Stage,                      // state.BootstrapStage
    toMark: Option<Stage>,           // replay: a stage still to be written
    h: History)

  datatype Action =
    | Fund(us: map<OutPoint, UTXO>)
    | Configure(cfg: Config)
    | Dispatch(order: seq<OutPoint>, wrote: bool)
    | MarkL1(wrote: bool)
    | StartL2(order: seq<OutPoint>, wrote: bool)
    | BuildL2(op: OutPoint)
    | FinishL2(wrote: bool)
    | PopChain(op: OutPoint)
    | BuildHop(op: OutPoint)
    | Save(op: OutPoint, ok: bool, now: nat)
    | Deliver(tx: Tx)
    | Reply(op: OutPoint, accepted: bool)
    | Commit(op: OutPoint, ok: bool)
    | Clear(op: OutPoint, cleared: bool, retry: bool)
    | Panic(op: OutPoint)
    | Crash
    | Garble(key: TxId, stored: Stored)
    | ReplayCommit(key: TxId)
    | ReplayMark(wrote: bool)
    | Boot(cfg: Config, wrote: bool)

  function StageOf(kind: Kind): Stage {
    match kind
    case L1 => L1Done
    case L2 => L2Partial
    case Hop => L2Done
  }

  /** setBootstrapStage: memory first, then the store; a failed write is only logged. */
  function SetMeta(s: State, stage: Stage, wrote: bool): State {
    s.(d := if wrote then SetStage(s.d, stage) else s.d,
       mem := stage,
       h := s.h.(metaOk := s.h.metaOk && wrote))
  }

  function Halt(s: State): State {
    s.(phase := Halted)
  }

  function L1Count(cfg: Config): int {
    CeilDiv(cfg.numChains, cfg.fanoutSize)
  }

  /** A drain order: every key once. The order among equal heights is not fixed. */
  predicate IsOrder(order: seq<OutPoint>, keys: set<OutPoint>) {
    && (forall i, j :: 0 <= i < j < |order| ==> order[i] != order[j])
    && (forall i :: 0 <= i < |order| ==> order[i] in keys)
    && |order| == |keys|
  }

  /** bootstrapFull up to the first pending record. */
  function BeginL1(s: State, op: OutPoint, wrote: bool): State
    requires op in s.tasks
  {
    var s1 := SetMeta(s, StageNone, wrote);
    match BuildFanout(s.tasks[op].Held(), L1Count(s.cfg), Some(s.cfg.mode))
    case Err(_) => Halt(s1)
    case Ok(tx) => s1.(phase := InL1, tasks := s.tasks[op := Trying(L1, tx)])
  }

  /** One L2 goroutine per drained UTXO, each with the width of its place in the order. */
  function Parents(tasks: map<OutPoint, Task>, order: seq<OutPoint>, numChains: int): map<OutPoint, Task>
    requires IsOrder(order, tasks.Keys)
  {
    map i | 0 <= i < |order| :: order[i] := Parent(tasks[order[i]].Held(), L2Width(numChains, |order|, i))
  }

  /** bootstrapL2 up to the start of its goroutines. */
  function BeginL2(s: State, order: seq<OutPoint>, wrote: bool): State
    requires s.cfg.Valid()
    requires IsOrder(order, s.tasks.Keys)
  {
    var s1 := SetMeta(s, L2Partial, wrote);
    var widths := L2Widths(s.cfg.numChains, |order|);
    var s2 := s1.(h := s1.h.(parents := order, widths := widths, chains := s.cfg.numChains));
    if |order| == 0 || |order| > s.cfg.numChains then Halt(s2)
    else s2.(
      phase := InL2,
      failed := false,
      tasks := Parents(s.tasks, order, s.cfg.numChains))
  }

  function Resume(s: State, mark: bool, wrote: bool): State {
    (if mark then SetMeta(s, L2Done, wrote) else s).(phase := Running)
  }

  /** bootstrap and resumePartialL2: the branch taken for a stage and a queue length. */
  function Bootstrap(s: State, order: seq<OutPoint>, wrote: bool): State
    requires s.cfg.Valid()
    requires IsOrder(order, s.tasks.Keys)
  {
    var queued := |order|;
    var l1 := L1Count(s.cfg);
    match s.mem
    case L2Done => Resume(s, false, wrote)
    case L1Done => BeginL2(s, order, wrote)
    case L2Partial =>
      if queued >= s.cfg.numChains then Resume(s, true, wrote)
      else if queued == l1 then BeginL2(s, order, wrote)
      else if queued > 0 then Resume(s, true, wrote)
      else Halt(s)
    case Unknown => Halt(s)
    case StageNone =>
      if queued == 1 then BeginL1(s, order[0], wrote)
      else if queued == l1 then BeginL2(s, order, wrote)
      else if queued > 0 then Resume(s, true, wrote)
      else Halt(s)
  }

  /** An attempt of kind that ends without a commit: L1 ends the run, L2 requeues its parent, a chain stops. */
  function GiveUp(s: State, op: OutPoint, kind: Kind): State
    requires op in s.tasks
  {
    var u := s.tasks[op].Held();
    match kind
    case L1 => s.(phase := Halted, tasks := s.tasks[op := Queued(u)])
    case L2 => s.(failed := true, tasks := s.tasks[op := Queued(u)])
    case Hop => s.(tasks := s.tasks[op := Lost(u)])
  }

  /** A goroutine that ends leaving its UTXO behind: a panic, or a failed commit. */
  function Drop(s: State, op: OutPoint): State
    requires op in s.tasks
  {
    s.(phase := if s.phase == InL1 then Halted else s.phase,
       failed := s.failed || s.phase == InL2,
       tasks := s.tasks[op := Lost(s.tasks[op].Held())])
  }

  function NewTask(kind: Kind, u: UTXO): Task {
    match kind
    case L1 => Queued(u)
    case L2 => Produced(u)
    case Hop => ChainTop(u)
  }

  /** The tasks of the outputs that a commit makes durable. */
  function NewTasks(kind: Kind, tx: Tx): map<OutPoint, Task> {
    map op | op in Spendable(tx) :: NewTask(kind, Spendable(tx)[op])
  }

  predicate AllQueued(s: State) {
    forall op :: op in s.tasks ==> s.tasks[op].Queued?
  }

  function ProducedCount(s: State): nat {
    |set op | op in s.tasks && s.tasks[op].Produced?|
  }

  /** The push of every L2 output after all fanouts have ended. */
  function Requeue(tasks: map<OutPoint, Task>): map<OutPoint, Task> {
    map op | op in tasks :: if tasks[op].Produced? then Queued(tasks[op].u) else tasks[op]
  }

  predicate Enabled(s: State, a: Action) {
    match a
    case Fund(us) =>
      && s.phase == Idle && !s.locked && s.d.utxos == map[]
      && forall op :: op in us ==> op.txid.External? && us[op].op == op && us[op].value > 0 && op !in s.h.seeds
    case Configure(cfg) =>
      && s.phase == Idle && !s.locked && s.tasks == map[] && cfg.Valid()
      && cfg.mode == s.cfg.mode.WithSustainFee(cfg.mode.sustainFee)
    case Dispatch(order, _) => s.phase == Idle && !s.locked && s.cfg.Valid() && IsOrder(order, s.tasks.Keys)
    case MarkL1(_) => s.phase == L1Committed
    case StartL2(order, _) => s.phase == L1Marked && s.cfg.Valid() && IsOrder(order, s.tasks.Keys)
    case BuildL2(op) => s.phase == InL2 && op in s.tasks && s.tasks[op].Parent?
    case FinishL2(_) => s.phase == InL2 && forall op :: op in s.tasks ==> !s.tasks[op].Active()
    case PopChain(op) => s.phase == Running && op in s.tasks && s.tasks[op].Queued?
    case BuildHop(op) => s.phase == Running && op in s.tasks && s.tasks[op].ChainTop?
    case Save(op, _, _) => op in s.tasks && s.tasks[op].Trying?
    case Deliver(tx) => tx in s.h.inFlight || tx in s.h.refused
    case Reply(op, accepted) => op in s.tasks && s.tasks[op].Saved? && (accepted ==> s.tasks[op].tx in s.h.accepted)
    case Commit(op, _) => op in s.tasks && s.tasks[op].ToCommit?
    case Clear(op, _, _) => op in s.tasks && s.tasks[op].ToClear?
    case Panic(op) => op in s.tasks && s.tasks[op].Active()
    case Crash => true
    case Garble(key, stored) => s.phase == Down && !Replayable(key, stored)
    case ReplayCommit(key) =>
      s.phase == Down && s.toMark.None? && key in Replayables(s.d) && Faithful(key, Decode(key, s.d.pending[key]))
    case ReplayMark(_) => s.phase == Down && s.toMark.Some?
    case Boot(cfg, _) => s.phase == Down && s.toMark.None? && Replayables(s.d) == {} && cfg.Valid()
  }

  function Do(s: State, a: Action): State
    requires Enabled(s, a)
  {
    match a
    case Fund(us) =>
      s.(d := s.d.(utxos := us), tasks := map op | op in us :: Queued(us[op]), h := s.h.(seeds := s.h.seeds + us))
    case Configure(cfg) => s.(cfg := cfg)
    case Dispatch(order, wrote) => Bootstrap(s.(locked := true), order, wrote)
    case MarkL1(wrote) => SetMeta(s, L1Done, wrote).(phase := L1Marked)
    case StartL2(order, wrote) => BeginL2(s, order, wrote)
    case BuildL2(op) => DoBuildL2(s, op)
    case FinishL2(wrote) =>
      var s1 := s.(tasks := Requeue(s.tasks));
      if s.failed || ProducedCount(s) != s.cfg.numChains then Halt(SetMeta(s1, L2Partial, wrote))
      else SetMeta(s1, L2Done, wrote).(phase := Running)
    case PopChain(op) => s.(tasks := s.tasks[op := ChainTop(s.tasks[op].u)])
    case BuildHop(op) => DoBuildHop(s, op)
    case Save(op, ok, now) => DoSave(s, op, ok, now)
    case Deliver(tx) => s.(h := s.h.(accepted := s.h.accepted + {tx}, honest := s.h.honest && tx in s.h.inFlight))
    case Reply(op, accepted) => DoReply(s, op, accepted)
    case Commit(op, ok) => DoCommit(s, op, ok)
    case Clear(op, cleared, retry) => DoClear(s, op, cleared, retry)
    case Panic(op) => Drop(s, op)
    case Crash =>
      s.(phase := Down, tasks := map[], failed := false, locked := false, mem := StageNone, toMark := None,
         h := s.h.(sent := {}))
    case Garble(key, stored) =>
      s.(d := s.d.(pending := s.d.pending[key := stored]),
         h := s.h.(intact := s.h.intact && key !in Replayables(s.d)))
    case ReplayCommit(key) => DoReplayCommit(s, key)
    case ReplayMark(wrote) => SetMeta(s, s.toMark.value, wrote).(toMark := None)
    case Boot(cfg, wrote) => DoBoot(s, cfg, wrote)
  }

  function DoBuildL2(s: State, op: OutPoint): State
    requires op in s.tasks && s.tasks[op].Parent?
  {
    match BuildFanout(s.tasks[op].u, s.tasks[op].n, Some(s.cfg.mode))
    case Err(_) => GiveUp(s, op, L2)
    case Ok(tx) => s.(tasks := s.tasks[op := Trying(L2, tx)])
  }

  /** A chain that cannot build stays at the top of its loop. */
  function DoBuildHop(s: State, op: OutPoint): State
    requires op in s.tasks && s.tasks[op].ChainTop?
  {
    match BuildSustain(s.tasks[op].u, Some(s.cfg.mode))
    case Err(_) => s
    case Ok(tx) => s.(tasks := s.tasks[op := Trying(Hop, tx)])
  }

  function DoSave(s: State, op: OutPoint, ok: bool, now: nat): State
    requires op in s.tasks && s.tasks[op].Trying?
  {
    var kind, tx := s.tasks[op].kind, s.tasks[op].tx;
    if !ok then GiveUp(s, op, kind)
    else s.(
      d := SavePending(s.d, IdOf(tx), RecordOf(tx, StageOf(kind), now)),
      tasks := s.tasks[op := Saved(kind, tx)],
      h := s.h.(sent := s.h.sent + {tx}, inFlight := s.h.inFlight + {tx}))
  }

  function DoReply(s: State, op: OutPoint, accepted: bool): State
    requires op in s.tasks && s.tasks[op].Saved?
  {
    var kind, tx := s.tasks[op].kind, s.tasks[op].tx;
    if accepted then s.(tasks := s.tasks[op := ToCommit(kind, tx)], h := s.h.(inFlight := s.h.inFlight - {tx}))
    else s.(
      tasks := s.tasks[op := ToClear(kind, tx)],
      h := s.h.(
        inFlight := s.h.inFlight - {tx},
        refused := s.h.refused + {tx},
        honest := s.h.honest && tx !in s.h.accepted))
  }

  function DoCommit(s: State, op: OutPoint, ok: bool): State
    requires op in s.tasks && s.tasks[op].ToCommit?
  {
    var kind, tx := s.tasks[op].kind, s.tasks[op].tx;
    if !ok then Drop(s, op)
    else s.(
      d := CommitPending(s.d, Some(IdOf(tx)), [tx.input], Created(tx)),
      phase := if kind == L1 then L1Committed else s.phase,
      tasks := (s.tasks - {op}) + NewTasks(kind, tx),
      h := s.h.(committed := s.h.committed[op := tx]))
  }

  function DoClear(s: State, op: OutPoint, cleared: bool, retry: bool): State
    requires op in s.tasks && s.tasks[op].ToClear?
  {
    var kind, tx := s.tasks[op].kind, s.tasks[op].tx;
    var s1 := s.(d := if cleared then ClearPending(s.d, IdOf(tx)) else s.d);
    if !retry then GiveUp(s1, op, kind)
    else s1.(tasks := s.tasks[op := if kind == Hop then ChainTop(tx.input) else Trying(kind, tx)])
  }

  function DoReplayCommit(s: State, key: TxId): State
    requires key in s.d.pending && Faithful(key, Decode(key, s.d.pending[key]))
  {
    var p := Decode(key, s.d.pending[key]);
    s.(d := ReplayOne(s.d, key),
       toMark := p.stage,
       h := s.h.(
         committed := s.h.committed[key.input := TxOf(key, p)],
         trusted := s.h.trusted && TxOf(key, p) in s.h.accepted))
  }

  /**
   The end of New: records that cannot be replayed make the stage unknown, the
   persisted stage then overrides the one in memory, and the queue is what the
   store holds.
   */
  function DoBoot(s: State, cfg: Config, wrote: bool): State {
    var s1 := if s.d.pending == map[] then s else SetMeta(s, Unknown, wrote);
    s1.(phase := Idle,
        cfg := cfg,
        mem := if s1.d.stage.Some? then s1.d.stage.value else s1.mem,
        tasks := map op | op in s1.d.utxos :: Queued(s1.d.utxos[op]))
  }

  /** A fresh state file, possibly with records from elsewhere that cannot be replayed. */
  predicate Init(s: State) {
    && s.phase == Down && s.tasks == map[] && !s.failed && !s.locked && s.mem == StageNone && s.toMark.None?
    && s.d.utxos == map[] && s.d.stage.None? && Replayables(s.d) == {}
    && s.h == History(map[], map[], {}, {}, {}, {}, [], [], 0, true, true, true, true)
  }

  /** The states of a run of the system: any number of actions, crashes included. */
  ghost predicate IsRun(states: seq<State>, actions: seq<Action>) {
    && |states| == |actions| + 1
    && Init(states[0])
    && forall i :: 0 <= i < |actions| ==> Enabled(states[i], actions[i]) && states[i + 1] == Do(states[i], actions[i])
  }
}
