/**
 Pieces of runs, to build runs from: a process that is always started with one
 configuration is funded, starts its fanouts, has transactions refused or
 committed, crashes, and starts again.
 */
module Scenarios {
  import opened Outcomes
  import opened Ledger
  import opened Stages
  import opened StoreSpec
  import opened TxBuilder
  import opened Replay
  import opened Widths
  import opened Engine
  import opened Runs
  import opened Safety
  import opened SafetySteps
  import opened Sequential
  import opened Progress
  import opened Blocked

  // --------------------------------------------------------- runs with one configuration

  /** A fresh process. */
  function Fresh(cfg: Config): State {
    State(Durable(map[], map[], None), Down, map[], false, false, cfg, StageNone, None,
          History(map[], map[], {}, {}, {}, {}, [], [], 0, true, true, true, true))
  }

  predicate KeepsConfig(actions: seq<Action>, cfg: Config) {
    forall j :: 0 <= j < |actions| ==> !actions[j].Configure? && (actions[j].Boot? ==> actions[j].cfg == cfg)
  }

  /** Played from a fresh process that is only ever started with cfg, the actions lead to s. */
  ghost predicate Reached(cfg: Config, actions: seq<Action>, s: State) {
    cfg.Valid() && Plays(Fresh(cfg), actions, s) && KeepsConfig(actions, cfg) && s.cfg == cfg && s.h.metaOk
  }

  lemma Extend(cfg: Config, actions: seq<Action>, s: State, a: Action)
    requires Reached(cfg, actions, s) && Enabled(s, a) && !a.Configure? && (a.Boot? ==> a.cfg == cfg)
    requires Do(s, a).cfg == cfg && Do(s, a).h.metaOk
    ensures Reached(cfg, actions + [a], Do(s, a))
  {
    hide Enabled, Do, Plays;
    PlaysSnoc(Fresh(cfg), actions, s, a);
  }

  lemma ConfigFrame(s: State, a: Action)
    requires Enabled(s, a) && !a.Configure? && !a.Boot?
    ensures Do(s, a).cfg == s.cfg
  {
    hide Replayables, ProducedCount, IsOrder, Bootstrap, BeginL2, BuildFanout, BuildSustain, Parents, RecordOf,
         CommitPending, ReplayOne;
    match a {
      case Dispatch(order, wrote) => BootstrapFrame(s.(locked := true), order, wrote);
      case StartL2(order, wrote) => BeginL2Frame(s, order, wrote);
      case _ =>
    }
  }

  lemma BootConfig(s: State, a: Action)
    requires Enabled(s, a) && a.Boot?
    ensures Do(s, a).cfg == a.cfg
  {
    hide Replayables;
  }

  lemma {:induction false} ConfigStays(states: seq<State>, actions: seq<Action>, cfg: Config, i: nat)
    requires IsRun(states, actions) && states[0].cfg == cfg && KeepsConfig(actions, cfg) && i < |states|
    ensures states[i].cfg == cfg
  {
    hide Enabled, Do, Init;
    if i > 0 {
      ConfigStays(states, actions, cfg, i - 1);
      var s, a := states[i - 1], actions[i - 1];
      if a.Boot? { BootConfig(s, a); } else { ConfigFrame(s, a); }
    }
  }

  /** Actions lead to one state only. */
  lemma {:induction false} PlaysIs(states: seq<State>, actions: seq<Action>, i: nat, more: seq<Action>, s': State)
    requires IsRun(states, actions) && i + |more| <= |actions| && actions[i..i + |more|] == more
    requires Plays(states[i], more, s')
    ensures states[i + |more|] == s'
    decreases |more|
  {
    hide Enabled, Do, Init;
    if more != [] {
      assert actions[i] == more[0];
      assert actions[i + 1..i + 1 + |more[1..]|] == more[1..];
      PlaysIs(states, actions, i + 1, more[1..], s');
    }
  }

  lemma FreshIsInit(cfg: Config)
    requires cfg.Valid()
    ensures Init(Fresh(cfg)) && Enabled(Fresh(cfg), Boot(cfg, true))
    ensures Do(Fresh(cfg), Boot(cfg, true)) == Fresh(cfg).(phase := Idle)
  {
  }

  /** What can be reached, with one more action, as a run that passes through an earlier state. */
  lemma AsRun(cfg: Config, before: seq<Action>, mid: State, actions: seq<Action>, s: State, a: Action)
    returns (states: seq<State>)
    requires Reached(cfg, before, mid) && Reached(cfg, actions, s) && before <= actions
    requires Enabled(s, a) && !a.Configure? && !a.Boot?
    ensures IsRun(states, actions + [a]) && states[|before|] == mid && states[|actions|] == s
    ensures forall j :: 0 <= j <= |actions| ==> states[j].cfg == cfg
  {
    hide Do, Enabled, Init, Plays, IsRun;
    PlaysOne(s, a);
    PlaysOn(Fresh(cfg), actions, s, [a], Do(s, a));
    var all := actions + [a];
    states := RunFrom(cfg, all, Do(s, a));
    PlaysIs(states, all, 0, before, mid);
    PlaysIs(states, all, 0, actions, s);
    forall j | 0 <= j <= |actions| ensures states[j].cfg == cfg { ConfigStays(states, all, cfg, j); }
  }

  lemma RunFrom(cfg: Config, actions: seq<Action>, s: State) returns (states: seq<State>)
    requires cfg.Valid() && Plays(Fresh(cfg), actions, s)
    ensures IsRun(states, actions) && |states| == |actions| + 1 && states[0] == Fresh(cfg)
  {
    hide Do, Enabled, Init, Plays;
    FreshIsInit(cfg);
    assert [] + actions == actions;
    states := RunExtends([Fresh(cfg)], [], actions, s);
    assert states[0] == states[..1][0];
  }

  // ------------------------------------------------------------------------- funding

  function SeedOp(i: nat): OutPoint {
    OutPoint(External(i), 0)
  }

  function Seed(i: nat): UTXO {
    UTXO(SeedOp(i), AMPLE, 0)
  }

  function Seeds(n: nat): (us: Utxos)
    ensures forall i: nat :: i < n ==> SeedOp(i) in us && us[SeedOp(i)] == Seed(i)
    ensures forall op :: op in us ==> op.txid.External? && op == SeedOp(op.txid.id) && op.txid.id < n
    ensures |us| == n
  {
    if n == 0 then map[] else Seeds(n - 1)[SeedOp(n - 1) := Seed(n - 1)]
  }

  function QueuedAll(us: Utxos): map<OutPoint, Task> {
    map op | op in us :: Queued(us[op])
  }

  /** A process that has restored d and launched nothing. */
  ghost predicate IdleAt(s: State, d: Durable) {
    && s.phase == Idle && s.d == d && d.pending == map[] && !s.locked && s.toMark.None?
    && s.tasks == QueuedAll(d.utxos)
    && s.mem == (if d.stage.None? then StageNone else d.stage.value)
  }

  lemma FundDoes(s: State, us: Utxos)
    requires s.phase == Idle && !s.locked && s.d.utxos == map[] && s.h.seeds == map[]
    requires forall op :: op in us ==> op.txid.External? && us[op].op == op && us[op].value > 0
    ensures Enabled(s, Fund(us))
    ensures Do(s, Fund(us)) == s.(d := s.d.(utxos := us), tasks := QueuedAll(us), h := s.h.(seeds := us))
  {
    hide Replayables;
    assert map[] + us == us;
  }

  lemma ReachFunded(cfg: Config, n: nat) returns (actions: seq<Action>, s: State)
    requires cfg.Valid()
    ensures Reached(cfg, actions, s) && IdleAt(s, Durable(Seeds(n), map[], None)) && s.h.accepted == {}
  {
    hide Do, Enabled, Plays, Seeds, QueuedAll;
    FreshIsInit(cfg);
    var s1, a := Fresh(cfg).(phase := Idle), Fund(Seeds(n));
    PlaysOne(Fresh(cfg), Boot(cfg, true));
    FundDoes(s1, Seeds(n));
    Extend(cfg, [Boot(cfg, true)], s1, a);
    actions, s := [Boot(cfg, true)] + [a], Do(s1, a);
  }

  // -------------------------------------------------------------------- crash and restart

  lemma CrashDoes(s: State)
    ensures Enabled(s, Crash)
    ensures Do(s, Crash) == s.(phase := Down, tasks := map[], failed := false, locked := false, mem := StageNone,
                               toMark := None, h := s.h.(sent := {}))
  {
  }

  lemma BootDoes(s: State, cfg: Config, wrote: bool)
    requires s.phase == Down && s.toMark.None? && !s.locked && s.mem == StageNone && s.d.pending == map[] && cfg.Valid()
    ensures Enabled(s, Boot(cfg, wrote)) && IdleAt(Do(s, Boot(cfg, wrote)), s.d)
    ensures Do(s, Boot(cfg, wrote)).h == s.h && Do(s, Boot(cfg, wrote)).cfg == cfg
  {
  }

  lemma ReachRestart(cfg: Config, before: seq<Action>, mid: State) returns (actions: seq<Action>, s: State)
    requires Reached(cfg, before, mid) && mid.d.pending == map[]
    ensures Reached(cfg, actions, s) && before <= actions && IdleAt(s, mid.d)
    ensures s.h.accepted == mid.h.accepted && s.h.parents == mid.h.parents
  {
    hide Do, Enabled, Plays;
    CrashDoes(mid);
    Extend(cfg, before, mid, Crash);
    var down := Do(mid, Crash);
    BootDoes(down, cfg, true);
    Extend(cfg, before + [Crash], down, Boot(cfg, true));
    actions, s := before + [Crash] + [Boot(cfg, true)], Do(down, Boot(cfg, true));
  }

  // ------------------------------------------------------------------------- launching

  /** The launches that start an L2 fanout. */
  predicate LaunchesL2(cfg: Config, stage: Option<Stage>, queued: nat) {
    && 0 < queued <= cfg.numChains
    && (stage == Some(L1Done)
        || (stage == Some(L2Partial) && queued == L1Count(cfg) < cfg.numChains)
        || ((stage.None? || stage == Some(StageNone)) && queued != 1 && queued == L1Count(cfg)))
  }

  lemma LaunchDoes(s: State, d: Durable, order: seq<OutPoint>)
    requires IdleAt(s, d) && s.cfg.Valid() && IsOrder(order, s.tasks.Keys) && LaunchesL2(s.cfg, d.stage, |order|)
    ensures Enabled(s, Dispatch(order, true))
    ensures Do(s, Dispatch(order, true)) == BeginL2(s.(locked := true), order, true)
  {
    hide L1Count, L2Width, IsOrder, BeginL2, Replayables, QueuedAll;
  }

  lemma BeginDoes(s: State, order: seq<OutPoint>)
    requires s.cfg.Valid() && IsOrder(order, s.tasks.Keys) && 0 < |order| <= s.cfg.numChains
    ensures var s' := BeginL2(s, order, true);
      && s'.phase == InL2 && s'.cfg == s.cfg && s'.d == s.d.(stage := Some(L2Partial)) && s'.toMark == s.toMark
      && s'.tasks == Parents(s.tasks, order, s.cfg.numChains)
      && s'.h.parents == order && s'.h.metaOk == s.h.metaOk && s'.h.accepted == s.h.accepted
  {
    hide IsOrder, Parents, L2Widths;
  }

  /** The L2 fanout of d has started, with the UTXOs drained in this order. */
  ghost predicate StartedL2(s: State, d: Durable, order: seq<OutPoint>)
    requires IsOrder(order, d.utxos.Keys)
  {
    && s.phase == InL2 && s.toMark.None? && s.d == d.(stage := Some(L2Partial)) && s.h.parents == order
    && IsOrder(order, QueuedAll(d.utxos).Keys)
    && s.tasks == Parents(QueuedAll(d.utxos), order, s.cfg.numChains)
  }

  lemma ReachLaunch(cfg: Config, before: seq<Action>, mid: State, d: Durable, order: seq<OutPoint>)
    returns (actions: seq<Action>, s: State)
    requires Reached(cfg, before, mid) && IdleAt(mid, d) && IsOrder(order, d.utxos.Keys) &&
      LaunchesL2(cfg, d.stage, |order|)
    ensures Reached(cfg, actions, s) && before <= actions && StartedL2(s, d, order) && s.h.accepted == mid.h.accepted
  {
    hide Do, Enabled, Plays, L1Count, IsOrder, Parents, BeginL2;
    assert QueuedAll(d.utxos).Keys == d.utxos.Keys;
    LaunchDoes(mid, d, order);
    BeginDoes(mid.(locked := true), order);
    Extend(cfg, before, mid, Dispatch(order, true));
    actions, s := before + [Dispatch(order, true)], Do(mid, Dispatch(order, true));
  }

  /** The task of the parent at place k. */
  lemma StartedAt(s: State, d: Durable, order: seq<OutPoint>, k: nat)
    requires IsOrder(order, d.utxos.Keys) && StartedL2(s, d, order) && k < |order|
    ensures order[k] in d.utxos && order[k] in s.tasks
    ensures s.tasks[order[k]] == Parent(d.utxos[order[k]], L2Width(s.cfg.numChains, |order|, k))
  {
    hide Parents, L2Width;
    ParentAt(QueuedAll(d.utxos), order, s.cfg.numChains, k);
  }

  /** The other launches under l2_partial start a chain on every UTXO. */
  lemma ResumeDoes(s: State, d: Durable, order: seq<OutPoint>)
    requires IdleAt(s, d) && s.cfg.Valid() && IsOrder(order, s.tasks.Keys) && d.stage == Some(L2Partial)
    requires |order| >= s.cfg.numChains || (0 < |order| && |order| != L1Count(s.cfg))
    ensures Enabled(s, Dispatch(order, true))
    ensures var s' := Do(s, Dispatch(order, true));
      && s'.phase == Running && s'.tasks == s.tasks && s'.d == d.(stage := Some(L2Done)) && s'.cfg == s.cfg
      && s'.h == s.h && s'.toMark.None?
  {
    hide L1Count, IsOrder, Replayables, QueuedAll;
  }

  lemma ReachResume(cfg: Config, before: seq<Action>, mid: State, d: Durable, order: seq<OutPoint>)
    returns (actions: seq<Action>, s: State)
    requires Reached(cfg, before, mid) && IdleAt(mid, d) && IsOrder(order, d.utxos.Keys) && d.stage == Some(L2Partial)
    requires |order| >= cfg.numChains || (0 < |order| && |order| != L1Count(cfg))
    ensures Reached(cfg, actions, s) && before <= actions && s.phase == Running && s.tasks == QueuedAll(d.utxos)
    ensures actions == before + [Dispatch(order, true)] && Enabled(mid, Dispatch(order, true)) && s.h == mid.h
    ensures s == Do(mid, Dispatch(order, true)) && s.d == d.(stage := Some(L2Done))
  {
    hide Do, Enabled, Plays, L1Count, IsOrder;
    assert QueuedAll(d.utxos).Keys == d.utxos.Keys;
    ResumeDoes(mid, d, order);
    Extend(cfg, before, mid, Dispatch(order, true));
    actions, s := before + [Dispatch(order, true)], Do(mid, Dispatch(order, true));
  }

  // ------------------------------------------------------------------- one transaction

  /** op is about to be spent by tx. */
  predicate Tries(s: State, op: OutPoint, kind: Kind, tx: Tx) {
    op in s.tasks && s.tasks[op] == Trying(kind, tx)
  }

  lemma ReachBuilt(cfg: Config, before: seq<Action>, mid: State, op: OutPoint, n: nat, tx: Tx)
    returns (actions: seq<Action>, s: State)
    requires Reached(cfg, before, mid) && mid.phase == InL2 && op in mid.tasks && mid.tasks[op].Parent?
    requires mid.tasks[op].n == n && BuildFanout(mid.tasks[op].u, n, Some(cfg.mode)) == Ok(tx)
    ensures Reached(cfg, actions, s) && before <= actions && Tries(s, op, L2, tx)
    ensures s.d == mid.d && s.phase == InL2 && SameBootstrap(mid.h, s.h)
    ensures s.tasks == mid.tasks[op := Trying(L2, tx)]
  {
    hide Do, Enabled, Plays, BuildFanout;
    BuildMoves(mid, op);
    Extend(cfg, before, mid, BuildL2(op));
    actions, s := before + [BuildL2(op)], Do(mid, BuildL2(op));
  }

  /** The record is written, the network accepts the transaction, and the answer is what it is. */
  lemma ReachSent(cfg: Config, before: seq<Action>, mid: State, op: OutPoint, kind: Kind, tx: Tx, accepted: bool)
    returns (actions: seq<Action>, s: State)
    requires Reached(cfg, before, mid) && Tries(mid, op, kind, tx)
    ensures Reached(cfg, actions, s) && before + [Save(op, true, 0)] <= actions && tx in s.h.accepted
    ensures Moved(mid, s, SavePending(mid.d, IdOf(tx), RecordOf(tx, StageOf(kind), 0)), op,
                  if accepted then ToCommit(kind, tx) else ToClear(kind, tx))
  {
    hide Do, Enabled, Plays, RecordOf, SavePending;
    SaveMoves(mid, op, 0);
    Extend(cfg, before, mid, Save(op, true, 0));
    actions, s := before + [Save(op, true, 0)], Do(mid, Save(op, true, 0));
    DeliverMoves(s, op);
    Extend(cfg, actions, s, Deliver(tx));
    actions, s := actions + [Deliver(tx)], Do(s, Deliver(tx));
    AnswerMoves(s, op, accepted);
    Extend(cfg, actions, s, Reply(op, accepted));
    actions, s := actions + [Reply(op, accepted)], Do(s, Reply(op, accepted));
  }

  /** Accepted by the network, but answered with an error and cleared: nothing of it is left on disk. */
  lemma ReachRefused(cfg: Config, before: seq<Action>, mid: State, op: OutPoint, kind: Kind, tx: Tx)
    returns (actions: seq<Action>, s: State)
    requires Reached(cfg, before, mid) && Tries(mid, op, kind, tx) && kind != L1 && mid.d.pending == map[]
    ensures Reached(cfg, actions, s) && before + [Save(op, true, 0)] <= actions && tx in s.h.accepted
    ensures s.d == mid.d && s.h.parents == mid.h.parents && s.phase == mid.phase
  {
    hide Do, Enabled, Plays, RecordOf;
    actions, s := ReachSent(cfg, before, mid, op, kind, tx, false);
    ClearMoves(s, op, true, false);
    Extend(cfg, actions, s, Clear(op, true, false));
    assert map[IdOf(tx) := Encoded(RecordOf(tx, StageOf(kind), 0))] - {IdOf(tx)} == map[];
    actions, s := actions + [Clear(op, true, false)], Do(s, Clear(op, true, false));
  }

  /** Accepted, answered and committed. */
  lemma ReachCommitted(cfg: Config, before: seq<Action>, mid: State, op: OutPoint, kind: Kind, tx: Tx)
    returns (actions: seq<Action>, s: State)
    requires Reached(cfg, before, mid) && Tries(mid, op, kind, tx) && kind != L1 && mid.phase != InL1
    requires mid.d.pending == map[]
    ensures Reached(cfg, actions, s) && before + [Save(op, true, 0)] <= actions
    ensures s.d == Durable((mid.d.utxos - {tx.input.op}) + Spendable(tx), map[], mid.d.stage)
    ensures s.h.parents == mid.h.parents && mid.h.accepted <= s.h.accepted
  {
    hide Do, Enabled, Plays, RecordOf, Spendable, NewTasks;
    actions, s := ReachSent(cfg, before, mid, op, kind, tx, true);
    CommitMoves(s, op, true);
    Extend(cfg, actions, s, Commit(op, true));
    assert map[IdOf(tx) := Encoded(RecordOf(tx, StageOf(kind), 0))] - {IdOf(tx)} == map[];
    actions, s := actions + [Commit(op, true)], Do(s, Commit(op, true));
  }

  lemma PopDoes(s: State, op: OutPoint)
    requires s.phase == Running && op in s.tasks && s.tasks[op].Queued?
    ensures Enabled(s, PopChain(op))
    ensures Do(s, PopChain(op)) == s.(tasks := s.tasks[op := ChainTop(s.tasks[op].u)])
  {
    hide Replayables;
  }

  /** A chain is started and builds its first hop. */
  lemma ReachHop(cfg: Config, before: seq<Action>, mid: State, op: OutPoint) returns (actions: seq<Action>, s: State)
    requires Reached(cfg, before, mid) && mid.phase == Running && op in mid.tasks && mid.tasks[op].Queued?
    requires mid.tasks[op].u.value > 0
    ensures Reached(cfg, actions, s) && before <= actions
    ensures Tries(s, op, Hop, C.HopTx(mid.tasks[op].u, cfg.mode.sustainFee)) && SameBootstrap(mid.h, s.h)
  {
    hide Do, Enabled, Plays;
    PopDoes(mid, op);
    Extend(cfg, before, mid, PopChain(op));
    actions, s := before + [PopChain(op)], Do(mid, PopChain(op));
    HopMoves(s, op);
    Extend(cfg, actions, s, BuildHop(op));
    actions, s := actions + [BuildHop(op)], Do(s, BuildHop(op));
  }

  // -------------------------------------------------------------- one parent fanned out

  /** op is given the place k of an L2 fanout of d, and its fanout is built. */
  lemma BuiltAt(cfg: Config, before: seq<Action>, mid: State, d: Durable, op: OutPoint, k: nat)
    returns (actions: seq<Action>, s: State, tx: Tx)
    requires Reached(cfg, before, mid) && IdleAt(mid, d) && LaunchesL2(cfg, d.stage, |d.utxos|)
    requires op in d.utxos && d.utxos[op].value >= AMPLE / 2 && k < |d.utxos|
    requires L2Width(cfg.numChains, |d.utxos|, k) >= 1 && Fits(cfg.mode, L2Width(cfg.numChains, |d.utxos|, k))
    ensures Reached(cfg, actions, s) && before <= actions && Tries(s, op, L2, tx) && s.phase == InL2
    ensures s.d == d.(stage := Some(L2Partial)) && mid.h.accepted <= s.h.accepted
    ensures tx.input == d.utxos[op] && |tx.outs| == L2Width(cfg.numChains, |d.utxos|, k)
    ensures BuildFanout(d.utxos[op], |tx.outs|, Some(cfg.mode)) == Ok(tx)
    ensures forall i :: 0 <= i < |tx.outs| ==> tx.outs[i] > 0
    ensures |s.h.parents| == |d.utxos| && s.h.parents[k] == op
  {
    hide Plays, LaunchesL2, IsOrder, BuildFanout, L2Width, Fits, IdleAt;
    assert |d.utxos.Keys| == |d.utxos|;
    var order := OrderWith(d.utxos.Keys, op, k);
    OrderLength(order, d.utxos.Keys);
    actions, s := ReachLaunch(cfg, before, mid, d, order);
    StartedAt(s, d, order, k);
    var w := L2Width(cfg.numChains, |d.utxos|, k);
    FanoutBuilds(d.utxos[op], w, cfg.mode);
    tx := BuildFanout(d.utxos[op], w, Some(cfg.mode)).value;
    actions, s := ReachBuilt(cfg, actions, s, op, w, tx);
  }

  /** The store after one of the l1 funding outputs was fanned out. */
  lemma OneFanned(l1: nat, tx: Tx)
    requires l1 >= 2 && tx.input == Seed(1) && forall i :: 0 <= i < |tx.outs| ==> tx.outs[i] > 0
    ensures var us := (Seeds(l1) - {SeedOp(1)}) + Spendable(tx);
      |us| == l1 - 1 + |tx.outs| && SeedOp(0) in us && us[SeedOp(0)] == Seed(0) && SeedOp(1) !in us
  {
    hide Seeds;
    SizeAfterSpend(Seeds(l1), tx);
  }

  lemma WideWidths(n: nat, l1: nat)
    requires 2 <= l1 && 2 * l1 <= n
    ensures L2Width(n, l1, l1 - 1) == n / l1 >= 2 && l1 < n
  {
    WidthsArePositive(n, l1, l1 - 1);
  }

  /** The second funding output is fanned out in the last place, and the process restarts. */
  lemma FannedAndRestarted(cfg: Config, before: seq<Action>, mid: State, l1: nat, stage: Option<Stage>)
    returns (actions: seq<Action>, s: State, d: Durable)
    requires Reached(cfg, before, mid) && IdleAt(mid, Durable(Seeds(l1), map[], stage)) && 2 <= l1
    requires LaunchesL2(cfg, stage, l1) && L2Width(cfg.numChains, l1, l1 - 1) >= 1 &&
      Fits(cfg.mode, L2Width(cfg.numChains, l1, l1 - 1))
    ensures Reached(cfg, actions, s) && before <= actions && IdleAt(s, d) && mid.h.accepted <= s.h.accepted
    ensures d.stage == Some(L2Partial) && |d.utxos| == l1 - 1 + L2Width(cfg.numChains, l1, l1 - 1)
    ensures SeedOp(0) in d.utxos && d.utxos[SeedOp(0)] == Seed(0) && SeedOp(1) !in d.utxos
    ensures |s.h.parents| == l1 && s.h.parents[l1 - 1] == SeedOp(1)
  {
    hide Reached, LaunchesL2, L1Count, Fits, L2Width, Seeds, IdleAt, Spendable, BuildFanout;
    var built, tried, tx := BuiltAt(cfg, before, mid, Durable(Seeds(l1), map[], stage), SeedOp(1), l1 - 1);
    OneFanned(l1, tx);
    var committed, done := ReachCommitted(cfg, built, tried, SeedOp(1), L2, tx);
    d := done.d;
    actions, s := ReachRestart(cfg, committed, done);
    Longer(before, built, Save(SeedOp(1), true, 0), committed, actions);
  }

  lemma Longer(a: seq<Action>, b: seq<Action>, x: Action, c: seq<Action>, d: seq<Action>)
    requires a <= b && b + [x] <= c && c <= d
    ensures a <= d && b + [x] <= d
  {
  }
}
