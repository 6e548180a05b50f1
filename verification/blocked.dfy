/**
 A pending record that cannot be replayed keeps the engine from generating
 (internal/engine/persist.go, bootstrap.go): exactly when, for how long, and
 what the run does otherwise.
 */
module Blocked {
  import opened Outcomes
  import opened Ledger
  import opened Stages
  import opened StoreSpec
  import opened TxBuilder
  import opened Replay
  import opened Widths
  import opened Engine
  import opened Runs
  import opened Safety
  import opened SafetySteps

  // ------------------------------------------------------------- blocked for good

  /** A record that cannot be replayed is there, no stage but unknown can be read back, and nothing is being sent. */
  ghost predicate IsBlocked(s: State) {
    && (s.d.stage.None? || s.d.stage == Some(Unknown))
    && s.d.pending != map[] && Replayables(s.d) == {}
    && s.toMark.None? && s.h.sent == {}
    && (s.phase == Down || (s.phase == Idle && s.mem == Unknown) || s.phase == Halted)
    && forall op :: op in s.tasks ==> !s.tasks[op].Active()
  }

  lemma BlockedGarble(s: State, key: TxId, stored: Stored)
    requires IsBlocked(s) && Enabled(s, Garble(key, stored))
    ensures IsBlocked(Do(s, Garble(key, stored)))
  {
    GarbledRecord(s.d, Do(s, Garble(key, stored)).d, key, stored);
  }

  /** No action leaves the blocked state or loses a record, whatever is funded, configured or restarted. */
  lemma BlockedStep(s: State, a: Action)
    requires IsBlocked(s) && Enabled(s, a)
    ensures IsBlocked(Do(s, a)) && s.d.pending.Keys <= Do(s, a).d.pending.Keys && !a.Save?
  {
    hide IsOrder, Parents, L1Count;
    if a.Garble? {
      BlockedGarble(s, a.key, a.stored);
    } else {
      assert Do(s, a).d.pending == s.d.pending;
      assert Replayables(Do(s, a).d) == Replayables(s.d);
    }
  }

  lemma {:induction false} BlockedForever(states: seq<State>, actions: seq<Action>, i: nat, j: nat)
    requires IsRun(states, actions) && i <= j < |states| && IsBlocked(states[i])
    ensures IsBlocked(states[j]) && states[i].d.pending.Keys <= states[j].d.pending.Keys
    decreases j
  {
    hide Enabled, Do, Init, IsBlocked;
    if i < j {
      BlockedForever(states, actions, i, j - 1);
      BlockedStep(states[j - 1], actions[j - 1]);
    }
  }

  /** The write of the unknown stage succeeds, or no other stage is stored. */
  predicate ReadsUnknown(d: Durable, wrote: bool) {
    wrote || d.stage.None? || d.stage == Some(Unknown)
  }

  /**
   New with a record that cannot be replayed, whatever UTXOs and other records
   there were: if the unknown stage can be read back, then from there on, in this
   run and in every later one, nothing is handed to the broadcaster, and the
   record stays.
   */
  lemma UnreplayableRecordBlocks(states: seq<State>, actions: seq<Action>, i: nat, j: nat)
    requires IsRun(states, actions) && i < j < |actions|
    requires actions[i].Boot? && states[i].d.pending != map[] && ReadsUnknown(states[i].d, actions[i].wrote)
    ensures !actions[j].Save? && states[j].h.sent == {}
    ensures states[i].d.pending.Keys <= states[j].d.pending.Keys && Replayables(states[j].d) == {}
  {
    hide Do, Inv;
    RunKeepsInv(states, actions, i);
    BootBlocks(states[i], actions[i]);
    BlockedForever(states, actions, i + 1, j);
    BlockedStep(states[j], actions[j]);
  }

  lemma BootBlocks(s: State, a: Action)
    requires Inv(s) && Enabled(s, a) && a.Boot? && s.d.pending != map[] && ReadsUnknown(s.d, a.wrote)
    ensures IsBlocked(Do(s, a)) && Do(s, a).d.pending == s.d.pending
  {
    hide Mirror, WriteAhead, RecordsOwned, Tracked;
    assert Replayables(Do(s, a).d) == Replayables(s.d);
  }

  // -------------------------------------------------- what a launch can send at all

  /** Some UTXO, at some place of the drain order, can be fanned out. */
  ghost predicate SomeFanout(cfg: Config, utxos: Utxos) {
    exists op, i :: op in utxos && 0 <= i < |utxos|
      && BuildFanout(utxos[op], L2Width(cfg.numChains, |utxos|, i), Some(cfg.mode)).Ok?
  }

  /** Launched with these UTXOs under the stage, the engine gets to send something. */
  ghost predicate CanSend(cfg: Config, stage: Stage, utxos: Utxos) {
    match stage
    case L2Done => true
    case L2Partial => |utxos| >= cfg.numChains || |utxos| != L1Count(cfg) || SomeFanout(cfg, utxos)
    case L1Done => |utxos| <= cfg.numChains && SomeFanout(cfg, utxos)
    case Unknown => false
    case StageNone =>
      if |utxos| == 1 then forall op :: op in utxos ==> BuildFanout(utxos[op], L1Count(cfg), Some(cfg.mode)).Ok?
      else |utxos| != L1Count(cfg) || SomeFanout(cfg, utxos)
  }

  /** About to launch, with UTXOs on the queue. */
  ghost predicate Ready(s: State) {
    && s.phase == Idle && s.cfg.Valid() && AllQueued(s) && s.tasks != map[]
    && s.tasks.Keys == s.d.utxos.Keys && forall op :: op in s.tasks ==> s.tasks[op].Held() == s.d.utxos[op]
  }

  /** Nothing is left that could be built: only fanouts that fail, or a run that has ended. */
  ghost predicate Stuck(s: State) {
    && s.cfg.Valid()
    && (s.phase == Halted || s.phase == InL2)
    && forall op :: op in s.tasks ==>
         || s.tasks[op].Queued? || s.tasks[op].Lost?
         || (s.phase == InL2 && s.tasks[op].Parent? && BuildFanout(s.tasks[op].u, s.tasks[op].n, Some(s.cfg.mode)).Err?)
  }

  lemma StuckBuild(s: State, op: OutPoint)
    requires Stuck(s) && op in s.tasks && s.tasks[op].Parent?
    ensures Stuck(DoBuildL2(s, op))
  {
    hide BuildFanout;
  }

  lemma StuckFinish(s: State, wrote: bool)
    requires Stuck(s) && Enabled(s, FinishL2(wrote))
    ensures Stuck(Do(s, FinishL2(wrote)))
  {
    hide BuildFanout;
    assert (set op | op in s.tasks && s.tasks[op].Produced?) == {};
    assert ProducedCount(s) == 0;
  }

  lemma StuckStep(s: State, a: Action)
    requires Stuck(s) && Enabled(s, a) && !a.Crash?
    ensures !a.Save? && Stuck(Do(s, a))
  {
    hide BuildFanout, Replayables, ProducedCount, IsOrder, DoBuildL2;
    match a {
      case BuildL2(op) => StuckBuild(s, op);
      case FinishL2(wrote) => StuckFinish(s, wrote);
      case _ =>
    }
  }

  lemma ReadySize(s: State, order: seq<OutPoint>)
    requires Ready(s) && IsOrder(order, s.tasks.Keys)
    ensures |order| == |s.d.utxos| > 0
  {
    assert |s.tasks| == |s.tasks.Keys| && |s.d.utxos| == |s.d.utxos.Keys|;
  }

  /** If no UTXO can be fanned out at any place, an L2 fanout is stuck from the start. */
  lemma StuckL2(s: State, order: seq<OutPoint>, wrote: bool)
    requires Ready(s) && IsOrder(order, s.tasks.Keys)
    requires |s.d.utxos| > s.cfg.numChains || !SomeFanout(s.cfg, s.d.utxos)
    ensures Stuck(BeginL2(s, order, wrote))
  {
    hide BuildFanout, L2Width, Parents, IsOrder;
    ReadySize(s, order);
    var s' := BeginL2(s, order, wrote);
    if s'.phase == InL2 {
      ParentsHold(s.tasks, order, s.cfg.numChains);
      OrderCovers(order, s.tasks.Keys);
      forall op | op in s'.tasks ensures s'.tasks[op].Parent? &&
        BuildFanout(s'.tasks[op].u, s'.tasks[op].n, Some(s.cfg.mode)).Err? {
        var i :| 0 <= i < |order| && order[i] == op;
        ParentAt(s.tasks, order, s.cfg.numChains, i);
      }
    }
  }

  lemma StuckLaunch(s: State, order: seq<OutPoint>, wrote: bool)
    requires Ready(s) && IsOrder(order, s.tasks.Keys) && !CanSend(s.cfg, s.mem, s.d.utxos)
    ensures Stuck(Bootstrap(s, order, wrote))
  {
    hide BuildFanout, BeginL2, SomeFanout, IsOrder;
    ReadySize(s, order);
    CeilDivIsLeast(s.cfg.numChains, s.cfg.fanoutSize);
    hide CeilDiv;
    if !SomeFanout(s.cfg, s.d.utxos) || |s.d.utxos| > s.cfg.numChains { StuckL2(s, order, wrote); }
    if |order| == 1 { OnlyOne(s, order); }
  }

  lemma OnlyOne(s: State, order: seq<OutPoint>)
    requires Ready(s) && IsOrder(order, s.tasks.Keys) && |order| == 1
    ensures order[0] in s.tasks && s.tasks.Keys == {order[0]}
  {
    OnlyKey(s.tasks, order[0]);
  }

  /** Nothing will be sent before the next crash. */
  ghost predicate Silent(s: State) {
    (Ready(s) && !CanSend(s.cfg, s.mem, s.d.utxos)) || Stuck(s)
  }

  lemma SilentStep(s: State, a: Action)
    requires Silent(s) && Enabled(s, a) && !a.Crash?
    ensures !a.Save? && Silent(Do(s, a))
  {
    hide Stuck, CanSend, Bootstrap, Replayables, IsOrder;
    if Stuck(s) {
      StuckStep(s, a);
    } else {
      var op :| op in s.tasks;
      assert op in s.d.utxos.Keys;
      if a.Dispatch? { StuckLaunch(s.(locked := true), a.order, a.wrote); }
    }
  }

  lemma {:induction false} SilentPlay(s: State, more: seq<Action>, s': State)
    requires Silent(s) && Plays(s, more, s') && CrashFree(more)
    ensures !Sends(more)
    decreases |more|
  {
    hide Silent, Enabled, Do;
    if more != [] {
      SilentStep(s, more[0]);
      SilentPlay(Do(s, more[0]), more[1..], s');
      forall k | 0 <= k < |more| ensures !(more[k].Save? && more[k].ok) {
        assert k > 0 ==> more[1..][k - 1] == more[k];
      }
    }
  }

  // -------------------------------------------------------- a launch that sends

  /** The run can go on, without a crash, to an action that sends. */
  ghost predicate GetsToSend(s: State) {
    exists more, s' :: Plays(s, more, s') && CrashFree(more) && Sends(more)
  }

  lemma {:induction false} OrderExists(keys: set<OutPoint>) returns (order: seq<OutPoint>)
    ensures IsOrder(order, keys)
  {
    if keys == {} {
      order := [];
    } else {
      var op :| op in keys;
      order := OrderExists(keys - {op});
      order := order + [op];
    }
  }

  /** Any key can come at any place. */
  lemma OrderWith(keys: set<OutPoint>, op: OutPoint, i: nat) returns (order: seq<OutPoint>)
    requires op in keys && i < |keys|
    ensures IsOrder(order, keys) && order[i] == op
  {
    var rest := OrderExists(keys - {op});
    order := rest[..i] + [op] + rest[i..];
  }

  lemma ChainSends(s: State, op: OutPoint)
    requires s.phase == Running && s.cfg.Valid() && op in s.tasks && s.tasks[op].Queued? && s.tasks[op].u.value > 0
    ensures exists s' :: Plays(s, [PopChain(op), BuildHop(op), Save(op, true, 0)], s')
  {
    hide Replayables, RecordOf;
    var s1 := Do(s, PopChain(op));
    var s2 := Do(s1, BuildHop(op));
    assert Enabled(s2, Save(op, true, 0));
    hide Enabled, Do;
    PlaysOne(s, PopChain(op));
    PlaysSnoc(s, [PopChain(op)], s1, BuildHop(op));
    assert [PopChain(op)] + [BuildHop(op)] == [PopChain(op), BuildHop(op)];
    PlaysSnoc(s, [PopChain(op), BuildHop(op)], s2, Save(op, true, 0));
    assert [PopChain(op), BuildHop(op)] + [Save(op, true, 0)] == [PopChain(op), BuildHop(op), Save(op, true, 0)];
  }

  lemma ParentSends(s: State, op: OutPoint)
    requires s.phase == InL2 && op in s.tasks && s.tasks[op].Parent?
    requires BuildFanout(s.tasks[op].u, s.tasks[op].n, Some(s.cfg.mode)).Ok?
    ensures exists s' :: Plays(s, [BuildL2(op), Save(op, true, 0)], s')
  {
    hide Replayables, RecordOf, BuildFanout;
    var s1 := Do(s, BuildL2(op));
    assert Enabled(s1, Save(op, true, 0));
    hide Enabled, Do;
    PlaysOne(s, BuildL2(op));
    PlaysSnoc(s, [BuildL2(op)], s1, Save(op, true, 0));
    assert [BuildL2(op)] + [Save(op, true, 0)] == [BuildL2(op), Save(op, true, 0)];
  }

  lemma AttemptSends(s: State, op: OutPoint)
    requires op in s.tasks && s.tasks[op].Trying?
    ensures exists s' :: Plays(s, [Save(op, true, 0)], s')
  {
    PlaysOne(s, Save(op, true, 0));
  }

  /** A first action, and then some that send. */
  lemma SendsAfter(s: State, a: Action, more: seq<Action>)
    requires Enabled(s, a) && !a.Crash? && CrashFree(more) && Sends(more) && exists s' :: Plays(Do(s, a), more, s')
    ensures GetsToSend(s)
  {
    hide Enabled, Do;
    var s' :| Plays(Do(s, a), more, s');
    PlaysOne(s, a);
    PlaysOn(s, [a], Do(s, a), more, s');
    var k :| 0 <= k < |more| && more[k].Save? && more[k].ok;
    assert ([a] + more)[k + 1] == more[k];
    assert CrashFree([a] + more);
  }

  lemma L2Begins(s: State, order: seq<OutPoint>, wrote: bool)
    requires s.cfg.Valid() && IsOrder(order, s.tasks.Keys) && 0 < |order| <= s.cfg.numChains
    ensures var s' := BeginL2(s, order, wrote);
      s'.phase == InL2 && s'.cfg == s.cfg && s'.tasks == Parents(s.tasks, order, s.cfg.numChains)
  {
    hide IsOrder, Parents, L2Widths;
  }

  lemma L1Begins(s: State, op: OutPoint, wrote: bool)
    requires op in s.tasks && BuildFanout(s.tasks[op].Held(), L1Count(s.cfg), Some(s.cfg.mode)).Ok?
    ensures var s' := BeginL1(s, op, wrote); s'.phase == InL1 && op in s'.tasks && s'.tasks[op].Trying?
  {
    hide BuildFanout;
  }

  lemma MetaFrame(s: State, stage: Stage, wrote: bool)
    ensures SetMeta(s, stage, wrote).tasks == s.tasks && SetMeta(s, stage, wrote).cfg == s.cfg
  {
  }

  /** What a launch leads to, when something can be sent. */
  lemma LaunchLeads(s: State, order: seq<OutPoint>, wrote: bool)
    requires Ready(s) && IsOrder(order, s.tasks.Keys) && CanSend(s.cfg, s.mem, s.d.utxos)
    ensures var s' := Bootstrap(s, order, wrote);
      || (s'.phase == Running && s'.tasks == s.tasks && s'.cfg == s.cfg)
      || (s'.phase == InL1 && order[0] in s'.tasks && s'.tasks[order[0]].Trying?)
      || (s'.phase == InL2 && SomeFanout(s.cfg, s.d.utxos) && s'.cfg == s.cfg
          && s'.tasks == Parents(s.tasks, order, s.cfg.numChains))
  {
    hide BuildFanout, SomeFanout, IsOrder, BeginL1, BeginL2, SetMeta, Parents;
    ReadySize(s, order);
    CeilDivIsLeast(s.cfg.numChains, s.cfg.fanoutSize);
    assert L1Count(s.cfg) <= s.cfg.numChains;
    hide L1Count;
    MetaFrame(s, L2Done, wrote);
    if |order| <= s.cfg.numChains { L2Begins(s, order, wrote); }
    if |order| == 1 && s.mem == StageNone {
      OnlyOne(s, order);
      L1Begins(s, order[0], wrote);
    }
  }

  /** A launch from a state that is not locked is an action. */
  lemma Launched(s: State, order: seq<OutPoint>)
    requires Ready(s) && !s.locked && IsOrder(order, s.tasks.Keys)
    ensures Enabled(s, Dispatch(order, true)) &&
      Do(s, Dispatch(order, true)) == Bootstrap(s.(locked := true), order, true)
    ensures Ready(s.(locked := true))
  {
    hide IsOrder, Bootstrap, Replayables;
  }

  lemma ReadyValue(s: State, op: OutPoint)
    requires Inv(s) && s.phase == Idle && op in s.tasks
    ensures s.tasks[op].Queued? && s.tasks[op].u.value > 0
  {
    hide Mirror, WriteAhead, RecordsOwned, SentOwned;
    HeldIsBorn(s, op);
  }

  lemma FanoutSends(s: State, order: seq<OutPoint>, op: OutPoint, i: nat)
    requires Ready(s) && !s.locked && IsOrder(order, s.tasks.Keys) && CanSend(s.cfg, s.mem, s.d.utxos)
    requires Bootstrap(s.(locked := true), order, true).phase == InL2
    requires i < |order| && order[i] == op && op in s.d.utxos
    requires BuildFanout(s.d.utxos[op], L2Width(s.cfg.numChains, |s.d.utxos|, i), Some(s.cfg.mode)).Ok?
    ensures GetsToSend(s)
  {
    hide Do, Enabled, Bootstrap, BuildFanout, L2Width, CanSend, Parents, SomeFanout;
    Launched(s, order);
    LaunchLeads(s.(locked := true), order, true);
    ReadySize(s, order);
    ParentAt(s.tasks, order, s.cfg.numChains, i);
    ParentSends(Bootstrap(s.(locked := true), order, true), op);
    assert [BuildL2(op), Save(op, true, 0)][1] == Save(op, true, 0);
    SendsAfter(s, Dispatch(order, true), [BuildL2(op), Save(op, true, 0)]);
  }

  /** A launch that can send has a continuation that does. */
  lemma LaunchSends(s: State)
    requires Inv(s) && Ready(s) && !s.locked && CanSend(s.cfg, s.mem, s.d.utxos)
    ensures GetsToSend(s)
  {
    hide Inv, Do, Enabled, Bootstrap, CanSend, Parents, IsOrder, BuildFanout, L2Width, GetsToSend;
    var order := OrderExists(s.tasks.Keys);
    Launched(s, order);
    LaunchLeads(s.(locked := true), order, true);
    ReadySize(s, order);
    var s' := Bootstrap(s.(locked := true), order, true);
    if s'.phase == Running {
      var op :| op in s.tasks;
      ReadyValue(s, op);
      ChainSends(s', op);
      assert [PopChain(op), BuildHop(op), Save(op, true, 0)][2] == Save(op, true, 0);
      SendsAfter(s, Dispatch(order, true), [PopChain(op), BuildHop(op), Save(op, true, 0)]);
    } else if s'.phase == InL1 {
      AttemptSends(s', order[0]);
      assert [Save(order[0], true, 0)][0] == Save(order[0], true, 0);
      SendsAfter(s, Dispatch(order, true), [Save(order[0], true, 0)]);
    } else {
      var op, i :| op in s.d.utxos && 0 <= i < |s.d.utxos|
        && BuildFanout(s.d.utxos[op], L2Width(s.cfg.numChains, |s.d.utxos|, i), Some(s.cfg.mode)).Ok?;
      assert |s.tasks.Keys| == |s.d.utxos|;
      var order' := OrderWith(s.tasks.Keys, op, i);
      SameLaunch(s.(locked := true), order, order');
      FanoutSends(s, order', op, i);
    }
  }

  /** The phase a launch reaches depends on the number of UTXOs, not on their order. */
  lemma SameLaunch(s: State, order: seq<OutPoint>, order': seq<OutPoint>)
    requires Ready(s) && IsOrder(order, s.tasks.Keys) && IsOrder(order', s.tasks.Keys)
    requires Bootstrap(s, order, true).phase == InL2
    ensures Bootstrap(s, order', true).phase == InL2
  {
    hide BuildFanout, Parents, L1Count, Replayables;
    if |order| == 1 { OnlyOne(s, order); OnlyOne(s, order'); }
  }

  /** Launched with UTXOs, the engine can send before the next crash exactly when CanSend says so. */
  lemma LaunchSendsIff(s: State)
    requires Inv(s) && Ready(s) && !s.locked
    ensures GetsToSend(s) <==> CanSend(s.cfg, s.mem, s.d.utxos)
  {
    hide Inv, Ready, CanSend, Plays, CrashFree, Sends;
    if CanSend(s.cfg, s.mem, s.d.utxos) {
      LaunchSends(s);
    } else {
      assert Silent(s);
      forall all, s' | Plays(s, all, s') && CrashFree(all) ensures !Sends(all) { SilentPlay(s, all, s'); }
    }
  }

  // ------------------------------------------------------------ the exact condition

  /** A process that is down holds no lock. */
  lemma {:induction false} DownIsUnlocked(states: seq<State>, actions: seq<Action>, i: nat)
    requires IsRun(states, actions) && i < |states|
    ensures states[i].phase == Down ==> !states[i].locked
  {
    hide Enabled, Do;
    if i > 0 {
      DownIsUnlocked(states, actions, i - 1);
      UnlockedStep(states[i - 1], actions[i - 1]);
    }
  }

  lemma UnlockedStep(s: State, a: Action)
    requires Enabled(s, a) && (s.phase == Down ==> !s.locked)
    ensures Do(s, a).phase == Down ==> !Do(s, a).locked
  {
    hide Replayables, BuildFanout, BuildSustain, ProducedCount, IsOrder, L1Count, Parents, RecordOf, CommitPending,
         ReplayOne;
  }

  lemma BootIsReady(s: State, cfg: Config, wrote: bool)
    requires Inv(s) && Enabled(s, Boot(cfg, wrote)) && !s.locked && s.d.pending != map[] && s.d.utxos != map[]
    ensures var s' := Do(s, Boot(cfg, wrote));
      && Ready(s') && !s'.locked && s'.cfg == cfg && s'.d.utxos == s.d.utxos
      && s'.mem == (if ReadsUnknown(s.d, wrote) then Unknown else s.d.stage.value)
  {
    hide Inv, Replayables;
    var op :| op in s.d.utxos;
    assert op in Do(s, Boot(cfg, wrote)).tasks;
  }

  // ------------------------------------------------------- a store that is empty

  /** Nothing is queued yet, and no funding makes anything that could be sent. */
  ghost predicate Barren(s: State) {
    && s.phase == Idle && s.cfg.Valid() && s.tasks == map[] && s.d.utxos == map[]
    && !CanSendOnceFunded(s.cfg.mode, s.mem)
  }

  /** Chains need no room; a fanout, which is all that l1_done leads to, must fit with one output at least. */
  predicate CanSendOnceFunded(mode: Mode, stage: Stage) {
    stage != Unknown && (stage == L1Done ==> Fits(mode, 1))
  }

  lemma NothingFits(cfg: Config, us: Utxos)
    requires !Fits(cfg.mode, 1)
    ensures !SomeFanout(cfg, us)
  {
    hide BuildFanout, L2Width, Fits;
    forall op, i | op in us && 0 <= i < |us|
      ensures BuildFanout(us[op], L2Width(cfg.numChains, |us|, i), Some(cfg.mode)).Err?
    {
      var w := L2Width(cfg.numChains, |us|, i);
      WidthMustFit(us[op], w, cfg.mode);
      if w >= 1 && Fits(cfg.mode, w) { FitsDown(cfg.mode, 1, w); }
    }
  }

  lemma WidthMustFit(u: UTXO, n: nat, mode: Mode)
    ensures BuildFanout(u, n, Some(mode)).Ok? ==> n >= 1 && Fits(mode, n)
  {
    FanoutOutcome(u, n, mode);
  }

  lemma BarrenFund(s: State, us: Utxos)
    requires Barren(s) && Enabled(s, Fund(us))
    ensures Barren(Do(s, Fund(us))) || (Ready(Do(s, Fund(us))) && !CanSend(s.cfg, s.mem, us))
  {
    hide Replayables, SomeFanout, Fits;
    if us != map[] {
      var op :| op in us;
      assert op in Do(s, Fund(us)).tasks;
      if s.mem == L1Done { NothingFits(s.cfg, us); }
    }
  }

  lemma FeeKeepsFits(mode: Mode, fee: nat, n: nat)
    ensures Fits(mode.WithSustainFee(fee), n) <==> Fits(mode, n)
  {
  }

  lemma BarrenStep(s: State, a: Action)
    requires Barren(s) && Enabled(s, a) && !a.Crash?
    ensures !a.Save? && (Barren(Do(s, a)) || Silent(Do(s, a)))
  {
    hide Replayables, SomeFanout, Fits, IsOrder, Parents, L1Count;
    if a.Fund? {
      BarrenFund(s, a.us);
    } else if a.Configure? {
      FeeKeepsFits(s.cfg.mode, a.cfg.mode.sustainFee, 1);
    } else if a.Dispatch? {
      assert s.tasks.Keys == {};
      NoOrder(a.order, s.tasks.Keys);
    }
  }

  lemma NoOrder(order: seq<OutPoint>, keys: set<OutPoint>)
    requires IsOrder(order, keys) && keys == {}
    ensures order == []
  {
  }

  lemma {:induction false} BarrenPlay(s: State, more: seq<Action>, s': State)
    requires Barren(s) && Plays(s, more, s') && CrashFree(more)
    ensures !Sends(more)
    decreases |more|
  {
    hide Barren, Silent, Enabled, Do;
    if more != [] {
      BarrenStep(s, more[0]);
      if Barren(Do(s, more[0])) {
        BarrenPlay(Do(s, more[0]), more[1..], s');
      } else {
        SilentPlay(Do(s, more[0]), more[1..], s');
      }
      forall k | 0 <= k < |more| ensures !(more[k].Save? && more[k].ok) {
        assert k > 0 ==> more[1..][k - 1] == more[k];
      }
    }
  }

  /** Some external transaction id is above all that are used. */
  lemma {:induction false} UnusedId(ops: set<OutPoint>) returns (bound: nat)
    ensures forall op :: op in ops && op.txid.External? ==> op.txid.id < bound
  {
    if ops == {} {
      bound := 0;
    } else {
      var op :| op in ops;
      bound := UnusedId(ops - {op});
      if op.txid.External? && op.txid.id >= bound { bound := op.txid.id + 1; }
    }
  }

  /** n funding outputs that were never seen before, each enough for any fanout into one output. */
  function NewSeeds(from: nat, n: nat): (us: Utxos)
    ensures |us| == n
    ensures forall op :: op in us ==> op.txid.External? && op.txid.id >= from && us[op].op == op
    ensures forall op :: op in us ==> us[op].value == AMPLE && op.txid.id < from + n
  {
    if n == 0 then map[]
    else
      var op := OutPoint(External(from + n - 1), 0);
      NewSeeds(from, n - 1)[op := UTXO(op, AMPLE, 0)]
  }

  /** How many funding outputs make the launch send. */
  function EnoughSeeds(cfg: Config, stage: Stage): (n: int)
    requires cfg.Valid()
    ensures n > 0
  {
    CeilDivIsLeast(cfg.numChains, cfg.fanoutSize);
    if stage == StageNone then L1Count(cfg) + 1 else cfg.numChains
  }

  lemma OneEachBuilds(cfg: Config, us: Utxos, op: OutPoint)
    requires cfg.Valid() && |us| == cfg.numChains && op in us && us[op].value == AMPLE && Fits(cfg.mode, 1)
    ensures SomeFanout(cfg, us)
  {
    assert L2Width(cfg.numChains, |us|, 0) == 1;
    FanoutBuilds(us[op], 1, cfg.mode);
    hide BuildFanout, L2Width;
    assert op in us && 0 <= 0 < |us| && BuildFanout(us[op], L2Width(cfg.numChains, |us|, 0), Some(cfg.mode)).Ok?;
  }

  lemma SeedsCanSend(cfg: Config, stage: Stage, us: Utxos, op: OutPoint)
    requires cfg.Valid() && CanSendOnceFunded(cfg.mode, stage) && |us| == EnoughSeeds(cfg, stage)
    requires op in us && us[op].value == AMPLE
    ensures CanSend(cfg, stage, us)
  {
    CeilDivIsLeast(cfg.numChains, cfg.fanoutSize);
    hide SomeFanout, L1Count, Fits;
    if stage == L1Done { OneEachBuilds(cfg, us, op); }
  }

  lemma FundIsReady(s: State, us: Utxos)
    requires s.phase == Idle && !s.locked && s.cfg.Valid() && s.d.utxos == map[] && us != map[]
    requires forall op :: op in us ==> op.txid.External? && us[op].op == op && us[op].value > 0 && op !in s.h.seeds
    ensures Enabled(s, Fund(us))
    ensures var s' := Do(s, Fund(us));
      Ready(s') && !s'.locked && s'.cfg == s.cfg && s'.mem == s.mem && s'.d.utxos == us
  {
    hide Replayables;
    var op :| op in us;
    assert op in Do(s, Fund(us)).tasks;
  }

  lemma GetsThere(s: State, a: Action)
    requires Enabled(s, a) && !a.Crash? && GetsToSend(Do(s, a))
    ensures GetsToSend(s)
  {
    hide Enabled, Do, Plays, Sends, CrashFree;
    var more, s' :| Plays(Do(s, a), more, s') && CrashFree(more) && Sends(more);
    SendsAfter(s, a, more);
  }

  /** Launched on an empty store, the engine can be funded so that it sends, exactly under this condition. */
  lemma EmptySendsIff(s: State)
    requires Inv(s) && s.phase == Idle && !s.locked && s.cfg.Valid() && s.d.utxos == map[]
    ensures GetsToSend(s) <==> CanSendOnceFunded(s.cfg.mode, s.mem)
  {
    hide Inv, Ready, CanSend, CanSendOnceFunded, Plays, CrashFree, Sends, Enabled, Do, EnoughSeeds, NewSeeds;
    if CanSendOnceFunded(s.cfg.mode, s.mem) {
      var from := UnusedId(s.h.seeds.Keys);
      var us := NewSeeds(from, EnoughSeeds(s.cfg, s.mem));
      var op :| op in us;
      FundIsReady(s, us);
      SeedsCanSend(s.cfg, s.mem, us, op);
      Step(s, Fund(us));
      LaunchSends(Do(s, Fund(us)));
      GetsThere(s, Fund(us));
    } else {
      IdleHoldsNothing(s);
      forall all, s' | Plays(s, all, s') && CrashFree(all) ensures !Sends(all) { BarrenPlay(s, all, s'); }
    }
  }

  lemma IdleHoldsNothing(s: State)
    requires Inv(s) && s.phase == Idle && s.d.utxos == map[]
    ensures s.tasks == map[]
  {
    hide Mirror, WriteAhead, RecordsOwned, SentOwned, TasksFitPhase;
    assert s.tasks.Keys == {};
  }

  lemma BootIsIdle(s: State, cfg: Config, wrote: bool)
    requires Enabled(s, Boot(cfg, wrote)) && !s.locked && s.d.pending != map[]
    ensures var s' := Do(s, Boot(cfg, wrote));
      && s'.phase == Idle && !s'.locked && s'.cfg == cfg && cfg.Valid() && s'.d.utxos == s.d.utxos
      && s'.mem == (if ReadsUnknown(s.d, wrote) then Unknown else s.d.stage.value)
  {
    hide Replayables;
  }

  /**
   The exact condition. Startup has found a record that cannot be replayed, in
   any run. The engine then gets to send something before the next crash if and
   only if the write of the unknown stage failed, another stage was stored, and a
   launch under that stage can send at all, on the UTXOs there are or, if there
   are none, on some funding: the record itself stands in the way of nothing
   else.
   */
  lemma BlocksUnless(states: seq<State>, actions: seq<Action>, i: nat)
    requires IsRun(states, actions) && i < |actions| && actions[i].Boot? && states[i].d.pending != map[]
    ensures GetsToSend(states[i + 1])
      <==>
        && !ReadsUnknown(states[i].d, actions[i].wrote)
        && var cfg, stage, us := actions[i].cfg, states[i].d.stage.value, states[i].d.utxos;
           if us != map[] then CanSend(cfg, stage, us) else CanSendOnceFunded(cfg.mode, stage)
  {
    hide IsRun, Inv, Ready, Do, GetsToSend, Enabled, CanSendOnceFunded;
    RunStep(states, actions, i);
    RunKeepsInv(states, actions, i);
    RunKeepsInv(states, actions, i + 1);
    BootIsDown(states[i], actions[i]);
    DownIsUnlocked(states, actions, i);
    if states[i].d.utxos != map[] {
      BootIsReady(states[i], actions[i].cfg, actions[i].wrote);
      LaunchSendsIff(states[i + 1]);
    } else {
      BootIsIdle(states[i], actions[i].cfg, actions[i].wrote);
      EmptySendsIff(states[i + 1]);
      UnknownCannotSend(actions[i].cfg.mode);
    }
  }

  lemma UnknownCannotSend(mode: Mode)
    ensures !CanSendOnceFunded(mode, Unknown)
  {
  }

  lemma BootIsDown(s: State, a: Action)
    requires Enabled(s, a) && a.Boot?
    ensures s.phase == Down
  {
    hide Replayables;
  }
}
