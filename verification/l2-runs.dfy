/**
 Runs that show the limits of the count-based resume, of the pending records and
 of the block on unreplayable ones, and the exact condition under which the
 resume is safe.
 */
module L2Runs {
  import opened Outcomes
  import opened Ledger
  import opened Stages
  import opened StoreSpec
  import opened TxBuilder
  import opened Replay
  import opened Widths
  import opened Engine
  import opened Runs
  import opened SafetySteps
  import opened L1Sizes
  import opened L2Theorems
  import opened Leftover
  import opened Blocked
  import opened Sequential
  import opened Scenarios

  // --------------------------------------------------------------- the safe parameters

  /** More than one chain, but fewer than two, for each L1 output: the last parent gets a single output. */
  predicate Narrow(cfg: Config) {
    cfg.Valid() && Fits(cfg.mode, 1) && L1Count(cfg) < cfg.numChains < 2 * L1Count(cfg)
  }

  /** A launch under l2_partial that starts an L2 fanout although some parent was already fanned out. */
  ghost predicate RestartsOnMix(s: State, a: Action)
    requires Enabled(s, a)
  {
    && a.Dispatch? && s.h.metaOk && s.mem == L2Partial && Do(s, a).phase == InL2
    && exists k :: 0 <= k < |s.h.parents| && s.h.parents[k] !in s.d.utxos
  }

  /** Step i of a run, always started with these parameters, does so. */
  ghost predicate GoesWrong(states: seq<State>, actions: seq<Action>, i: nat, numChains: int, fanoutSize: int) {
    && IsRun(states, actions) && i < |actions| && FixedParameters(states, i)
    && Uses(states[i].cfg, numChains, fanoutSize) && RestartsOnMix(states[i], actions[i])
  }

  lemma NarrowSizes(cfg: Config)
    requires Narrow(cfg)
    ensures L1Count(cfg) >= 2 && L2Width(cfg.numChains, L1Count(cfg), L1Count(cfg) - 1) == 1
  {
    QuotientIsOne(cfg.numChains, L1Count(cfg));
  }

  /** A store with one parent fanned out, found at startup. */
  ghost predicate FoundMix(cfg: Config, actions: seq<Action>, s: State, d: Durable) {
    var l1 := L1Count(cfg);
    && Reached(cfg, actions, s) && IdleAt(s, d) && d.stage == Some(L2Partial) && 2 <= l1 < cfg.numChains
    && |d.utxos| == l1 - 1 + L2Width(cfg.numChains, l1, l1 - 1)
    && |s.h.parents| == l1 && s.h.parents[l1 - 1] == SeedOp(1) && SeedOp(1) !in d.utxos
    && SeedOp(0) in d.utxos && d.utxos[SeedOp(0)] == Seed(0)
  }

  /** Funded with one output for each parent, the process fans out one of them, crashes and restarts. */
  lemma ReachMix(cfg: Config) returns (actions: seq<Action>, s: State, d: Durable)
    requires cfg.Valid() && 2 <= L1Count(cfg) < cfg.numChains
    requires L2Width(cfg.numChains, L1Count(cfg), L1Count(cfg) - 1) >= 1
    requires Fits(cfg.mode, L2Width(cfg.numChains, L1Count(cfg), L1Count(cfg) - 1))
    ensures FoundMix(cfg, actions, s, d)
  {
    hide Reached, IdleAt, L1Count, L2Width, Fits, Seeds;
    actions, s := ReachFunded(cfg, L1Count(cfg));
    actions, s, d := FannedAndRestarted(cfg, actions, s, L1Count(cfg), None);
  }

  /** Dispatch takes the mix for a store in which nothing was fanned out. */
  lemma MixRestarts(s: State, d: Durable, order: seq<OutPoint>)
    requires IdleAt(s, d) && s.cfg.Valid() && d.stage == Some(L2Partial) && s.h.metaOk && IsOrder(order, d.utxos.Keys)
    requires |d.utxos| == L1Count(s.cfg) < s.cfg.numChains
    requires exists k :: 0 <= k < |s.h.parents| && s.h.parents[k] !in d.utxos
    ensures Enabled(s, Dispatch(order, true)) && RestartsOnMix(s, Dispatch(order, true))
  {
    assert s.tasks.Keys == d.utxos.Keys && |d.utxos.Keys| == |d.utxos|;
    assert s.mem == L2Partial && s.d == d;
    hide IsOrder, BeginL2, Do, Enabled, QueuedAll;
    OrderLength(order, d.utxos.Keys);
    L1IsPositive(s.cfg);
    hide L1Count;
    LaunchDoes(s, d, order);
    BeginDoes(s.(locked := true), order);
  }

  lemma L1IsPositive(cfg: Config)
    requires cfg.Valid()
    ensures L1Count(cfg) > 0
  {
    CeilDivIsLeast(cfg.numChains, cfg.fanoutSize);
  }

  /** For every number of chains above the number of L1 outputs and below twice that, some run goes wrong. */
  lemma NarrowGoesWrong(cfg: Config) returns (states: seq<State>, actions: seq<Action>, i: nat)
    requires Narrow(cfg)
    ensures GoesWrong(states, actions, i, cfg.numChains, cfg.fanoutSize)
  {
    hide Do, Enabled, Plays, IdleAt, L1Count, L2Width, RestartsOnMix, IsRun, IsOrder;
    NarrowSizes(cfg);
    var before, s, d := ReachMix(cfg);
    var order := OrderExists(d.utxos.Keys);
    MixRestarts(s, d, order);
    states := AsRun(cfg, before, s, before, s, Dispatch(order, true));
    actions, i := before + [Dispatch(order, true)], |before|;
    RunStep(states, actions, i);
  }

  /** With two chains per L1 output, or one, no run does. */
  lemma WideIsSafe(states: seq<State>, actions: seq<Action>, i: nat, numChains: int, fanoutSize: int)
    requires numChains >= 2 * CeilDiv(numChains, fanoutSize) || numChains <= CeilDiv(numChains, fanoutSize)
    ensures !GoesWrong(states, actions, i, numChains, fanoutSize)
  {
    hide IsRun, Do, Enabled, FixedParameters, CeilDiv;
    if GoesWrong(states, actions, i, numChains, fanoutSize) {
      RunStep(states, actions, i);
      if numChains >= 2 * CeilDiv(numChains, fanoutSize) {
        ResumeTakesTheRightBranch(states, actions, i);
      } else {
        OnePerParentResumes(states[i], actions[i]);
      }
    }
  }

  /** With one chain per L1 output the count never leads to another fanout. */
  lemma OnePerParentResumes(s: State, a: Action)
    requires Enabled(s, a) && a.Dispatch? && s.mem == L2Partial && s.cfg.numChains <= L1Count(s.cfg)
    ensures Do(s, a).phase != InL2
  {
    hide IsOrder, Parents, L1Count, Replayables;
  }

  /**
   The exact condition for a safe resume. However often the process crashes and
   restarts with the same parameters, it never repeats the L2 fanout on a mix of
   parents and outputs if and only if there are at least two chains for each L1
   output, or exactly one.
   */
  lemma ResumeIsSafeIff(numChains: int, fanoutSize: int)
    requires numChains > 0 && fanoutSize > 0
    ensures (forall states, actions, i :: !GoesWrong(states, actions, i, numChains, fanoutSize))
      <==> numChains >= 2 * CeilDiv(numChains, fanoutSize) || numChains == CeilDiv(numChains, fanoutSize)
  {
    hide GoesWrong;
    CeilDivIsLeast(numChains, fanoutSize);
    var l1 := CeilDiv(numChains, fanoutSize);
    hide CeilDiv;
    if numChains >= 2 * l1 || numChains == l1 {
      forall states, actions, i: nat ensures !GoesWrong(states, actions, i, numChains, fanoutSize) {
        WideIsSafe(states, actions, i, numChains, fanoutSize);
      }
    } else {
      var cfg := Config(numChains, fanoutSize, TaggedDrop(1));
      assert L1Count(cfg) == l1;
      var states, actions, i := NarrowGoesWrong(cfg);
    }
  }

  // ---------------------------------------------------------------- chains on a mix

  /** Two L1 outputs or more, two chains for each, and L2 fanouts that fit. */
  predicate Wide(cfg: Config) {
    && cfg.Valid() && 2 <= L1Count(cfg) && 2 * L1Count(cfg) <= cfg.numChains
    && Fits(cfg.mode, cfg.numChains / L1Count(cfg))
  }

  lemma ReachWideMix(cfg: Config) returns (actions: seq<Action>, s: State, d: Durable)
    requires Wide(cfg)
    ensures FoundMix(cfg, actions, s, d) && |d.utxos| == L1Count(cfg) - 1 + cfg.numChains / L1Count(cfg) > L1Count(cfg)
  {
    hide Reached, IdleAt, L1Count, L2Width, Fits;
    WideWidths(cfg.numChains, L1Count(cfg));
    actions, s, d := ReachMix(cfg);
  }

  /** Step i of a run starts a chain on every UTXO of a mix: a parent is among them, another was fanned out. */
  ghost predicate StartsOnMix(states: seq<State>, actions: seq<Action>, i: nat, cfg: Config) {
    && IsRun(states, actions) && i < |actions| && actions[i].Dispatch? && states[i].cfg == cfg && states[i].h.metaOk
    && states[i].mem == L2Partial && states[i + 1].phase == Running && states[i + 1].tasks == states[i].tasks
    && (exists op :: op in states[i].d.utxos && op.txid.External?)
    && exists k :: 0 <= k < |states[i].h.parents| && states[i].h.parents[k] !in states[i].d.utxos
  }

  /**
   Chains are started after an L2 fanout that is not complete: for all such
   parameters, a run in which one parent was fanned out before a crash.
   */
  lemma ChainsOnMix(cfg: Config) returns (states: seq<State>, actions: seq<Action>, i: nat)
    requires Wide(cfg)
    ensures StartsOnMix(states, actions, i, cfg)
    ensures |states[i].d.utxos| == L1Count(cfg) - 1 + cfg.numChains / L1Count(cfg)
  {
    hide Do, Enabled, Plays, L1Count, IsRun, IsOrder, Fits;
    var before, s, d := ReachWideMix(cfg);
    var order := OrderExists(d.utxos.Keys);
    assert |d.utxos.Keys| == |d.utxos|;
    OrderLength(order, d.utxos.Keys);
    var _, running := ReachResume(cfg, before, s, d, order);
    states := AsRun(cfg, before, s, before, s, Dispatch(order, true));
    actions, i := before + [Dispatch(order, true)], |before|;
    RunStep(states, actions, i);
  }

  const FOUR := Config(4, 2, TaggedDrop(1))

  lemma FourIsWide()
    ensures Wide(FOUR) && L1Count(FOUR) == 2
  {
  }

  /** Four chains over two L1 outputs: chains start on a parent and the two outputs of the other. */
  lemma FourChainsOnMix() returns (states: seq<State>, actions: seq<Action>, i: nat)
    ensures StartsOnMix(states, actions, i, FOUR) && |states[i].d.utxos| == 3
  {
    FourIsWide();
    hide Wide, L1Count, StartsOnMix;
    states, actions, i := ChainsOnMix(FOUR);
  }

  // ----------------------------------------------- a record that should have blocked

  lemma GarbleDoes(s: State, key: TxId, stored: Stored)
    requires s.phase == Down && !Replayable(key, stored)
    ensures Enabled(s, Garble(key, stored))
    ensures var s' := Do(s, Garble(key, stored));
      s' == s.(d := s.d.(pending := s.d.pending[key := stored]), h := s'.h)
  {
    hide Replayables;
  }

  lemma BootUnblocked(s: State, cfg: Config)
    requires s.phase == Down && s.toMark.None? && Replayables(s.d) == {} && cfg.Valid()
    ensures Enabled(s, Boot(cfg, false))
  {
    hide Replayables;
  }

  lemma NoReplayables(d: Durable, key: TxId)
    requires d.pending == map[key := Garbled]
    ensures Replayables(d) == {} && !Replayable(key, Garbled)
  {
  }

  /** Startup at i finds a record that cannot be replayed, its stage write fails, and step j writes a record to send. */
  ghost predicate SendsBesideGarbage(states: seq<State>, actions: seq<Action>, i: nat, j: nat) {
    && IsRun(states, actions) && i < j < |actions| && actions[i].Boot? && !actions[i].wrote
    && states[i].d.pending != map[] && Replayables(states[i].d) == {}
    && actions[j].Save? && actions[j].ok && forall k :: i <= k <= j ==> !actions[k].Crash?
  }

  /** A mix on disk, and a damaged record beside it. */
  lemma ReachGarbled() returns (actions: seq<Action>, s: State)
    ensures Plays(Fresh(FOUR), actions, s) && s.phase == Down && s.toMark.None? && Replayables(s.d) == {}
    ensures s.d.pending != map[] && s.d.stage == Some(L2Partial) && |s.d.utxos| == 3
  {
    hide Do, Enabled, Plays, L1Count, Replayables, QueuedAll, KeepsConfig;
    FourIsWide();
    var before, idle, d := ReachWideMix(FOUR);
    CrashDoes(idle);
    PlaysSnoc(Fresh(FOUR), before, idle, Crash);
    var down, key := Do(idle, Crash), External(0);
    var broken := down.d.(pending := map[key := Garbled]);
    NoReplayables(broken, key);
    GarbleDoes(down, key, Garbled);
    PlaysSnoc(Fresh(FOUR), before + [Crash], down, Garble(key, Garbled));
    actions, s := before + [Crash] + [Garble(key, Garbled)], Do(down, Garble(key, Garbled));
    assert s.d == broken && key in broken.pending;
  }

  lemma ThreeUtxosSend(d: Durable)
    requires d.stage == Some(L2Partial) && |d.utxos| == 3
    ensures d.utxos != map[] && !ReadsUnknown(d, false) && CanSend(FOUR, d.stage.value, d.utxos)
  {
    FourIsWide();
    hide L1Count, SomeFanout;
  }

  /** With four chains over two L1 outputs, a run in which a record is damaged and the engine sends all the same. */
  lemma GarbledRecordDoesNotBlock() returns (states: seq<State>, actions: seq<Action>, i: nat, j: nat)
    ensures SendsBesideGarbage(states, actions, i, j)
  {
    hide Do, Enabled, Plays, IsRun, CanSend, Replayables;
    var before, down := ReachGarbled();
    var boot := Boot(FOUR, false);
    BootUnblocked(down, FOUR);
    PlaysSnoc(Fresh(FOUR), before, down, boot);
    var acts := before + [boot];
    var first := RunFrom(FOUR, acts, Do(down, boot));
    i := |before|;
    PlaysIs(first, acts, 0, before, down);
    ThreeUtxosSend(down.d);
    BlocksUnless(first, acts, i);
    states, actions, j := GoOnToSend(first, acts);
    assert states[i] == states[..|first|][i] == first[i];
    assert actions[i] == boot;
  }

  /** A run that gets to send, up to there. */
  lemma GoOnToSend(before: seq<State>, acts: seq<Action>) returns (states: seq<State>, actions: seq<Action>, j: nat)
    requires IsRun(before, acts) && |before| == |acts| + 1 && GetsToSend(before[|acts|])
    ensures IsRun(states, actions) && acts <= actions && |before| <= |states| && states[..|before|] == before
    ensures |acts| <= j < |actions| && actions[j].Save? && actions[j].ok
    ensures forall k :: |acts| <= k <= j ==> !actions[k].Crash?
  {
    hide Do, Enabled, Plays, Init;
    var more: seq<Action>, s': State :| Plays(before[|acts|], more, s') && CrashFree(more) && Sends(more);
    states := RunExtends(before, acts, more, s');
    actions := acts + more;
    var k :| 0 <= k < |more| && more[k].Save? && more[k].ok;
    j := |acts| + k;
  }

  // --------------------------------------------------- records and parents that part

  const THREE := Config(3, 2, TaggedDrop(1))

  lemma ThreeIsNarrow()
    ensures THREE.Valid() && Narrow(THREE) && L1Count(THREE) == 2 && L2Width(3, 2, 1) == 1
  {
  }

  /** The first parent ends without a record, the last one on the queue with one. */
  ghost predicate PartWays(s: State) {
    && LeftDurable(s, SeedOp(0)) && SeedOp(0) in s.d.utxos && !HasRecord(s.d, SeedOp(0))
    && Requeued(s, SeedOp(1)) && SeedOp(1) in s.d.utxos && HasRecord(s.d, SeedOp(1))
  }

  lemma PanicDoes(s: State, op: OutPoint)
    requires s.phase == InL2 && op in s.tasks && s.tasks[op].Active()
    ensures Enabled(s, Panic(op))
    ensures Do(s, Panic(op)) == s.(failed := true, tasks := s.tasks[op := Lost(s.tasks[op].Held())])
  {
    hide Replayables;
  }

  lemma FinishEnabled(s: State)
    requires s.phase == InL2 && forall op :: op in s.tasks ==> !s.tasks[op].Active()
    ensures Enabled(s, FinishL2(true))
  {
    hide Replayables;
  }

  lemma OnlyLastRecorded(d: Durable, tx: Tx)
    requires d.pending == map[IdOf(tx) := Encoded(RecordOf(tx, L2Partial, 0))] && tx.input == Seed(1)
    ensures HasRecord(d, SeedOp(1)) && !HasRecord(d, SeedOp(0))
  {
    assert Decode(IdOf(tx), d.pending[IdOf(tx)]) == RecordOf(tx, L2Partial, 0);
    assert IdOf(tx) in Replayables(d);
  }

  lemma TwoInOrder()
    ensures IsOrder([SeedOp(0), SeedOp(1)], Seeds(2).Keys)
  {
    hide Seeds;
    assert |Seeds(2).Keys| == |Seeds(2)|;
  }

  /** Two parents, the last of them tried. */
  lemma ReachTwo() returns (actions: seq<Action>, s: State, tx: Tx)
    ensures Reached(THREE, actions, s) && s.phase == InL2 && s.d == Durable(Seeds(2), map[], Some(L2Partial))
    ensures Tries(s, SeedOp(1), L2, tx) && tx.input == Seed(1)
    ensures s.tasks.Keys == Seeds(2).Keys && s.tasks[SeedOp(0)].Parent?
  {
    hide Plays, KeepsConfig, IdleAt, L1Count, L2Width, BuildFanout, Seeds, Narrow, IsOrder, Parents;
    ThreeIsNarrow();
    TwoInOrder();
    var d, order := Durable(Seeds(2), map[], None), [SeedOp(0), SeedOp(1)];
    actions, s := ReachFunded(THREE, 2);
    actions, s := ReachLaunch(THREE, actions, s, d, order);
    StartedAt(s, d, order, 0);
    StartedAt(s, d, order, 1);
    ParentsHold(QueuedAll(d.utxos), order, 3);
    FanoutBuilds(Seed(1), 1, THREE.mode);
    tx := BuildFanout(Seed(1), 1, Some(THREE.mode)).value;
    actions, s := ReachBuilt(THREE, actions, s, SeedOp(1), 1, tx);
  }

  /**
   Three chains over two L1 outputs. The goroutine of the last parent gives up
   after an error and fails to clear its record, that of the first one panics
   before it builds: when the fanout ends, a durable parent has no record and a
   queued one has.
   */
  lemma RecordsPartFromParents() returns (states: seq<State>, actions: seq<Action>, i: nat)
    ensures IsRun(states, actions) && i < |actions| && actions[i] == FinishL2(true) && PartWays(states[i])
  {
    hide Do, Enabled, Plays, IsRun, RecordOf, HasRecord, Seeds;
    var before, s, tx := ReachTwo();
    var first, last := SeedOp(0), SeedOp(1);
    before, s := ReachSent(THREE, before, s, last, L2, tx, false);
    ClearMoves(s, last, false, false);
    Extend(THREE, before, s, Clear(last, false, false));
    before, s := before + [Clear(last, false, false)], Do(s, Clear(last, false, false));
    PanicDoes(s, first);
    Extend(THREE, before, s, Panic(first));
    before, s := before + [Panic(first)], Do(s, Panic(first));
    OnlyLastRecorded(s.d, tx);
    FinishEnabled(s);
    states := AsRun(THREE, before, s, before, s, FinishL2(true));
    actions, i := before + [FinishL2(true)], |before|;
    RunStep(states, actions, i);
  }
}
