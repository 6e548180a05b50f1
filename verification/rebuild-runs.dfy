/**
 Runs in which an outpoint is spent by two different transactions, both handed to
 the broadcaster, and with them the exact parameters under which that cannot
 happen.
 */
module RebuildRuns {
  import opened Outcomes
  import opened Ledger
  import opened Stages
  import opened StoreSpec
  import opened TxBuilder
  import opened Replay
  import opened Widths
  import opened Engine
  import opened Runs
  import opened SafetySteps
  import opened Blocked
  import opened Rebuild
  import opened Sequential
  import opened Scenarios

  /** Two attempts at one outpoint, the first of them saved, as saves of a run. */
  lemma TwoSavesOf(cfg: Config, before: seq<Action>, first: State, actions: seq<Action>, second: State,
    op: OutPoint, kind: Kind, kind': Kind, tx: Tx, tx': Tx)
    returns (states: seq<State>, all: seq<Action>, i: nat, j: nat)
    requires Reached(cfg, before, first) && Reached(cfg, actions, second) && before + [Save(op, true, 0)] <= actions
    requires Tries(first, op, kind, tx) && Tries(second, op, kind', tx') && tx != tx'
    ensures Differ(states, all, i, j, cfg)
    ensures AttemptAt(states, all, i) == Trying(kind, tx) && AttemptAt(states, all, j) == Trying(kind', tx')
    ensures states[j] == second
  {
    hide Do, Enabled, Plays, IsRun;
    SaveMoves(second, op, 0);
    states := AsRun(cfg, before, first, actions, second, Save(op, true, 0));
    all, i, j := actions + [Save(op, true, 0)], |before|, |actions|;
    assert all[i] == (before + [Save(op, true, 0)])[i];
    RunStep(states, all, j);
  }

  // --------------------------------------------------- the same fanout in another place

  lemma RemainderMeansTwo(cfg: Config)
    requires cfg.Valid() && L1Count(cfg) > 0 && cfg.numChains % L1Count(cfg) != 0
    ensures 2 <= L1Count(cfg) < cfg.numChains
  {
    L1CountPositive(cfg);
  }

  /** The first place gets one chain more than the last. */
  lemma EndsDiffer(n: nat, l1: nat)
    requires 2 <= l1 < n && n % l1 != 0
    ensures L2Width(n, l1, 0) == n / l1 + 1 && L2Width(n, l1, l1 - 1) == n / l1 >= 1
  {
    WidthsArePositive(n, l1, l1 - 1);
  }

  /** The store of l1 funding outputs, as an L2 fanout leaves it that has fanned out none of them. */
  function Unfanned(l1: nat): Durable {
    Durable(Seeds(l1), map[], Some(L2Partial))
  }

  /** op is tried in place k and refused although it was accepted, and the process restarts. */
  lemma TriedAndRestarted(cfg: Config, before: seq<Action>, mid: State, d: Durable, op: OutPoint, k: nat)
    returns (first: seq<Action>, tried: State, actions: seq<Action>, s: State, tx: Tx)
    requires Reached(cfg, before, mid) && IdleAt(mid, d) && LaunchesL2(cfg, d.stage, |d.utxos|)
    requires op in d.utxos && d.utxos[op].value >= AMPLE / 2 && k < |d.utxos|
    requires L2Width(cfg.numChains, |d.utxos|, k) >= 1 && Fits(cfg.mode, L2Width(cfg.numChains, |d.utxos|, k))
    ensures Reached(cfg, first, tried) && Tries(tried, op, L2, tx) && first + [Save(op, true, 0)] <= actions
    ensures Reached(cfg, actions, s) && IdleAt(s, d.(stage := Some(L2Partial))) && tx in s.h.accepted
    ensures |tx.outs| == L2Width(cfg.numChains, |d.utxos|, k)
    ensures tx.input == d.utxos[op] && BuildFanout(d.utxos[op], |tx.outs|, Some(cfg.mode)) == Ok(tx)
  {
    assert d.pending == map[];
    hide Plays, LaunchesL2, BuildFanout, L2Width, Fits, IdleAt;
    first, tried, tx := BuiltAt(cfg, before, mid, d, op, k);
    actions, s := ReachRefused(cfg, first, tried, op, L2, tx);
    var refused := actions;
    actions, s := ReachRestart(cfg, actions, s);
    assert first + [Save(op, true, 0)] <= refused <= actions;
  }

  /**
   Wherever the chains do not divide evenly and the wider fanouts fit: an output
   is first in the drain order of one launch and last in that of the next, after a
   broadcast that was accepted but answered with an error. It is sent twice, with
   different transactions, and the first of them is on the network.
   */
  lemma OtherPlaceDiffers(cfg: Config) returns (states: seq<State>, actions: seq<Action>, i: nat, j: nat)
    requires cfg.Valid() && !L2AlwaysRebuilt(cfg)
    ensures DifferInL2(states, actions, i, j, cfg)
    ensures AttemptAt(states, actions, i).tx in states[j].h.accepted
  {
    hide Plays, L1Count, Fits, L2Width, Seeds, IdleAt, Differ;
    L1CountPositive(cfg);
    RemainderMeansTwo(cfg);
    var n, l1: nat, op := cfg.numChains, L1Count(cfg), SeedOp(0);
    EndsDiffer(n, l1);
    FitsDown(cfg.mode, n / l1, n / l1 + 1);
    var acts, s := ReachFunded(cfg, l1);
    var first, tried, restarted, idle, tx := TriedAndRestarted(cfg, acts, s, Durable(Seeds(l1), map[], None), op, 0);
    var second, again, tx' := BuiltAt(cfg, restarted, idle, Unfanned(l1), op, l1 - 1);
    assert first + [Save(op, true, 0)] <= restarted <= second;
    states, actions, i, j := TwoSavesOf(cfg, first, tried, second, again, op, L2, L2, tx, tx');
  }

  /** Three chains over two L1 outputs are such parameters. */
  lemma ThreeChainsDiffer() returns (states: seq<State>, actions: seq<Action>, i: nat, j: nat)
    ensures DifferInL2(states, actions, i, j, Config(3, 2, TaggedDrop(1)))
    ensures AttemptAt(states, actions, i).tx in states[j].h.accepted
  {
    hide DifferInL2;
    assert L1Count(Config(3, 2, TaggedDrop(1))) == 2;
    states, actions, i, j := OtherPlaceDiffers(Config(3, 2, TaggedDrop(1)));
  }

  // ------------------------------------------------- a parent that is left to the chains

  /** Launched on d under l2_partial with another number of UTXOs, a chain on op builds its hop. */
  lemma HoppedAt(cfg: Config, before: seq<Action>, mid: State, d: Durable, op: OutPoint)
    returns (actions: seq<Action>, s: State)
    requires Reached(cfg, before, mid) && IdleAt(mid, d) && d.stage == Some(L2Partial)
    requires |d.utxos| >= cfg.numChains || |d.utxos| != L1Count(cfg)
    requires op in d.utxos && d.utxos[op].value > 0
    ensures Reached(cfg, actions, s) && before <= actions && mid.h.accepted <= s.h.accepted
    ensures Tries(s, op, Hop, C.HopTx(d.utxos[op], cfg.mode.sustainFee))
  {
    hide Plays, IsOrder, L1Count, IdleAt, Do, Enabled;
    assert |d.utxos.Keys| == |d.utxos| && op in d.utxos.Keys;
    var order := OrderExists(d.utxos.Keys);
    OrderLength(order, d.utxos.Keys);
    actions, s := ReachResume(cfg, before, mid, d, order);
    actions, s := ReachHop(cfg, actions, s, op);
  }

  /**
   With two parents or more and two chains for each, as long as an L2 fanout fits:
   one parent is sent and refused, the next launch fans out another one, and the
   one after that, on the mix, starts a chain on the first parent. Its hop spends
   what a fanout on the network has spent.
   */
  lemma HopDiffers(cfg: Config) returns (states: seq<State>, actions: seq<Action>, i: nat, j: nat)
    requires cfg.Valid() && 2 <= L1Count(cfg) && 2 * L1Count(cfg) <= cfg.numChains
    requires Fits(cfg.mode, cfg.numChains / L1Count(cfg))
    ensures Differ(states, actions, i, j, cfg)
    ensures AttemptAt(states, actions, i).kind == L2 && AttemptAt(states, actions, j).kind == Hop
    ensures AttemptAt(states, actions, i).tx in states[j].h.accepted
  {
    hide Plays, L1Count, Fits, L2Width, Seeds, IdleAt, Differ, Spendable;
    var n, l1: nat, op := cfg.numChains, L1Count(cfg), SeedOp(0);
    WideWidths(n, l1);
    var acts, s := ReachFunded(cfg, l1);
    var funded := Durable(Seeds(l1), map[], None);
    var first, tried, restarted, idle, tx := TriedAndRestarted(cfg, acts, s, funded, op, l1 - 1);
    var mixed, mix, d := FannedAndRestarted(cfg, restarted, idle, l1, Some(L2Partial));
    var second, hopped := HoppedAt(cfg, mixed, mix, d, op);
    assert first + [Save(op, true, 0)] <= restarted <= mixed <= second;
    var hop := C.HopTx(Seed(0), cfg.mode.sustainFee);
    states, actions, i, j := TwoSavesOf(cfg, first, tried, second, hopped, op, L2, Hop, tx, hop);
  }


  // ------------------------------------------------------------ one chain for each parent

  /** The L1 launch of a single UTXO. */
  lemma L1Does(s: State, op: OutPoint, tx: Tx)
    requires s.phase == Idle && !s.locked && s.cfg.Valid() && s.mem == StageNone && s.tasks.Keys == {op}
    requires BuildFanout(s.tasks[op].Held(), L1Count(s.cfg), Some(s.cfg.mode)) == Ok(tx)
    ensures Enabled(s, Dispatch([op], true))
    ensures Do(s, Dispatch([op], true)) ==
      SetMeta(s.(locked := true), StageNone, true).(phase := InL1, tasks := s.tasks[op := Trying(L1, tx)])
  {
    hide BuildFanout, L1Count, Replayables;
    assert IsOrder([op], s.tasks.Keys);
    hide IsOrder;
  }

  lemma L1CommitDoes(s: State, op: OutPoint, tx: Tx)
    requires op in s.tasks && s.tasks[op] == ToCommit(L1, tx) && s.cfg.Valid()
    ensures Enabled(s, Commit(op, true))
    ensures var s' := Do(s, Commit(op, true));
      && s'.phase == L1Committed && s'.cfg == s.cfg && s'.h.metaOk == s.h.metaOk
      && s'.d == Durable((s.d.utxos - {tx.input.op}) + Spendable(tx), s.d.pending - {IdOf(tx)}, s.d.stage)
  {
    CommitIsSpend(s.d, tx);
    hide CommitPending, NewTasks, Spendable, Replayables;
  }

  lemma MarkDoes(s: State)
    requires s.phase == L1Committed
    ensures Enabled(s, MarkL1(true))
    ensures var s' := Do(s, MarkL1(true)); s'.d == s.d.(stage := Some(L1Done)) && s'.cfg == s.cfg && s'.h == s.h
  {
    hide Replayables;
  }

  /** The only output of a fanout into one. */
  lemma OnlyOutput(tx: Tx, mode: Mode)
    requires BuildFanout(Seed(0), 1, Some(mode)) == Ok(tx)
    ensures var us, op := (Seeds(1) - {SeedOp(0)}) + Spendable(tx), OutPoint(IdOf(tx), 0);
      us == map[op := Output(tx, 0)] && us[op].value >= AMPLE / 2 && tx.input == Seed(0)
  {
    OutputValue(tx, mode);
    hide BuildFanout, Seeds;
    NoSeedLeft();
    OneSpendable(tx);
    hide Spendable;
    assert map[] + Spendable(tx) == Spendable(tx);
  }

  lemma NoSeedLeft()
    ensures Seeds(1) - {SeedOp(0)} == map[]
  {
    hide Seeds;
    forall op | op in Seeds(1) ensures op == SeedOp(0) {}
  }

  lemma OneSpendable(tx: Tx)
    requires |tx.outs| == 1 && tx.outs[0] > 0
    ensures Spendable(tx) == map[OutPoint(IdOf(tx), 0) := Output(tx, 0)]
  {
    forall x ensures x in Spendable(tx) <==> x == OutPoint(IdOf(tx), 0) {
      assert x in Spendable(tx) <==> CreatedBy(x, tx);
    }
  }

  lemma OutputValue(tx: Tx, mode: Mode)
    requires BuildFanout(Seed(0), 1, Some(mode)) == Ok(tx)
    ensures tx.input == Seed(0) && |tx.outs| == 1 && tx.outs[0] >= AMPLE / 2
  {
    FanoutOutcome(Seed(0), 1, mode);
    hide BuildFanout;
    assert Sum(tx.outs) == tx.outs[0] by { assert tx.outs[1..] == []; }
    FeeIsSmall(mode);
  }

  lemma FeeIsSmall(mode: Mode)
    requires Fits(mode, 1)
    ensures FanoutFee(mode, 1) <= 10_000_001
  {
    hide ExactSize;
  }

  /** One chain: the L1 fanout of the funding output is committed. */
  lemma OneChainCommits(cfg: Config) returns (actions: seq<Action>, s: State, tx: Tx)
    requires cfg.Valid() && L1Count(cfg) == 1 && Fits(cfg.mode, 1)
    ensures Reached(cfg, actions, s) && s.phase == L1Committed
    ensures s.d.utxos == (Seeds(1) - {SeedOp(0)}) + Spendable(tx) && s.d.pending == map[]
    ensures BuildFanout(Seed(0), 1, Some(cfg.mode)) == Ok(tx) && s.d.stage == Some(StageNone)
  {
    hide Plays, L1Count, Fits, Do, Enabled, BuildFanout, RecordOf, Spendable;
    var seed := SeedOp(0);
    actions, s := ReachFunded(cfg, 1);
    assert s.tasks.Keys == {seed};
    FanoutBuilds(Seed(0), 1, cfg.mode);
    tx := BuildFanout(Seed(0), 1, Some(cfg.mode)).value;
    L1Does(s, seed, tx);
    Extend(cfg, actions, s, Dispatch([seed], true));
    actions, s := actions + [Dispatch([seed], true)], Do(s, Dispatch([seed], true));
    hide Seeds;
    actions, s := ReachSent(cfg, actions, s, seed, L1, tx, true);
    L1CommitDoes(s, seed, tx);
    Extend(cfg, actions, s, Commit(seed, true));
    assert map[IdOf(tx) := Encoded(RecordOf(tx, L1Done, 0))] - {IdOf(tx)} == map[];
    actions, s := actions + [Commit(seed, true)], Do(s, Commit(seed, true));
  }

  /** Step i launches the L1 fanout of an output of an earlier L1 fanout. */
  ghost predicate RepeatsL1(states: seq<State>, actions: seq<Action>, i: nat, cfg: Config) {
    && IsRun(states, actions) && i < |actions| && actions[i].Dispatch? && states[i + 1].phase == InL1
    && (forall j :: 0 <= j <= i ==> states[j].cfg == cfg) && states[i].h.metaOk
    && forall op :: op in states[i].d.utxos ==> op.txid.Spend?
  }

  /**
   With a single L1 output, a crash between the commit of the L1 fanout and its
   mark makes the next launch repeat it.
   */
  lemma OneOutputRepeatsL1(cfg: Config) returns (states: seq<State>, actions: seq<Action>, i: nat)
    requires cfg.Valid() && L1Count(cfg) == 1 && Fits(cfg.mode, 1)
    ensures RepeatsL1(states, actions, i, cfg)
  {
    hide Plays, L1Count, Fits, Do, Enabled, BuildFanout, Spendable, Seeds, IsRun;
    var before, s, tx := OneChainCommits(cfg);
    OnlyOutput(tx, cfg.mode);
    var op := OutPoint(IdOf(tx), 0);
    before, s := ReachRestart(cfg, before, s);
    assert s.tasks.Keys == {op};
    FanoutBuilds(s.d.utxos[op], 1, cfg.mode);
    L1Does(s, op, BuildFanout(s.d.utxos[op], 1, Some(cfg.mode)).value);
    states := AsRun(cfg, before, s, before, s, Dispatch([op], true));
    actions, i := before + [Dispatch([op], true)], |before|;
    RunStep(states, actions, i);
  }

  /** Its stage is marked, and the process restarts. */
  lemma OneChainStarts(cfg: Config) returns (actions: seq<Action>, s: State, d: Durable, op: OutPoint)
    requires cfg.Valid() && L1Count(cfg) == 1 && Fits(cfg.mode, 1)
    ensures Reached(cfg, actions, s) && IdleAt(s, d) && d.stage == Some(L1Done)
    ensures |d.utxos| == 1 && op in d.utxos && d.utxos[op].value >= AMPLE / 2
  {
    hide Plays, L1Count, Fits, Do, Enabled, BuildFanout, Spendable, Seeds, IdleAt;
    var tx;
    actions, s, tx := OneChainCommits(cfg);
    OnlyOutput(tx, cfg.mode);
    MarkDoes(s);
    Extend(cfg, actions, s, MarkL1(true));
    actions, s := actions + [MarkL1(true)], Do(s, MarkL1(true));
    d, op := s.d, OutPoint(IdOf(tx), 0);
    actions, s := ReachRestart(cfg, actions, s);
  }

  /** Some store on which the next launch is an L2 fanout into one output each. */
  lemma EqualStarts(cfg: Config) returns (actions: seq<Action>, s: State, d: Durable, op: OutPoint)
    requires cfg.Valid() && L1Count(cfg) == cfg.numChains && Fits(cfg.mode, 1)
    ensures Reached(cfg, actions, s) && IdleAt(s, d) && LaunchesL2(cfg, d.stage, |d.utxos|)
    ensures |d.utxos| == cfg.numChains && op in d.utxos && d.utxos[op].value >= AMPLE / 2
  {
    hide Reached, L1Count, Fits, Seeds, IdleAt;
    if cfg.numChains == 1 {
      actions, s, d, op := OneChainStarts(cfg);
    } else {
      actions, s := ReachFunded(cfg, cfg.numChains);
      d, op := Durable(Seeds(cfg.numChains), map[], None), SeedOp(0);
    }
  }

  /**
   With one chain for each parent, a parent that was sent and refused is left to
   the chains by the next launch, and its hop differs unless it pays the same fee.
   */
  lemma EqualDiffers(cfg: Config) returns (states: seq<State>, actions: seq<Action>, i: nat, j: nat)
    requires cfg.Valid() && L1Count(cfg) == cfg.numChains
    requires Fits(cfg.mode, 1) && cfg.mode.sustainFee != FanoutFee(cfg.mode, 1)
    ensures Differ(states, actions, i, j, cfg)
    ensures AttemptAt(states, actions, i).tx in states[j].h.accepted
  {
    hide Reached, L1Count, Fits, IdleAt, Differ, LaunchesL2, FanoutFee, BuildFanout;
    var acts, s, d, op := EqualStarts(cfg);
    var first, tried, restarted, idle, tx := TriedAndRestarted(cfg, acts, s, d, op, 0);
    var second, hopped := HoppedAt(cfg, restarted, idle, d.(stage := Some(L2Partial)), op);
    var hop := C.HopTx(d.utxos[op], cfg.mode.sustainFee);
    C.SustainIsHop(d.utxos[op], cfg.mode);
    FanoutIsHopIff(d.utxos[op], cfg, tx, hop);
    assert first + [Save(op, true, 0)] <= restarted <= second;
    states, actions, i, j := TwoSavesOf(cfg, first, tried, second, hopped, op, L2, Hop, tx, hop);
  }

  // ---------------------------------------------------------------------- the theorems

  /**
   Rebuilding an L2 fanout after a restart yields the same transaction, in every
   run with these parameters, if and only if the chains divide evenly among the
   L1 outputs or the wider fanouts do not fit into a transaction.
   */
  lemma L2RebuildIff(cfg: Config)
    requires cfg.Valid()
    ensures (forall states, actions, i, j :: !DifferInL2(states, actions, i, j, cfg)) <==> L2AlwaysRebuilt(cfg)
  {
    hide DifferInL2, L2AlwaysRebuilt;
    if L2AlwaysRebuilt(cfg) {
      forall states, actions, i: nat, j: nat ensures !DifferInL2(states, actions, i, j, cfg) {
        L2SavesAgree(states, actions, i, j, cfg);
      }
    } else {
      var states, actions, i, j := OtherPlaceDiffers(cfg);
    }
  }

  /**
   Whatever is sent for one outpoint, before and after restarts and by whichever
   part of the engine, is one transaction, in every run with these parameters, if
   and only if AlwaysRebuilt holds of them.
   */
  lemma RebuildIff(cfg: Config)
    requires cfg.Valid()
    ensures (forall states, actions, i, j :: !Differ(states, actions, i, j, cfg)) <==> AlwaysRebuilt(cfg)
  {
    hide Differ, Fits, L1Count, FanoutFee;
    if AlwaysRebuilt(cfg) {
      forall states, actions, i: nat, j: nat ensures !Differ(states, actions, i, j, cfg) {
        SavesAgree(states, actions, i, j, cfg);
      }
    } else {
      L1CountPositive(cfg);
      NarrowWidths(cfg.numChains, L1Count(cfg));
      var states, actions, i, j := SomeDiffer(cfg);
    }
  }

  lemma SomeDiffer(cfg: Config) returns (states: seq<State>, actions: seq<Action>, i: nat, j: nat)
    requires cfg.Valid() && !AlwaysRebuilt(cfg)
    ensures Differ(states, actions, i, j, cfg)
  {
    hide Differ, Fits, L1Count, FanoutFee;
    L1CountPositive(cfg);
    var n, l1 := cfg.numChains, L1Count(cfg);
    NarrowWidths(n, l1);
    if n == l1 {
      states, actions, i, j := EqualDiffers(cfg);
    } else if n < 2 * l1 {
      states, actions, i, j := OtherPlaceDiffers(cfg);
    } else {
      states, actions, i, j := HopDiffers(cfg);
    }
  }
}
