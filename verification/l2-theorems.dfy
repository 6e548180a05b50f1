/** What the parallel L2 fanout leaves behind, over every interleaving, failure and crash. */
module L2Theorems {
  import opened Outcomes
  import opened Ledger
  import opened Stages
  import opened StoreSpec
  import opened Replay
  import opened Widths
  import opened Tally
  import opened Engine
  import opened Safety
  import opened SafetySteps
  import opened StageOrder
  import opened Progress
  import opened ProgressSteps
  import opened CrashSafety
  import opened Runs
  import opened Leftover
  import opened L1Sizes

  lemma NothingLeftOver(s: State)
    requires Inv(s) && s.phase == InL2 && !s.failed && forall op :: op in s.tasks ==> !s.tasks[op].Active()
    ensures forall op :: op in s.tasks ==> s.tasks[op].Produced?
    ensures s.tasks.Keys == s.d.utxos.Keys
  {
    hide Mirror, WriteAhead, RecordsOwned, SentOwned, Replayables;
  }

  /** With every goroutine ended and none failed, every task is an output and no parent is left. */
  lemma AllProduced(s: State)
    requires Inv(s) && Epoch(s) && s.phase == InL2 && !s.failed && forall op :: op in s.tasks ==> !s.tasks[op].Active()
    ensures forall op :: op in s.tasks ==> s.tasks[op].Produced?
    ensures |s.tasks| == s.cfg.numChains && s.tasks.Keys == s.d.utxos.Keys
  {
    hide Inv, Replaced, HasWidth, Count, Replayables, Born;
    NothingLeftOver(s);
    forall i | 0 <= i < |s.h.parents| ensures s.h.parents[i] !in s.d.utxos.Keys {
      assert s.h.parents[i] in s.h.parents;
    }
    CountNonePresent(s.h.parents, s.h.widths, s.d.utxos.Keys);
    assert |s.tasks| == |s.tasks.Keys| && |s.d.utxos| == |s.d.utxos.Keys|;
  }

  /**
   A successful L2 is complete: bootstrapL2 goes on to the chains exactly when
   no fanout failed, and then exactly numChains distinct UTXOs are queued, all
   of them durable. The branch "no failures, but the wrong number of outputs"
   is never taken.
   */
  lemma L2IsComplete(states: seq<State>, actions: seq<Action>, i: nat)
    requires IsRun(states, actions) && i < |actions| && actions[i].FinishL2?
    ensures states[i + 1].phase == Running <==> !states[i].failed
    ensures !states[i].failed ==>
      && ProducedCount(states[i]) == states[i].cfg.numChains == |states[i + 1].tasks|
      && AllQueued(states[i + 1]) && states[i + 1].tasks.Keys == states[i + 1].d.utxos.Keys
      && (actions[i].wrote ==> states[i + 1].d.stage == Some(L2Done))
  {
    hide Inv, Epoch, IsRun;
    RunStep(states, actions, i);
    RunKeepsInv(states, actions, i);
    RunKeepsEpoch(states, actions, i);
    var s := states[i];
    if !s.failed {
      AllProduced(s);
      assert (set op | op in s.tasks && s.tasks[op].Produced?) == s.tasks.Keys;
      assert Requeue(s.tasks).Keys == s.tasks.Keys;
    }
  }

  predicate Requeued(s: State, p: OutPoint) { p in s.tasks && s.tasks[p].Queued? }

  predicate LeftDurable(s: State, p: OutPoint) { p in s.tasks && s.tasks[p].Lost? }

  /** p is spent, and each output of the transaction that spent it is waiting to be pushed. */
  ghost predicate Fanned(s: State, p: OutPoint, width: nat) {
    && p !in s.tasks && p in s.h.committed && |s.h.committed[p].outs| == width
    && forall j :: 0 <= j < width ==>
         var op := OutPoint(IdOf(s.h.committed[p]), j); op in s.tasks && s.tasks[op].Produced?
  }

  /** What became of the parent p of the given width: one of the three, and never two. */
  ghost predicate EndsOnce(s: State, p: OutPoint, width: nat) {
    if p in s.d.utxos then (Requeued(s, p) || LeftDurable(s, p)) && !Fanned(s, p, width)
    else Fanned(s, p, width) && !Requeued(s, p) && !LeftDurable(s, p)
  }

  /**
   Each parent is accounted for exactly once. Whatever mix of build, store,
   broadcast, commit and panic outcomes the goroutines had, when they have all
   ended a parent is on the queue again, or left on disk by a goroutine that
   ended in a panic or a failed commit, or replaced by all the outputs of its
   fanout: one of the three, and durable in the first two. A durable one has a
   pending record exactly when its record was written and no clear of it has
   succeeded since.
   */
  lemma EachParentAccountedFor(states: seq<State>, actions: seq<Action>, i: nat, k: nat)
    requires IsRun(states, actions) && i < |actions| && actions[i].FinishL2?
    requires k < |states[i].h.parents|
    ensures |states[i].h.parents| == |states[i].h.widths|
    ensures EndsOnce(states[i], states[i].h.parents[k], states[i].h.widths[k])
    ensures var d, p := states[i].d, states[i].h.parents[k];
      p in d.utxos ==> (HasRecord(d, p) <==> Open(actions, i, p))
  {
    hide IsRun, Inv, Epoch, Do, EndsOnce, HasRecord, Open;
    RunStep(states, actions, i);
    RunKeepsInv(states, actions, i);
    RunKeepsEpoch(states, actions, i);
    ParentEnds(states[i], k);
    RecordedIff(states, actions, i, states[i].h.parents[k]);
  }

  lemma ParentEnds(s: State, k: nat)
    requires Inv(s) && Epoch(s) && s.phase == InL2 && k < |s.h.parents|
    requires forall op :: op in s.tasks ==> !s.tasks[op].Active()
    ensures |s.h.parents| == |s.h.widths| && EndsOnce(s, s.h.parents[k], s.h.widths[k])
  {
    hide Mirror, WriteAhead, RecordsOwned, SentOwned, Count, HasWidth, TasksFitPhase, Shape;
    ShapeSizes(s.h);
    var p := s.h.parents[k];
    assert p in s.h.parents;
    if p !in s.d.utxos {
      assert Replaced(s.d.utxos, s.h, k);
      CommittedIsBorn(s.d.utxos, s.h.seeds, s.h.committed, p);
      forall j | 0 <= j < s.h.widths[k]
        ensures var op := OutPoint(IdOf(s.h.committed[p]), j); op in s.tasks && s.tasks[op].Produced?
      {
        ChildIsNoParent(s.h, OutPoint(IdOf(s.h.committed[p]), j));
      }
    }
  }

  lemma ChildIsNoParent(h: History, x: OutPoint)
    requires Shape(h) && x.txid.Spend? && x.txid.input in h.parents
    ensures x !in h.parents
  {
    hide Born;
  }

  /** A step k of the L2 fanout that ends at i, with no crash on the way. */
  ghost predicate WithinFanout(states: seq<State>, actions: seq<Action>, k: nat, i: nat) {
    && IsRun(states, actions) && k < i < |actions|
    && states[k].phase == InL2 && actions[i].FinishL2? && forall j :: k <= j < i ==> !actions[j].Crash?
  }

  lemma DropEnds(s: State, a: Action, p: OutPoint)
    requires Enabled(s, a) && (a == Panic(p) || a == Commit(p, false)) && s.phase == InL2
    ensures p in s.tasks && Do(s, a) == Drop(s, p) && Do(s, a).phase == InL2 && LeftDurable(Do(s, a), p)
    ensures Do(s, a).d == s.d && (a.Commit? ==> s.tasks[p].ToCommit?)
  {
    hide Replayables;
  }

  /**
   A goroutine that ends in a panic or a failed commit. Its parent is still
   durable when the fanout ends, and has a record exactly if it had one then:
   none if the panic came before anything was built, and that of the very
   transaction, for recovery, if the panic or the failure came after its record
   was written.
   */
  lemma LostParentKeepsRecord(states: seq<State>, actions: seq<Action>, k: nat, i: nat, p: OutPoint)
    requires WithinFanout(states, actions, k, i) && (actions[k] == Panic(p) || actions[k] == Commit(p, false))
    ensures p in states[k].tasks && (actions[k].Commit? ==> states[k].tasks[p].ToCommit?)
    ensures LeftDurable(states[i], p) && p in states[i].d.utxos
    ensures HasRecord(states[i].d, p) <==> HasRecord(states[k].d, p)
    ensures states[k].tasks[p].Parent? ==> !HasRecord(states[i].d, p)
    ensures Answering(states[k].tasks[p]) ==> Recorded(states[i].d, states[k].tasks[p].tx)
  {
    hide IsRun, Inv, Do, Enabled, HasRecord, Recorded, Synced, FlightsSettled, Drop;
    RunStep(states, actions, k);
    RunStep(states, actions, i);
    RunKeepsInv(states, actions, k);
    RunKeepsInv(states, actions, i);
    RunKeepsCrashInv(states, actions, k);
    DropEnds(states[k], actions[k], p);
    FinishesL2(states[i], actions[i]);
    EndedStays(states, actions, k + 1, i, p);
    HeldKey(states[i], p);
    HeldKey(states[k], p);
    if states[k].tasks[p].Parent? { UnbuiltHasNone(states[k], p); }
  }

  lemma FinishesL2(s: State, a: Action)
    requires Enabled(s, a) && a.FinishL2?
    ensures s.phase == InL2
  {
    hide Replayables;
  }

  lemma UnbuiltHasNone(s: State, p: OutPoint)
    requires Inv(s) && p in s.tasks && s.tasks[p].Parent?
    ensures !HasRecord(s.d, p)
  {
    hide Mirror, WriteAhead, SentOwned, TasksFitPhase;
    NotDown(s, p);
  }

  /**
   A goroutine that gives up after an error. Its parent is on the queue when the
   fanout ends, without a record if the last clear succeeded, and together with
   its record if that clear failed.
   */
  lemma FailedClearLeavesBoth(states: seq<State>, actions: seq<Action>, k: nat, i: nat, p: OutPoint)
    requires WithinFanout(states, actions, k, i) && actions[k].Clear? && !actions[k].retry && actions[k].op == p
    ensures Requeued(states[i], p) && p in states[i].d.utxos
    ensures HasRecord(states[i].d, p) <==> !actions[k].cleared
  {
    hide IsRun, Inv, Do, Enabled, HasRecord, Recorded, Synced, FlightsSettled;
    RunStep(states, actions, k);
    RunStep(states, actions, i);
    RunKeepsInv(states, actions, k);
    RunKeepsInv(states, actions, k + 1);
    RunKeepsInv(states, actions, i);
    RunKeepsCrashInv(states, actions, k);
    ClearEnds(states[k], actions[k]);
    FinishesL2(states[i], actions[i]);
    EndedStays(states, actions, k + 1, i, p);
    HeldKey(states[i], p);
    HeldKey(states[k], p);
    HeldKey(states[k + 1], p);
    RecordStep(states[k], actions[k], p);
    RecordedHas(states[k].d, states[k].tasks[p].tx);
  }

  lemma ClearEnds(s: State, a: Action)
    requires Inv(s) && Enabled(s, a) && a.Clear? && !a.retry && s.phase == InL2
    ensures a.op in s.tasks && s.tasks[a.op].ToClear?
    ensures Do(s, a).phase == InL2 && Requeued(Do(s, a), a.op)
  {
    hide Mirror, WriteAhead, RecordsOwned, SentOwned, Tracked, Replayables;
  }

  lemma RecordedHas(d: Durable, tx: Tx)
    requires Recorded(d, tx)
    ensures HasRecord(d, tx.input.op)
  {
  }

  lemma WidthsAtLeastTwo(h: History)
    requires Shape(h) && h.chains >= 2 * |h.parents|
    ensures forall i :: 0 <= i < |h.widths| ==> h.widths[i] >= 2
  {
    hide L2Width, Born;
    forall i | 0 <= i < |h.widths| ensures h.widths[i] >= 2 {
      WidthsArePositive(h.chains, |h.parents|, i);
    }
  }

  /**
   The bound on the chains is needed: with fewer than two per parent the last
   parent has width one, and fanning it out leaves the count as it was, for any
   number of parents and whatever happened to the others.
   */
  lemma WidthOneIsInvisible(parents: seq<OutPoint>, chains: nat, present: set<OutPoint>)
    requires Distinct(parents) && 0 < |parents| <= chains < 2 * |parents| && parents[|parents| - 1] in present
    ensures var ws := L2Widths(chains, |parents|);
      Count(parents, ws, present - {parents[|parents| - 1]}) == Count(parents, ws, present)
  {
    hide Count;
    QuotientIsOne(chains, |parents|);
    CountReplace(parents, L2Widths(chains, |parents|), present, present - {parents[|parents| - 1]}, |parents| - 1);
  }

  /**
   The durable count determines the progress of the fanout. With the same number
   of chains and the same fanout size at every start, and at least two chains per
   L1 output, in every state whose persisted stage is l2_partial, through any
   number of crashes and replays: the fanout has ceilDiv(numChains, fanoutSize)
   parents, and the number of durable UTXOs is that exactly when none was fanned
   out, numChains exactly when all were, and strictly between otherwise.
   */
  lemma CountTellsProgress(states: seq<State>, actions: seq<Action>, i: nat)
    requires IsRun(states, actions) && i < |states| && FixedParameters(states, i)
    requires states[i].h.metaOk && states[i].d.stage == Some(L2Partial)
    requires states[i].cfg.numChains >= 2 * L1Count(states[i].cfg)
    ensures var d, h, n, l1 := states[i].d, states[i].h, states[i].cfg.numChains, L1Count(states[i].cfg);
      && |h.parents| == l1 && 0 < l1 <= |d.utxos| <= n
      && (|d.utxos| == l1 <==> forall k :: 0 <= k < |h.parents| ==> h.parents[k] in d.utxos)
      && (|d.utxos| == n <==> forall k :: 0 <= k < |h.parents| ==> h.parents[k] !in d.utxos)
  {
    hide IsRun, Born, Replaced, HasWidth, Count, FixedParameters, StoreSized, L1Count;
    RunKeepsEpoch(states, actions, i);
    RunKeepsSized(states, actions, i);
    var d, h := states[i].d, states[i].h;
    WidthsAtLeastTwo(h);
    CountTells(h.parents, h.widths, d.utxos.Keys);
  }

  /**
   So the count-based dispatch of resumePartialL2 takes the right branch after
   any crash, when the process is always started with the same parameters: it
   repeats the fanout when no parent was fanned out, and otherwise starts a chain
   on every UTXO there is: all numChains of them when every parent was fanned
   out, and fewer, some of them parents, when only some were.
   */
  lemma ResumeTakesTheRightBranch(states: seq<State>, actions: seq<Action>, i: nat)
    requires IsRun(states, actions) && i < |actions| && actions[i].Dispatch? && FixedParameters(states, i)
    requires states[i].h.metaOk && states[i].mem == L2Partial
    requires states[i].cfg.numChains >= 2 * L1Count(states[i].cfg)
    ensures var s, s' := states[i], states[i + 1];
      if forall k :: 0 <= k < |s.h.parents| ==> s.h.parents[k] in s.d.utxos then
        s'.phase == InL2 && s'.h.parents == actions[i].order && |s'.h.parents| == L1Count(s.cfg)
      else
        && s'.phase == Running && s'.tasks == s.tasks
        && (|s'.tasks| == s.cfg.numChains <==> forall k :: 0 <= k < |s.h.parents| ==> s.h.parents[k] !in s.d.utxos)
        && L1Count(s.cfg) < |s'.tasks| <= s.cfg.numChains
  {
    hide Inv, Epoch, IsRun, RecordsStaged, L1Count, FixedParameters;
    RunStep(states, actions, i);
    RunKeepsInv(states, actions, i);
    RunKeepsStaged(states, actions, i);
    CountTellsProgress(states, actions, i);
    QueueIsStore(states[i]);
  }

  lemma QueueIsStore(s: State)
    requires Inv(s) && s.phase != Down
    ensures |s.tasks| == |s.d.utxos|
  {
    hide Mirror, WriteAhead, RecordsOwned, SentOwned, TasksFitPhase;
    assert |s.tasks.Keys| == |s.d.utxos.Keys|;
  }
}
