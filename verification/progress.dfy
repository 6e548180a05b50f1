/**
 Progress of the L2 fanout. While it runs, and for as long as the persisted
 stage is l2_partial, the number of durable UTXOs tells how many parents have
 been fanned out, across any crashes and replays.
 */
module Progress {
  import opened Outcomes
  import opened Ledger
  import opened Stages
  import opened StoreSpec
  import opened TxBuilder
  import opened Replay
  import opened Widths
  import opened Tally
  import opened Engine
  import opened Safety
  import opened Built
  import opened StageOrder

  /** The L2 fanout recorded in the history is the one in progress. */
  predicate InEpoch(s: State) {
    s.phase == InL2 || (s.h.metaOk && s.d.stage == Some(L2Partial))
  }

  /** Its parents are distinct, none was created by another, and their widths share out the chains. */
  ghost predicate Shape(h: History) {
    && |h.parents| == |h.widths| && h.parents != [] && Distinct(h.parents)
    && h.chains > 0 && h.widths == L2Widths(h.chains, |h.parents|) && Sum(h.widths) == h.chains
    && (forall i :: 0 <= i < |h.parents| ==> Born(h.seeds, h.committed, h.parents[i]))
    && (forall i :: 0 <= i < |h.parents| && h.parents[i].txid.Spend? ==> h.parents[i].txid.input !in h.parents)
  }

  /** The parent at i has been replaced by all its outputs, as many as its width. */
  ghost predicate Replaced(utxos: Utxos, h: History, i: nat)
    requires i < |h.parents| && |h.parents| == |h.widths|
  {
    var p := h.parents[i];
    && p in h.committed && |h.committed[p].outs| == h.widths[i]
    && forall j :: 0 <= j < h.widths[i] ==> OutPoint(IdOf(h.committed[p]), j) in utxos
  }

  /** What the store holds of the fanout. */
  ghost predicate Accounted(d: Durable, h: History)
    requires |h.parents| == |h.widths|
  {
    && |d.utxos| == Count(h.parents, h.widths, d.utxos.Keys)
    && (forall i :: 0 <= i < |h.parents| && h.parents[i] !in d.utxos ==> Replaced(d.utxos, h, i))
    && (forall key :: key in Replayables(d) ==> key.Spend? && HasWidth(h.parents, h.widths, key.input, |key.outs|))
  }

  predicate FitsFanout(t: Task, op: OutPoint, h: History)
    requires |h.parents| == |h.widths|
  {
    match t
    case Parent(_, n) => HasWidth(h.parents, h.widths, op, n)
    case Produced(_) => op !in h.parents
    case Queued(_) => op in h.parents
    case Lost(_) => op in h.parents
    case Trying(_, tx) => HasWidth(h.parents, h.widths, op, |tx.outs|)
    case Saved(_, tx) => HasWidth(h.parents, h.widths, op, |tx.outs|)
    case ToCommit(_, tx) => HasWidth(h.parents, h.widths, op, |tx.outs|)
    case ToClear(_, tx) => HasWidth(h.parents, h.widths, op, |tx.outs|)
    case ChainTop(_) => true
  }

  ghost predicate Epoch(s: State) {
    InEpoch(s) ==>
      && Shape(s.h)
      && Accounted(s.d, s.h)
      && (s.phase == InL2 ==>
           && s.cfg.numChains == s.h.chains
           && forall op :: op in s.tasks ==> FitsFanout(s.tasks[op], op, s.h))
  }

  // ----------------------------------------------------------- spending a parent

  lemma {:induction false} OutputSetSize(id: TxId, n: nat)
    ensures |set i | 0 <= i < n :: OutPoint(id, i)| == n
  {
    if n > 0 {
      OutputSetSize(id, n - 1);
      assert (set i | 0 <= i < n :: OutPoint(id, i)) ==
        (set i | 0 <= i < n - 1 :: OutPoint(id, i)) + {OutPoint(id, n - 1)};
    }
  }

  lemma SpendableSize(tx: Tx)
    requires forall i :: 0 <= i < |tx.outs| ==> tx.outs[i] > 0
    ensures |Spendable(tx).Keys| == |tx.outs|
    ensures forall i :: 0 <= i < |tx.outs| ==> OutPoint(IdOf(tx), i) in Spendable(tx)
  {
    OutputSetSize(IdOf(tx), |tx.outs|);
    assert Spendable(tx).Keys == set i | 0 <= i < |tx.outs| :: OutPoint(IdOf(tx), i);
  }

  /** The number of UTXOs after a spend into only positive outputs. */
  lemma SizeAfterSpend(utxos: Utxos, tx: Tx)
    requires tx.input.op in utxos && (forall x :: x in Spendable(tx) ==> x !in utxos)
    requires forall i :: 0 <= i < |tx.outs| ==> tx.outs[i] > 0
    ensures |(utxos - {tx.input.op}) + Spendable(tx)| == |utxos| - 1 + |tx.outs|
  {
    SpendableSize(tx);
    hide Spendable;
    var rest := utxos - {tx.input.op};
    assert rest.Keys == utxos.Keys - {tx.input.op};
    assert (rest + Spendable(tx)).Keys == rest.Keys + Spendable(tx).Keys;
  }

  /** Everything a fanout of one parent needs from the state before it. */
  ghost predicate ReadyToSpend(d: Durable, h: History, tx: Tx, k: nat) {
    && Shape(h) && Accounted(d, h) && Mirror(d.utxos, h.seeds, h.committed)
    && k < |h.parents| && h.parents[k] == tx.input.op && h.widths[k] == |tx.outs|
    && tx.input.op in d.utxos && d.utxos[tx.input.op] == tx.input
    && (forall i :: 0 <= i < |tx.outs| ==> tx.outs[i] > 0)
  }

  ghost predicate SpendsIt(d: Durable, h: History, d': Durable, h': History, tx: Tx) {
    && d'.utxos == (d.utxos - {tx.input.op}) + Spendable(tx)
    && d'.pending == d.pending - {IdOf(tx)}
    && h'.parents == h.parents && h'.widths == h.widths && h'.chains == h.chains && h'.seeds == h.seeds
    && h'.committed == h.committed[tx.input.op := tx]
  }

  /** Only the spent parent leaves the store. */
  lemma OtherParentsStay(d: Durable, h: History, d': Durable, h': History, tx: Tx, k: nat, i: nat)
    requires ReadyToSpend(d, h, tx, k) && SpendsIt(d, h, d', h', tx) && i < |h.parents| && i != k
    ensures h.parents[i] in d'.utxos <==> h.parents[i] in d.utxos
    ensures Born(h'.seeds, h'.committed, h.parents[i])
  {
    hide Accounted, Mirror;
    var p := h.parents[i];
    assert p != tx.input.op;
    if p.txid == IdOf(tx) { OutputsAreFresh(d.utxos, h.seeds, h.committed, tx, p); }
    DurableNotSpent(d.utxos, h.seeds, h.committed, tx.input.op);
  }

  lemma DurableNotSpent(utxos: Utxos, seeds: Utxos, committed: Spends, op: OutPoint)
    requires Mirror(utxos, seeds, committed) && op in utxos
    ensures op !in committed && Born(seeds, committed, op)
  {
  }

  lemma SpendKeepsCount(d: Durable, h: History, d': Durable, h': History, tx: Tx, k: nat)
    requires ReadyToSpend(d, h, tx, k) && SpendsIt(d, h, d', h', tx)
    ensures |h.parents| == |h.widths| && |d'.utxos| == Count(h'.parents, h'.widths, d'.utxos.Keys)
  {
    hide Mirror, Count, Born, Shape, Accounted, Spendable, Replaced;
    ReadyCount(d, h, tx, k);
    forall x | x in Spendable(tx) ensures x !in d.utxos { OutputsAreFresh(d.utxos, h.seeds, h.committed, tx, x); }
    SizeAfterSpend(d.utxos, tx);
    forall i | 0 <= i < |h.parents| && i != k ensures h.parents[i] in d.utxos.Keys <==> h.parents[i] in d'.utxos.Keys {
      OtherParentsStay(d, h, d', h', tx, k, i);
    }
    assert tx.input.op !in Spendable(tx);
    CountReplace(h.parents, h.widths, d.utxos.Keys, d'.utxos.Keys, k);
  }

  lemma ReadyCount(d: Durable, h: History, tx: Tx, k: nat)
    requires ReadyToSpend(d, h, tx, k)
    ensures |h.parents| == |h.widths| && Distinct(h.parents) && |d.utxos| == Count(h.parents, h.widths, d.utxos.Keys)
  {
    hide Mirror, Count, Born, Replaced;
  }

  lemma SpendKeepsReplaced(d: Durable, h: History, d': Durable, h': History, tx: Tx, k: nat, i: nat)
    requires ReadyToSpend(d, h, tx, k) && SpendsIt(d, h, d', h', tx) && i < |h.parents| && h.parents[i] !in d'.utxos
    ensures Replaced(d'.utxos, h', i)
  {
    hide Mirror, Count, Born;
    if i == k {
      SpendableSize(tx);
    } else {
      OtherParentsStay(d, h, d', h', tx, k, i);
      var p := h.parents[i];
      assert Replaced(d.utxos, h, i);
      CommittedIsBorn(d.utxos, h.seeds, h.committed, p);
      forall j | 0 <= j < h.widths[i] ensures OutPoint(IdOf(h.committed[p]), j) in d'.utxos {
        assert OutPoint(IdOf(h.committed[p]), j) != tx.input.op by { assert h.parents[i] in h.parents; }
      }
    }
  }

  lemma SpendKeepsShape(d: Durable, h: History, d': Durable, h': History, tx: Tx, k: nat)
    requires ReadyToSpend(d, h, tx, k) && SpendsIt(d, h, d', h', tx)
    ensures Shape(h')
  {
    hide Mirror, Accounted, Born, Spendable;
    forall i | 0 <= i < |h.parents| ensures Born(h'.seeds, h'.committed, h'.parents[i]) {
      if i != k { OtherParentsStay(d, h, d', h', tx, k, i); } else { SpentIsBorn(d.utxos, h.seeds, h.committed, tx); }
    }
  }

  lemma SpendKeepsEpoch(d: Durable, h: History, d': Durable, h': History, tx: Tx, k: nat)
    requires ReadyToSpend(d, h, tx, k) && SpendsIt(d, h, d', h', tx)
    ensures Shape(h') && Accounted(d', h')
  {
    hide Mirror, Count, Shape, Replaced, Spendable, HasWidth, Replayables;
    SpendKeepsCount(d, h, d', h', tx, k);
    SpendKeepsShape(d, h, d', h', tx, k);
    forall i | 0 <= i < |h.parents| && h.parents[i] !in d'.utxos ensures Replaced(d'.utxos, h', i) {
      SpendKeepsReplaced(d, h, d', h', tx, k, i);
    }
    FewerRecords(d, d', IdOf(tx));
  }

  lemma FewerRecords(d: Durable, d': Durable, key: TxId)
    requires d'.pending == d.pending - {key}
    ensures Replayables(d') <= Replayables(d)
  {
  }

  lemma SpentIsBorn(utxos: Utxos, seeds: Utxos, committed: Spends, tx: Tx)
    requires Mirror(utxos, seeds, committed) && tx.input.op in utxos
    ensures Born(seeds, committed[tx.input.op := tx], tx.input.op)
  {
    DurableNotSpent(utxos, seeds, committed, tx.input.op);
  }

  // ------------------------------------------------------------------ the steps

  /** A step that touches neither the UTXOs nor the records of the fanout. */
  ghost predicate SameFanout(s: State, s': State) {
    && s'.d.utxos == s.d.utxos && s'.d.pending == s.d.pending
    && s'.h.parents == s.h.parents && s'.h.widths == s.h.widths && s'.h.chains == s.h.chains
    && s'.h.seeds == s.h.seeds && s'.h.committed == s.h.committed
    && (InEpoch(s') ==> InEpoch(s))
    && (s'.phase == InL2 ==> s.phase == InL2 && s'.cfg == s.cfg)
  }

  ghost predicate TasksFit(s: State)
    requires |s.h.parents| == |s.h.widths|
  {
    forall op :: op in s.tasks ==> FitsFanout(s.tasks[op], op, s.h)
  }

  lemma SameFanoutEpoch(s: State, s': State)
    requires Epoch(s) && SameFanout(s, s')
    requires s'.phase == InL2 ==> |s'.h.parents| == |s'.h.widths| && TasksFit(s')
    ensures Epoch(s')
  {
    hide Count, Born, HasWidth;
    assert Replayables(s'.d) == Replayables(s.d);
    if InEpoch(s') {
      assert forall i :: 0 <= i < |s.h.parents| ==> (Replaced(s.d.utxos, s.h, i) <==> Replaced(s'.d.utxos, s'.h, i));
    }
  }

  /** In an L2 epoch, whatever is being attempted is an L2 fanout. */
  lemma AttemptIsL2(s: State, op: OutPoint)
    requires Inv(s) && Staged(s) && InEpoch(s) && op in s.tasks
    requires s.tasks[op].Trying? || s.tasks[op].Saved? || s.tasks[op].ToCommit? || s.tasks[op].ToClear?
    ensures s.phase == InL2 && s.tasks[op].kind == L2
  {
    hide Inv, RecordsStaged, ToMarkStaged;
    AttemptPhase(s, op);
  }

  lemma OneTaskFits(s: State, s': State, op: OutPoint, t: Task)
    requires Epoch(s) && SameFanout(s, s') && op in s.tasks && s'.tasks == s.tasks[op := t]
    requires |s.h.parents| == |s.h.widths| ==> FitsFanout(s.tasks[op], op, s.h) ==> FitsFanout(t, op, s.h)
    ensures Epoch(s')
  {
    hide Shape, Accounted, FitsFanout;
    if s'.phase == InL2 {
      assert s.phase == InL2;
      assert |s.h.parents| == |s.h.widths| by { ShapeSizes(s.h); }
      assert TasksFit(s) && TasksFit(s') by {
        forall x | x in s'.tasks ensures FitsFanout(s'.tasks[x], x, s'.h) { SameFits(s'.tasks[x], x, s.h, s'.h); }
      }
    }
    SameFanoutEpoch(s, s');
  }

  lemma ShapeSizes(h: History)
    requires Shape(h)
    ensures |h.parents| == |h.widths|
  {
  }

  lemma SameFits(t: Task, op: OutPoint, h: History, h': History)
    requires |h.parents| == |h.widths| && h'.parents == h.parents && h'.widths == h.widths
    ensures FitsFanout(t, op, h) <==> FitsFanout(t, op, h')
  {
  }

  lemma BuildL2Epoch(s: State, op: OutPoint)
    requires Epoch(s) && op in s.tasks && s.tasks[op].Parent?
    ensures Epoch(DoBuildL2(s, op))
  {
    hide Epoch, Shape, Accounted, BuildFanout, SoundIn;
    var s' := DoBuildL2(s, op);
    if s'.tasks[op].Trying? { FanoutIsSound(s.tasks[op].u, s.tasks[op].n, s.cfg.mode, L2); }
    OneTaskFits(s, s', op, s'.tasks[op]);
  }

  lemma LocalEpoch(s: State, op: OutPoint, kind: Kind, accepted: bool)
    requires Epoch(s) && op in s.tasks && s.tasks[op].Active() && !s.tasks[op].ChainTop?
    ensures Epoch(Drop(s, op)) && Epoch(GiveUp(s, op, kind))
    ensures s.tasks[op].Saved? ==> Epoch(DoReply(s, op, accepted))
  {
    hide Epoch, Shape, Accounted;
    OneTaskFits(s, Drop(s, op), op, Drop(s, op).tasks[op]);
    OneTaskFits(s, GiveUp(s, op, kind), op, GiveUp(s, op, kind).tasks[op]);
    if s.tasks[op].Saved? { OneTaskFits(s, DoReply(s, op, accepted), op, DoReply(s, op, accepted).tasks[op]); }
  }
}
