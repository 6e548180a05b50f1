/**
 Recovery of pending broadcasts (internal/engine/persist.go): the write-ahead
 condition on the durable state, the state that replaying reaches, and the
 proof that neither the order of the records nor a crash during recovery
 changes it.
 */
module Replay {
  import opened Outcomes
  import opened Ledger
  import opened Stages
  import opened StoreSpec

  /** The keys of the records that replayPending applies. */
  function Replayables(d: Durable): set<TxId> {
    set key | key in d.pending && Replayable(key, d.pending[key])
  }

  /** A record written by the engine: one input, and the outputs its txid commits to. */
  predicate Faithful(key: TxId, p: PendingBroadcast) {
    && key.Spend?
    && p.txid == Some(key)
    && |p.spent| == 1
    && p.spent[0].op == key.input
    && p.created == Created(Tx(p.spent[0], key.outs))
  }

  /** The transaction of a faithful record. */
  function TxOf(key: TxId, p: PendingBroadcast): Tx
    requires Faithful(key, p)
  {
    Tx(p.spent[0], key.outs)
  }

  /**
   The write-ahead condition: every replayable record's input is still durable,
   none of its outputs is durable yet, and no two records spend one outpoint.
   */
  ghost predicate WriteAhead(d: Durable) {
    && (forall key :: key in Replayables(d) ==>
         && Faithful(key, Decode(key, d.pending[key]))
         && key.input in d.utxos
         && d.utxos[key.input] == Decode(key, d.pending[key]).spent[0])
    && (forall op :: op in d.utxos ==> op.txid !in Replayables(d))
    && (forall key, key' :: key in Replayables(d) && key' in Replayables(d) && key != key' ==>
         key.Spend? && key'.Spend? && key.input != key'.input)
  }

  /** CommitPending as replayPending calls it for one record. */
  function ReplayOne(d: Durable, key: TxId): Durable
    requires key in d.pending
  {
    var p := Decode(key, d.pending[key]);
    CommitPending(d, p.txid, p.spent, p.created)
  }

  /** What op holds once every record is applied: an order-free description. */
  ghost predicate Recovered(d: Durable, op: OutPoint, u: UTXO) {
    if op.txid in Replayables(d) then
      op.txid.Spend? && op.vout < |op.txid.outs| && op.txid.outs[op.vout] > 0 && u == UTXO(op, op.txid.outs[op.vout], 0)
    else
      op in d.utxos && d.utxos[op] == u && !exists key :: key in Replayables(d) && key.Spend? && key.input == op
  }

  /** utxos holds exactly what recovery of d reaches. */
  ghost predicate IsRecoveryOf(utxos: map<OutPoint, UTXO>, d: Durable) {
    forall op, u :: (op in utxos && utxos[op] == u) <==> Recovered(d, op, u)
  }

  /** Applying a faithful record spends its input into its positive outputs and removes it. */
  lemma ReplayOneIsSpend(d: Durable, key: TxId)
    requires WriteAhead(d) && key in Replayables(d)
    ensures ReplayOne(d, key)
      == d.(utxos := (d.utxos - {key.input}) + Spendable(TxOf(key, Decode(key, d.pending[key]))),
        pending := d.pending - {key})
    ensures Replayables(ReplayOne(d, key)) == Replayables(d) - {key}
  {
    var p := Decode(key, d.pending[key]);
    assert p.spent == [p.spent[0]];
    CommitIsSpend(d, TxOf(key, p));
  }

  lemma ReplayOneKeepsWriteAhead(d: Durable, key: TxId)
    requires WriteAhead(d) && key in Replayables(d)
    ensures WriteAhead(ReplayOne(d, key))
  {
    ReplayOneIsSpend(d, key);
  }

  /** Applying one record leaves the state that recovery reaches as it was. */
  lemma ReplayOneKeepsRecovered(d: Durable, key: TxId, op: OutPoint, u: UTXO)
    requires WriteAhead(d) && key in Replayables(d)
    ensures Recovered(ReplayOne(d, key), op, u) <==> Recovered(d, op, u)
  {
    ReplayOneIsSpend(d, key);
    var d' := ReplayOne(d, key);
    if op.txid == key {
      assert forall key' :: key' in Replayables(d') ==> key'.input in d.utxos;
    } else if op.txid !in Replayables(d) {
      assert op in d'.utxos <==> op in d.utxos && op != key.input;
      if key' :| key' in Replayables(d) && key'.Spend? && key'.input == op {
        assert key' == key || key' in Replayables(d');
      }
    }
  }

  /** With no record left to apply, recovery has reached its state. */
  lemma RecoveredAtRest(d: Durable)
    requires Replayables(d) == {}
    ensures IsRecoveryOf(d.utxos, d)
  {
  }

  /** Recovery reaches at most one utxos map. */
  lemma RecoveryIsUnique(a: map<OutPoint, UTXO>, b: map<OutPoint, UTXO>, d: Durable)
    requires IsRecoveryOf(a, d) && IsRecoveryOf(b, d)
    ensures a == b
  {
    forall op ensures op in a <==> op in b {
      if op in a { assert Recovered(d, op, a[op]); }
      if op in b { assert Recovered(d, op, b[op]); }
    }
    forall op | op in a ensures a[op] == b[op] { assert Recovered(d, op, a[op]); }
  }

  // ---------------------------------------------- recovery with crashes anywhere

  /**
   One thing that can happen to the durable state between the crash and a
   completed recovery: some record is applied, a stage is written, or the
   process dies and restarts, which changes nothing durable.
   */
  datatype RecoveryStep = Apply(key: TxId) | WriteStage(stage: Stage) | CrashAndRestart

  predicate CanRecover(d: Durable, step: RecoveryStep) {
    step.Apply? ==> step.key in Replayables(d)
  }

  function Recover(d: Durable, step: RecoveryStep): Durable
    requires CanRecover(d, step)
  {
    match step
    case Apply(key) => ReplayOne(d, key)
    case WriteStage(stage) => SetStage(d, stage)
    case CrashAndRestart => d
  }

  predicate IsRecovery(d: Durable, steps: seq<RecoveryStep>, end: Durable)
    decreases |steps|
  {
    if steps == [] then d == end
    else CanRecover(d, steps[0]) && IsRecovery(Recover(d, steps[0]), steps[1..], end)
  }

  /**
   Whatever the order of the records and wherever recovery is interrupted and
   restarted, the write-ahead condition holds throughout and the target of
   recovery never moves.
   */
  lemma {:induction false} RecoveryKeepsTarget(d: Durable, steps: seq<RecoveryStep>, end: Durable)
    requires WriteAhead(d) && IsRecovery(d, steps, end)
    ensures WriteAhead(end)
    ensures forall op, u :: Recovered(end, op, u) <==> Recovered(d, op, u)
    ensures forall key :: key in d.pending && key !in Replayables(d) ==>
      key in end.pending && end.pending[key] == d.pending[key]
    decreases |steps|
  {
    if steps != [] {
      var d' := Recover(d, steps[0]);
      match steps[0] {
        case Apply(key) =>
          ReplayOneKeepsWriteAhead(d, key);
          ReplayOneIsSpend(d, key);
          forall op, u ensures Recovered(d', op, u) <==> Recovered(d, op, u) {
            ReplayOneKeepsRecovered(d, key, op, u);
          }
        case WriteStage(stage) =>
          assert Replayables(d') == Replayables(d);
        case CrashAndRestart =>
      }
      RecoveryKeepsTarget(d', steps[1..], end);
    }
  }

  /** Recovery can always be completed: applying the records one after the other leaves none. */
  lemma {:induction false} RecoveryExists(d: Durable) returns (steps: seq<RecoveryStep>, end: Durable)
    requires WriteAhead(d)
    ensures IsRecovery(d, steps, end) && Replayables(end) == {}
    decreases Replayables(d)
  {
    hide WriteAhead;
    if Replayables(d) == {} {
      steps, end := [], d;
    } else {
      var key :| key in Replayables(d);
      ReplayOneKeepsWriteAhead(d, key);
      ReplayOneIsSpend(d, key);
      var d' := ReplayOne(d, key);
      assert Replayables(d') == Replayables(d) - {key};
      var rest;
      rest, end := RecoveryExists(d');
      steps := [Apply(key)] + rest;
      assert steps[1..] == rest;
    }
  }

  /**
   Recovery is confluent: any two recoveries of one state that leave no record
   to apply end with the same UTXOs, however they were ordered and interrupted.
   */
  lemma RecoveryIsConfluent(d: Durable, steps: seq<RecoveryStep>, end: Durable, steps': seq<RecoveryStep>,
    end': Durable)
    requires WriteAhead(d)
    requires IsRecovery(d, steps, end) && Replayables(end) == {}
    requires IsRecovery(d, steps', end') && Replayables(end') == {}
    ensures end.utxos == end'.utxos
    ensures IsRecoveryOf(end.utxos, d)
  {
    RecoveryKeepsTarget(d, steps, end);
    RecoveryKeepsTarget(d, steps', end');
    RecoveredAtRest(end);
    RecoveredAtRest(end');
    forall op, u ensures (op in end.utxos && end.utxos[op] == u) <==> Recovered(d, op, u) {
      assert Recovered(end, op, u) <==> Recovered(d, op, u);
    }
    forall op, u ensures (op in end'.utxos && end'.utxos[op] == u) <==> Recovered(d, op, u) {
      assert Recovered(end', op, u) <==> Recovered(d, op, u);
    }
    RecoveryIsUnique(end.utxos, end'.utxos, d);
  }
}
