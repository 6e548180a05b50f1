/** Bootstrap stages, as persisted under the bootstrap_stage meta key. */
module Stages {
  datatype Stage = StageNone | L1Done | L2Partial | L2Done | Unknown
}

/**
 internal/store: the three buckets as a value, and what each bbolt Update does
 to it. A txid of None is the empty string.
 */
module StoreSpec {
  import opened Outcomes
  import opened Ledger
  import opened Stages

  datatype PendingBroadcast = PendingBroadcast(
    txid: Option<TxId>,
    spent: seq<UTXO>,
    created: seq<UTXO>,
    stage: Option<Stage>,
    savedAt: Option<nat>)

  /** A value of the pending bucket: gob bytes that decode, or bytes that do not. */
  datatype Stored = Garbled | Encoded(p: PendingBroadcast)

  datatype Durable = Durable(
    utxos: map<OutPoint, UTXO>,
    pending: map<TxId, Stored>,
    stage: Option<Stage>)

  /** What LoadPending returns for one key: an undecodable record keeps only its txid. */
  function Decode(key: TxId, stored: Stored): PendingBroadcast {
    match stored
    case Garbled => PendingBroadcast(Some(key), [], [], None, None)
    case Encoded(p) => if p.txid.None? then p.(txid := Some(key)) else p
  }

  /** A record carries its state transition; replayPending skips one that does not. */
  predicate Replayable(key: TxId, stored: Stored) {
    Decode(key, stored).spent != [] || Decode(key, stored).created != []
  }

  function Ops(us: seq<UTXO>): set<OutPoint> {
    set i | 0 <= i < |us| :: us[i].op
  }

  function Put(m: map<OutPoint, UTXO>, u: UTXO): map<OutPoint, UTXO> {
    if u.value == 0 then m else m[u.op := u]
  }

  function PutAll(m: map<OutPoint, UTXO>, us: seq<UTXO>): map<OutPoint, UTXO> {
    if us == [] then m else Put(PutAll(m, us[..|us| - 1]), us[|us| - 1])
  }

  function SaveUTXO(d: Durable, u: UTXO): Durable {
    d.(utxos := d.utxos[u.op := u])
  }

  function SavePending(d: Durable, key: TxId, p: PendingBroadcast): Durable {
    d.(pending := d.pending[key := Encoded(p)])
  }

  function ClearPending(d: Durable, key: TxId): Durable {
    d.(pending := d.pending - {key})
  }

  function CommitPending(d: Durable, txid: Option<TxId>, spent: seq<UTXO>, created: seq<UTXO>): Durable {
    d.(utxos := PutAll(d.utxos - Ops(spent), created),
       pending := if txid.Some? then d.pending - {txid.value} else d.pending)
  }

  function SetStage(d: Durable, stage: Stage): Durable {
    d.(stage := Some(stage))
  }

  /** The pending record the engine writes before broadcasting tx. */
  function RecordOf(tx: Tx, stage: Stage, savedAt: nat): PendingBroadcast {
    PendingBroadcast(Some(IdOf(tx)), [tx.input], Created(tx), Some(stage), Some(savedAt))
  }

  // ------------------------------------------------------------------ meanings

  /**
   After storing the first i outputs of tx, op holds its output if that is stored,
   and what it held before otherwise.
   */
  lemma {:induction false} StoredPrefix(m: map<OutPoint, UTXO>, tx: Tx, i: nat, op: OutPoint)
    requires i <= |tx.outs|
    ensures var r := PutAll(m, Created(tx)[..i]);
      if CreatedBy(op, tx) && op.vout < i && tx.outs[op.vout] > 0
      then op in r && r[op] == Output(tx, op.vout)
      else (op in r <==> op in m) && (op in m ==> r[op] == m[op])
  {
    if i > 0 {
      StoredPrefix(m, tx, i - 1, op);
      assert Created(tx)[..i][..i - 1] == Created(tx)[..i - 1];
    }
  }

  /** One outpoint after storing every output of tx. */
  lemma StoredAt(m: map<OutPoint, UTXO>, tx: Tx, op: OutPoint)
    ensures op in PutAll(m, Created(tx)) <==> op in m + Spendable(tx)
    ensures op in m + Spendable(tx) ==> PutAll(m, Created(tx))[op] == (m + Spendable(tx))[op]
  {
    assert Created(tx)[..|tx.outs|] == Created(tx);
    StoredPrefix(m, tx, |tx.outs|, op);
  }

  /** Storing every output of tx adds exactly the spendable ones. */
  lemma StoredOutputs(m: map<OutPoint, UTXO>, tx: Tx)
    ensures PutAll(m, Created(tx)) == m + Spendable(tx)
  {
    forall op
      ensures op in PutAll(m, Created(tx)) <==> op in m + Spendable(tx)
      ensures op in m + Spendable(tx) ==> PutAll(m, Created(tx))[op] == (m + Spendable(tx))[op]
    {
      StoredAt(m, tx, op);
    }
  }

  /**
   Committing tx removes its input and its pending record, and stores exactly
   its positive outputs: a zero-value output is never durable.
   */
  lemma CommitIsSpend(d: Durable, tx: Tx)
    ensures CommitPending(d, Some(IdOf(tx)), [tx.input], Created(tx))
      == d.(utxos := (d.utxos - {tx.input.op}) + Spendable(tx), pending := d.pending - {IdOf(tx)})
  {
    assert Ops([tx.input]) == {tx.input.op} by {
      assert [tx.input][0].op in Ops([tx.input]);
    }
    StoredOutputs(d.utxos - {tx.input.op}, tx);
  }

  // ----------------------------------------------------------------- utxo keys

  function Digit(d: nat): char
    requires d < 10
  {
    '0' + d as char
  }

  function Decimal(n: nat): (s: string)
    ensures s != [] && forall i :: 0 <= i < |s| ==> '0' <= s[i] <= '9'
  {
    if n < 10 then [Digit(n)] else Decimal(n / 10) + [Digit(n % 10)]
  }

  function ParseDecimal(s: string): nat
    requires forall i :: 0 <= i < |s| ==> '0' <= s[i] <= '9'
  {
    if s == [] then 0 else 10 * ParseDecimal(s[..|s| - 1]) + (s[|s| - 1] - '0') as nat
  }

  /** utxoKey: "txid:vout". */
  function UtxoKey(txid: string, vout: nat): string {
    txid + ":" + Decimal(vout)
  }

  lemma {:induction false} DecimalRoundTrip(n: nat)
    ensures ParseDecimal(Decimal(n)) == n
  {
    if n >= 10 {
      DecimalRoundTrip(n / 10);
      assert Decimal(n)[..|Decimal(n)| - 1] == Decimal(n / 10);
    }
  }

  /** The last colon of a key ends its txid. */
  lemma KeyShape(txid: string, vout: nat)
    ensures var k := UtxoKey(txid, vout);
      && |k| > |txid| && k[|txid|] == ':' && (forall i :: |txid| < i < |k| ==> k[i] != ':')
      && k[..|txid|] == txid && k[|txid| + 1..] == Decimal(vout)
  {
    var k := UtxoKey(txid, vout);
    forall i | |txid| < i < |k| ensures k[i] != ':' {
      assert k[i] == Decimal(vout)[i - |txid| - 1];
    }
  }

  /** Two outpoints share a bucket key only when they are the same outpoint, whatever the txid holds. */
  lemma UtxoKeyInjective(txid: string, vout: nat, txid': string, vout': nat)
    requires UtxoKey(txid, vout) == UtxoKey(txid', vout')
    ensures txid == txid' && vout == vout'
  {
    hide UtxoKey, Decimal, ParseDecimal;
    KeyShape(txid, vout);
    KeyShape(txid', vout');
    DecimalRoundTrip(vout);
    DecimalRoundTrip(vout');
  }
}

/**
 internal/store as an object. Every mutating method is one bbolt Update: when
 the environment makes it fail it changes nothing and returns false.
 */
module Store {
  import opened Outcomes
  import opened Ledger
  import opened Stages
  import S = StoreSpec

  class Store {
    var utxos: map<OutPoint, UTXO>
    var pending: map<TxId, S.Stored>
    var stage: Option<Stage>

    ghost function State(): S.Durable
      reads this
    {
      S.Durable(utxos, pending, stage)
    }

    constructor ()
      ensures State() == S.Durable(map[], map[], None)
    {
      utxos, pending, stage := map[], map[], None;
    }

    method SaveUTXO(u: UTXO, fails: bool) returns (ok: bool)
      modifies this
      ensures ok == !fails
      ensures State() == if ok then S.SaveUTXO(old(State()), u) else old(State())
    {
      if fails { return false; }
      utxos := utxos[u.op := u];
      return true;
    }

    method SetStage(s: Stage, fails: bool) returns (ok: bool)
      modifies this
      ensures ok == !fails
      ensures State() == if ok then S.SetStage(old(State()), s) else old(State())
    {
      if fails { return false; }
      stage := Some(s);
      return true;
    }

    /** SavedAt defaults to the current time; a record without a txid is refused. */
    method SavePending(p: S.PendingBroadcast, now: nat, fails: bool) returns (ok: bool)
      modifies this
      ensures ok == (p.txid.Some? && !fails)
      ensures State() ==
        if ok then S.SavePending(old(State()), p.txid.value, if p.savedAt.None? then p.(savedAt := Some(now)) else p)
        else old(State())
    {
      if p.txid.None? { return false; }
      var stamped := if p.savedAt.None? then p.(savedAt := Some(now)) else p;
      if fails { return false; }
      pending := pending[p.txid.value := S.Encoded(stamped)];
      return true;
    }

    method ClearPending(key: TxId, fails: bool) returns (ok: bool)
      modifies this
      ensures ok == !fails
      ensures State() == if ok then S.ClearPending(old(State()), key) else old(State())
    {
      if fails { return false; }
      pending := pending - {key};
      return true;
    }

    method CommitPending(txid: Option<TxId>, spent: seq<UTXO>, created: seq<UTXO>, fails: bool) returns (ok: bool)
      modifies this
      ensures ok == !fails
      ensures State() == if ok then S.CommitPending(old(State()), txid, spent, created) else old(State())
    {
      if fails { return false; }
      var bucket := utxos;
      for i := 0 to |spent|
        invariant bucket == utxos - S.Ops(spent[..i])
      {
        assert S.Ops(spent[..i + 1]) == S.Ops(spent[..i]) + {spent[i].op} by { OpsSnoc(spent, i); }
        bucket := bucket - {spent[i].op};
      }
      assert spent[..|spent|] == spent;
      ghost var afterDeletes := bucket;
      for i := 0 to |created|
        invariant bucket == S.PutAll(afterDeletes, created[..i])
      {
        assert created[..i + 1][..i] == created[..i];
        if created[i].value != 0 {
          bucket := bucket[created[i].op := created[i]];
        }
      }
      assert created[..|created|] == created;
      utxos := bucket;
      if txid.Some? {
        pending := pending - {txid.value};
      }
      return true;
    }
  }

  lemma OpsSnoc(us: seq<UTXO>, i: nat)
    requires i < |us|
    ensures S.Ops(us[..i + 1]) == S.Ops(us[..i]) + {us[i].op}
  {
    var a, b := S.Ops(us[..i + 1]), S.Ops(us[..i]);
    forall op ensures op in a <==> op in b + {us[i].op} {
      if op in a {
        var k :| 0 <= k < i + 1 && us[..i + 1][k].op == op;
        if k < i { assert us[..i][k].op == op; }
      }
      if op in b {
        var k :| 0 <= k < i && us[..i][k].op == op;
        assert us[..i + 1][k].op == op;
      }
      assert us[..i + 1][i].op == us[i].op;
    }
  }
}
