/** Outcome types shared by every component. */
module Outcomes {
  datatype Option<+T> = None | Some(value: T)

  datatype Result<+T, +E> = Ok(value: T) | Err(error: E)
}

/**
 Outpoints, unspent outputs and transactions.

 A transaction id is an inductive value over what the transaction spends and
 the values it creates. Two transactions with the same id therefore spend the
 same outpoint and create the same values, and no output can be an ancestor of
 its own transaction.
 */
module Ledger {
  datatype TxId = External(id: nat) | Spend(input: OutPoint, outs: seq<nat>)

  datatype OutPoint = OutPoint(txid: TxId, vout: nat)

  /** txbuilder.UTXO; height 0 means unconfirmed. */
  datatype UTXO = UTXO(op: OutPoint, value: nat, height: int)

  /** A built transaction: every transaction the engine makes has one input. */
  datatype Tx = Tx(input: UTXO, outs: seq<nat>)

  function IdOf(tx: Tx): TxId {
    Spend(tx.input.op, tx.outs)
  }

  /** The i-th output of tx as an unconfirmed UTXO. */
  function Output(tx: Tx, i: nat): UTXO
    requires i < |tx.outs|
  {
    UTXO(OutPoint(IdOf(tx), i), tx.outs[i], 0)
  }

  /** Every output of tx in vout order, including zero-value ones. */
  function Created(tx: Tx): (us: seq<UTXO>)
    ensures |us| == |tx.outs|
    ensures forall i :: 0 <= i < |us| ==> us[i] == Output(tx, i)
  {
    seq(|tx.outs|, i requires 0 <= i < |tx.outs| => Output(tx, i))
  }

  /** The outputs of tx that can still be spent: those with a positive value. */
  function Spendable(tx: Tx): (m: map<OutPoint, UTXO>)
    ensures forall op :: op in m <==> CreatedBy(op, tx) && tx.outs[op.vout] > 0
    ensures forall op :: op in m ==> CreatedBy(op, tx) && m[op] == Output(tx, op.vout)
  {
    map i: nat | i < |tx.outs| && tx.outs[i] > 0 :: OutPoint(IdOf(tx), i) := Output(tx, i)
  }

  predicate CreatedBy(op: OutPoint, tx: Tx) {
    op.txid == IdOf(tx) && op.vout < |tx.outs|
  }

  /** No two of them are at one outpoint. */
  predicate DistinctOps(us: seq<UTXO>) {
    forall i, j :: 0 <= i < j < |us| ==> us[i].op != us[j].op
  }

  function Sum(values: seq<nat>): nat {
    if values == [] then 0 else values[0] + Sum(values[1..])
  }

  lemma {:induction false} SumOfCopies(n: nat, v: nat)
    ensures Sum(seq(n, _ => v)) == n * v
  {
    if n > 0 {
      assert seq(n, _ => v)[1..] == seq((n - 1) as nat, _ => v);
      SumOfCopies(n - 1, v);
    }
  }
}
