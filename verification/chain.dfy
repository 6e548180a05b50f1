/**
 One chain from its first UTXO to its end (internal/engine/chain.go), and the
 retried broadcast of a fanout (internal/engine/bootstrap.go), against any
 sequence of store failures, broadcaster replies and cancellations.
 */
module Chain {
  import opened Outcomes
  import opened Ledger
  import opened Stages
  import opened StoreSpec
  import opened TxBuilder
  import opened Widths
  import St = Store

  type Utxos = map<OutPoint, UTXO>
  type Records = map<TxId, Stored>

  /** The sustain transaction of u. */
  function HopTx(u: UTXO, fee: nat): Tx {
    Tx(u, [if u.value > fee then u.value - fee else 0])
  }

  function Next(u: UTXO, fee: nat): UTXO {
    Output(HopTx(u, fee), 0)
  }

  /** The chain's UTXO after k hops. */
  function Tip(u: UTXO, fee: nat, k: nat): UTXO {
    if k == 0 then u else Next(Tip(u, fee, k - 1), fee)
  }

  /** Each hop pays the fee, the last one whatever is left. */
  lemma {:induction false} TipValue(u: UTXO, fee: nat, k: nat)
    ensures Tip(u, fee, k).value == if u.value > k * fee then u.value - k * fee else 0
  {
    if k > 0 {
      TipValue(u, fee, k - 1);
      assert k * fee == (k - 1) * fee + fee;
    }
  }

  lemma TimesKeepsOrder(a: int, b: int, fee: nat)
    requires a <= b
    ensures a * fee <= b * fee
  {
  }

  /** The value is used up after exactly ceil(value / fee) hops, and not before. */
  lemma HopsToTheEnd(u: UTXO, fee: nat, k: nat)
    requires fee > 0
    ensures Tip(u, fee, k).value > 0 <==> k < CeilDiv(u.value, fee)
  {
    hide Tip, CeilDiv;
    TipValue(u, fee, k);
    CeilDivIsLeast(u.value, fee);
    var c := CeilDiv(u.value, fee);
    if k < c { TimesKeepsOrder(k, c - 1, fee); } else { TimesKeepsOrder(c, k, fee); }
  }

  function Depth(op: OutPoint): nat {
    if op.txid.External? then 0 else 1 + Depth(op.txid.input)
  }

  lemma {:induction false} TipDepth(u: UTXO, fee: nat, k: nat)
    ensures Depth(Tip(u, fee, k).op) == Depth(u.op) + k
  {
    if k > 0 { TipDepth(u, fee, k - 1); }
  }

  /** A chain never comes back to an outpoint. */
  lemma TipsDiffer(u: UTXO, fee: nat, j: nat, k: nat)
    requires j != k
    ensures Tip(u, fee, j).op != Tip(u, fee, k).op
  {
    hide Tip, Depth;
    TipDepth(u, fee, j);
    TipDepth(u, fee, k);
  }

  /** The utxos bucket after the hop of t is committed. */
  function Hop(m: Utxos, t: UTXO, fee: nat): Utxos {
    (m - {t.op}) + Spendable(HopTx(t, fee))
  }

  lemma HopAt(m: Utxos, t: UTXO, fee: nat, op: OutPoint)
    ensures var n, r := Next(t, fee), Hop(m, t, fee);
      if op == n.op && n.value > 0 then op in r && r[op] == n
      else (op in r <==> op in m && op != t.op) && (op in r ==> r[op] == m[op])
  {
    hide Spendable;
    assert CreatedBy(op, HopTx(t, fee)) <==> op == Next(t, fee).op;
  }

  /** The utxos bucket after k hops. */
  function After(m: Utxos, u: UTXO, fee: nat, k: nat): Utxos {
    if k == 0 then m else Hop(After(m, u, fee, k - 1), Tip(u, fee, k - 1), fee)
  }

  /** All earlier tips are gone. */
  lemma {:induction false} SpentTips(m: Utxos, u: UTXO, fee: nat, k: nat, j: nat)
    requires j < k
    ensures Tip(u, fee, j).op !in After(m, u, fee, k)
  {
    hide Hop, Next;
    TipsDiffer(u, fee, j, k);
    HopAt(After(m, u, fee, k - 1), Tip(u, fee, k - 1), fee, Tip(u, fee, j).op);
    if j < k - 1 { SpentTips(m, u, fee, k - 1, j); }
  }

  /** The current tip is there, unless its value is used up: an output of value zero is never stored. */
  lemma CurrentTip(m: Utxos, u: UTXO, fee: nat, k: nat)
    requires k > 0
    ensures var t, r := Tip(u, fee, k), After(m, u, fee, k);
      if t.value > 0 then t.op in r && r[t.op] == t else (t.op in r <==> t.op in m)
  {
    hide Hop, Next;
    HopAt(After(m, u, fee, k - 1), Tip(u, fee, k - 1), fee, Tip(u, fee, k).op);
    forall j | 0 <= j <= k - 1 ensures Tip(u, fee, k).op != Tip(u, fee, j).op { TipsDiffer(u, fee, j, k); }
    OtherOutpoints(m, u, fee, k - 1, Tip(u, fee, k).op);
  }

  /** A chain touches nothing but its own tips. */
  lemma {:induction false} OtherOutpoints(m: Utxos, u: UTXO, fee: nat, k: nat, op: OutPoint)
    requires forall j :: 0 <= j <= k ==> op != Tip(u, fee, j).op
    ensures op in After(m, u, fee, k) <==> op in m
    ensures op in m ==> After(m, u, fee, k)[op] == m[op]
  {
    hide Hop, Next;
    if k > 0 {
      OtherOutpoints(m, u, fee, k - 1, op);
      HopAt(After(m, u, fee, k - 1), Tip(u, fee, k - 1), fee, op);
      assert op != Tip(u, fee, k).op && op != Tip(u, fee, k - 1).op;
    }
  }

  // ------------------------------------------------------------------ the chain

  /** What the environment does to one turn of the loop. */
  datatype Tick = Tick(
    saveFails: bool, accepted: bool, clearFails: bool, commitFails: bool, cancelled: bool, now: nat)
  {
    predicate Clean() { !saveFails && accepted && !commitFails && !cancelled }

    /** Nothing but an error from the broadcaster keeps this turn from its commit. */
    predicate Unhindered() { !saveFails && !cancelled && (accepted ==> !commitFails) }
  }

  datatype Ending = Cancelled | SaveError | CommitError | Exhausted

  predicate AllClean(ticks: seq<Tick>) {
    forall i :: 0 <= i < |ticks| ==> ticks[i].Clean()
  }

  predicate AllUnhindered(ticks: seq<Tick>) {
    forall i :: 0 <= i < |ticks| ==> ticks[i].Unhindered()
  }

  /** How many of the broadcasts are accepted. */
  function Accepted(ticks: seq<Tick>): nat {
    if ticks == [] then 0
    else Accepted(ticks[..|ticks| - 1]) + if ticks[|ticks| - 1].accepted then 1 else 0
  }

  lemma {:induction false} AcceptedPrefix(ticks: seq<Tick>, i: nat)
    requires i <= |ticks|
    ensures Accepted(ticks[..i]) <= Accepted(ticks)
    ensures AllClean(ticks) ==> Accepted(ticks) == |ticks| && AllUnhindered(ticks)
    decreases |ticks|, i
  {
    if i < |ticks| {
      var front := ticks[..|ticks| - 1];
      AcceptedPrefix(front, i);
      assert front[..i] == ticks[..i];
    } else {
      assert ticks[..i] == ticks;
      if i > 0 { AcceptedPrefix(ticks, 0); }
    }
  }

  lemma AcceptedNext(ticks: seq<Tick>, i: nat)
    requires i < |ticks|
    ensures Accepted(ticks[..i + 1]) == Accepted(ticks[..i]) + if ticks[i].accepted then 1 else 0
  {
    assert ticks[..i + 1][..i] == ticks[..i];
  }

  /** The store only fails where the record has not been written yet. */
  predicate RecordsSafe(ticks: seq<Tick>) {
    forall i :: 0 <= i < |ticks| ==> !ticks[i].clearFails && !ticks[i].commitFails
  }

  function HopKey(u: UTXO, fee: nat, k: nat): TxId {
    IdOf(HopTx(Tip(u, fee, k), fee))
  }

  predicate ChainRecord(u: UTXO, fee: nat, hops: nat, key: TxId) {
    exists k :: 0 <= k <= hops && key == HopKey(u, fee, k)
  }

  /** Records of other transactions are as they were. */
  ghost predicate OthersKept(u: UTXO, fee: nat, hops: nat, pending: Records, pending': Records) {
    forall key :: !ChainRecord(u, fee, hops, key) ==>
      (key in pending' <==> key in pending) && (key in pending ==> pending'[key] == pending[key])
  }

  /** No record of the chain was there before. */
  ghost predicate NoRecordBefore(u: UTXO, fee: nat, hops: nat, pending: Records) {
    forall k :: 0 <= k <= hops ==> HopKey(u, fee, k) !in pending
  }

  lemma KeptByOneMore(u: UTXO, fee: nat, hops: nat, pending: Records, pending': Records)
    requires OthersKept(u, fee, hops, pending, pending')
    ensures OthersKept(u, fee, hops + 1, pending, pending')
    ensures NoRecordBefore(u, fee, hops + 1, pending) ==> NoRecordBefore(u, fee, hops, pending)
  {
    hide HopKey;
    forall key | !ChainRecord(u, fee, hops + 1, key) ensures !ChainRecord(u, fee, hops, key) {
      forall k | 0 <= k <= hops ensures key != HopKey(u, fee, k) {
        assert 0 <= k <= hops + 1;
      }
    }
  }

  lemma KeptByCurrent(u: UTXO, fee: nat, hops: nat, pending: Records, pending': Records, stored: Stored)
    requires OthersKept(u, fee, hops, pending, pending')
    ensures OthersKept(u, fee, hops, pending, pending'[HopKey(u, fee, hops) := stored])
    ensures OthersKept(u, fee, hops, pending, pending' - {HopKey(u, fee, hops)})
  {
    hide HopKey;
    assert ChainRecord(u, fee, hops, HopKey(u, fee, hops));
    hide ChainRecord;
  }

  lemma KeptAtStart(u: UTXO, fee: nat, pending: Records)
    ensures OthersKept(u, fee, 0, pending, pending)
  {
  }

  /** The pending bucket with the record of the hop of t. */
  function WithRecord(pending: Records, t: UTXO, fee: nat, now: nat): Records {
    pending[IdOf(HopTx(t, fee)) := Encoded(RecordOf(HopTx(t, fee), L2Done, now))]
  }

  /** How one turn of the loop ends. */
  datatype Turn = Stay | Advance | Stop(end: Ending)

  /** What a turn at tip leaves in the store: only a commit touches the UTXOs, and it takes the record with it. */
  ghost predicate TurnLeaves(d: Durable, d': Durable, tip: UTXO, fee: nat, t: Tick, turn: Turn) {
    var key := IdOf(HopTx(tip, fee));
    && d'.stage == d.stage
    && (turn.Advance? <==> !t.saveFails && t.accepted && !t.commitFails)
    && (turn == Stop(SaveError) <==> t.saveFails)
    && (turn.Stop? ==> turn.end.SaveError? || turn.end.CommitError?)
    && d'.utxos == (if turn.Advance? then Hop(d.utxos, tip, fee) else d.utxos)
    && match turn
       case Advance => d'.pending == d.pending - {key}
       case Stay =>
         && !t.saveFails && !t.accepted
         && d'.pending == if t.clearFails then WithRecord(d.pending, tip, fee, t.now) else d.pending - {key}
       case Stop(SaveError) => d'.pending == d.pending
       case Stop(_) => t.accepted && t.commitFails && d'.pending == WithRecord(d.pending, tip, fee, t.now)
  }

  /**
   One turn at the tip after hops hops: the transaction is written, sent, and
   committed or cleared. Only a commit moves the chain on.
   */
  method OneTurn(st: St.Store, tip: UTXO, fee: nat, t: Tick) returns (turn: Turn)
    requires tip.value > 0
    modifies st
    ensures TurnLeaves(old(st.State()), st.State(), tip, fee, t, turn)
  {
    var tx := HopTx(tip, fee);
    var key := IdOf(tx);
    ghost var before := st.pending;
    var record := PendingBroadcast(Some(key), [tip], Created(tx), Some(L2Done), None);
    var saved := st.SavePending(record, t.now, t.saveFails);
    if !saved { return Stop(SaveError); }
    assert st.pending - {key} == before - {key};
    if !t.accepted {
      var _ := st.ClearPending(key, t.clearFails);
      return Stay;
    }
    CommitIsSpend(st.State(), tx);
    var committed := st.CommitPending(Some(key), [tip], Created(tx), t.commitFails);
    return if committed then Advance else Stop(CommitError);
  }

  /**
   runChain. However saves, clears, commits and broadcasts fail, the chain is at
   the tip of the hops it has committed and the store holds exactly that tip of
   it; it never makes more than ceil(value / fee) hops, and ends exhausted
   exactly when it has made them all. If nothing but refused broadcasts gets in
   its way it makes one hop for each accepted one, until it is exhausted. A chain
   that stops at a failed commit leaves the record of the accepted transaction
   for recovery; with no failed clear or commit it leaves no record.
   */
  method RunChain(st: St.Store, u: UTXO, mode: Mode, ticks: seq<Tick>) returns (hops: nat, tip: UTXO, end: Ending)
    requires mode.sustainFee > 0
    modifies st
    ensures tip == Tip(u, mode.sustainFee, hops) && st.utxos == After(old(st.utxos), u, mode.sustainFee, hops)
    ensures hops <= CeilDiv(u.value, mode.sustainFee)
    ensures end.Exhausted? <==> u.value > 0 && hops == CeilDiv(u.value, mode.sustainFee)
    ensures u.value > 0 && |ticks| >= CeilDiv(u.value, mode.sustainFee) && AllClean(ticks) ==> end.Exhausted?
    ensures u.value > 0 && AllUnhindered(ticks) ==>
      hops == if Accepted(ticks) < CeilDiv(u.value, mode.sustainFee) then Accepted(ticks) else CeilDiv(u.value,
        mode.sustainFee)
    ensures st.stage == old(st.stage) && OthersKept(u, mode.sustainFee, hops, old(st.pending), st.pending)
    ensures end.CommitError? ==>
      var key := IdOf(HopTx(tip, mode.sustainFee));
      key in st.pending && exists now :: st.pending[key] == Encoded(RecordOf(HopTx(tip, mode.sustainFee), L2Done, now))
    ensures RecordsSafe(ticks) && NoRecordBefore(u, mode.sustainFee, hops, old(st.pending)) ==>
      st.pending == old(st.pending)
  {
    var fee := mode.sustainFee;
    hide OthersKept, RecordOf, CeilDiv, Hop, Next, HopTx, NoRecordBefore, Accepted;
    AcceptedPrefix(ticks, |ticks|);
    NoneAccepted(ticks);
    hops, tip := 0, u;
    KeptAtStart(u, fee, st.pending);
    HopsToTheEnd(u, fee, 0);
    CeilDivIsLeast(u.value, fee);
    var i := 0;
    while i < |ticks|
      invariant i <= |ticks| && tip == Tip(u, fee, hops) && st.utxos == After(old(st.utxos), u, fee, hops)
      invariant hops < CeilDiv(u.value, fee) || (hops == CeilDiv(u.value, fee) == u.value == 0)
      invariant tip.value > 0 <==> u.value > 0
      invariant u.value > 0 && AllUnhindered(ticks) ==> hops == Accepted(ticks[..i])
      invariant st.stage == old(st.stage) && OthersKept(u, fee, hops, old(st.pending), st.pending)
      invariant RecordsSafe(ticks) && NoRecordBefore(u, fee, hops, old(st.pending)) ==> st.pending == old(st.pending)
    {
      var t := ticks[i];
      AcceptedNext(ticks, i);
      AcceptedPrefix(ticks, i + 1);
      i := i + 1;
      match BuildSustain(tip, Some(mode))
      case Err(_) =>
        if t.cancelled { return hops, tip, Cancelled; }
      case Ok(tx) =>
        SustainIsHop(tip, mode);
        ghost var before := st.pending;
        var turn := OneTurn(st, tip, fee, t);
        KeptByCurrent(u, fee, hops, old(st.pending), before, Encoded(RecordOf(HopTx(tip, fee), L2Done, t.now)));
        CurrentKey(u, fee, hops, old(st.pending));
        match turn {
          case Stay => if t.cancelled { return hops, tip, Cancelled; }
          case Stop(e) => return hops, tip, e;
          case Advance =>
            KeptByOneMore(u, fee, hops, old(st.pending), st.pending);
            hops, tip := hops + 1, Next(tip, fee);
            HopsToTheEnd(u, fee, hops);
            if tip.value == 0 { return hops, tip, Exhausted; }
            if t.cancelled { return hops, tip, Cancelled; }
        }
    }
    assert ticks[..i] == ticks;
    return hops, tip, Cancelled;
  }

  lemma NoneAccepted(ticks: seq<Tick>)
    ensures Accepted(ticks[..0]) == 0
  {
  }

  lemma SustainIsHop(u: UTXO, mode: Mode)
    requires u.value > 0
    ensures BuildSustain(u, Some(mode)) == Ok(HopTx(u, mode.sustainFee))
  {
  }

  lemma CurrentKey(u: UTXO, fee: nat, hops: nat, pending: Records)
    ensures IdOf(HopTx(Tip(u, fee, hops), fee)) == HopKey(u, fee, hops)
    ensures NoRecordBefore(u, fee, hops, pending) ==>
      HopKey(u, fee, hops) !in pending && pending - {HopKey(u, fee, hops)} == pending
  {
  }

  // ------------------------------------------------------- the retried broadcast

  const BOOTSTRAP_ATTEMPTS := 3

  /** What the environment does to one attempt, and whether the wait after it is cut short. */
  datatype Try = Try(saveFails: bool, accepted: bool, clearFails: bool, cancelled: bool, now: nat) {
    predicate Retried() { !saveFails && !accepted && !cancelled }
  }

  /** Attempt k is made and accepted. */
  predicate AcceptedAt(tries: nat -> Try, k: nat) {
    !tries(k).saveFails && tries(k).accepted && forall j :: 0 <= j < k ==> tries(j).Retried()
  }

  /** The record of tx, written at some time. */
  ghost predicate Written(before: Records, pending: Records, tx: Tx, stage: Stage) {
    exists now :: pending == before[IdOf(tx) := Encoded(RecordOf(tx, stage, now))]
  }

  /** The attempts made: sent records were written, and the last of them was accepted exactly if ok. */
  predicate SentExactly(tries: nat -> Try, sent: nat, ok: bool) {
    && sent <= BOOTSTRAP_ATTEMPTS
    && (forall j :: 0 <= j < sent - 1 ==> tries(j).Retried())
    && (if sent == 0 then !ok else !tries(sent - 1).saveFails && (tries(sent - 1).accepted <==> ok))
    && (ok || sent == BOOTSTRAP_ATTEMPTS || (sent > 0 && tries(sent - 1).cancelled) || tries(sent).saveFails)
  }

  /**
   The pending bucket after sent records of tx were written and all but an accepted
   one cleared, if the clear worked.
   */
  function PendingAfter(pending: Records, tx: Tx, stage: Stage, tries: nat -> Try, sent: nat, ok: bool): Records {
    if sent == 0 then pending
    else if ok || tries(sent - 1).clearFails then pending[IdOf(tx) := Encoded(RecordOf(tx, stage, tries(sent - 1).now))]
    else pending - {IdOf(tx)}
  }

  /**
   broadcastWithRetry: at most three attempts, and success exactly when one of
   them is made and accepted. The record is there after a success, and after a
   failure exactly if the clear of the last attempt failed.
   */
  method BroadcastWithRetry(st: St.Store, tx: Tx, stage: Stage, tries: nat -> Try) returns (ok: bool, sent: nat)
    modifies st
    ensures sent <= BOOTSTRAP_ATTEMPTS && st.utxos == old(st.utxos) && st.stage == old(st.stage)
    ensures ok <==> exists k :: 0 <= k < BOOTSTRAP_ATTEMPTS && AcceptedAt(tries, k)
    ensures ok ==> Written(old(st.pending), st.pending, tx, stage)
    ensures !ok && (forall k :: 0 <= k < BOOTSTRAP_ATTEMPTS ==> !tries(k).clearFails) ==>
      st.pending == if sent == 0 then old(st.pending) else old(st.pending) - {IdOf(tx)}
    ensures SentExactly(tries, sent, ok) && st.pending == PendingAfter(old(st.pending), tx, stage, tries, sent, ok)
  {
    hide RecordOf;
    var key := IdOf(tx);
    ghost var before := st.pending;
    sent := 0;
    while sent < BOOTSTRAP_ATTEMPTS
      invariant sent < BOOTSTRAP_ATTEMPTS && st.utxos == old(st.utxos) && st.stage == old(st.stage)
      invariant forall j :: 0 <= j < sent ==> tries(j).Retried()
      invariant st.pending == PendingAfter(before, tx, stage, tries, sent, false)
      decreases BOOTSTRAP_ATTEMPTS - sent
    {
      var t := tries(sent);
      ghost var current := st.pending;
      RecordShape(tx, stage, t.now);
      var record := PendingBroadcast(Some(key), [tx.input], Created(tx), Some(stage), None);
      var saved := st.SavePending(record, t.now, t.saveFails);
      if !saved {
        OnlyOneAttemptCounts(tries, sent);
        return false, sent;
      }
      Rewritten(before, current, tx, stage, tries, sent, t.now);
      if t.accepted {
        assert AcceptedAt(tries, sent);
        return true, sent + 1;
      }
      var _ := st.ClearPending(key, t.clearFails);
      sent := sent + 1;
      if sent == BOOTSTRAP_ATTEMPTS || t.cancelled {
        OnlyOneAttemptCounts(tries, sent - 1);
        break;
      }
    }
    return false, sent;
  }

  lemma RecordShape(tx: Tx, stage: Stage, now: nat)
    ensures PendingBroadcast(Some(IdOf(tx)), [tx.input], Created(tx), Some(stage), Some(now)) ==
      RecordOf(tx, stage, now)
  {
  }

  /** An attempt that is not accepted ends the chance of those after it, unless it is retried. */
  lemma OnlyOneAttemptCounts(tries: nat -> Try, n: nat)
    requires n < BOOTSTRAP_ATTEMPTS && (forall j :: 0 <= j < n ==> tries(j).Retried())
    requires tries(n).saveFails || (!tries(n).accepted && (tries(n).cancelled || n + 1 == BOOTSTRAP_ATTEMPTS))
    ensures !exists k :: 0 <= k < BOOTSTRAP_ATTEMPTS && AcceptedAt(tries, k)
  {
    forall k | 0 <= k < BOOTSTRAP_ATTEMPTS ensures !AcceptedAt(tries, k) {
      if k > n { assert !tries(n).Retried(); }
    }
  }

  lemma Rewritten(before: Records, current: Records, tx: Tx, stage: Stage, tries: nat -> Try, sent: nat, now: nat)
    requires current == PendingAfter(before, tx, stage, tries, sent, false)
    ensures var pending := current[IdOf(tx) := Encoded(RecordOf(tx, stage, now))];
      && pending == before[IdOf(tx) := Encoded(RecordOf(tx, stage, now))]
      && Written(before, pending, tx, stage) && pending - {IdOf(tx)} == before - {IdOf(tx)}
  {
    hide RecordOf;
    assert current[IdOf(tx) := Encoded(RecordOf(tx, stage, now))] ==
      before[IdOf(tx) := Encoded(RecordOf(tx, stage, now))];
  }
}
