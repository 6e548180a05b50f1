/**
 The sequential code of one L2 fanout and of collecting the results
 (internal/engine/bootstrap.go), over the store and queue objects. Module Engine
 interleaves these fanouts; here each is followed through its own failures.
 */
module Fanout {
  import opened Outcomes
  import opened Ledger
  import opened Stages
  import opened StoreSpec
  import opened TxBuilder
  import opened Chain
  import St = Store
  import Q = Queue

  datatype L2Result = L2Result(outputs: seq<UTXO>, accepted: bool)

  /** What became of the parent, and how many records were written for it. */
  datatype Outcome = Requeued(sent: nat) | Replaced(sent: nat) | LeftRecorded(sent: nat)

  /** What the fanout of parent leaves in the store. */
  ghost predicate FanoutLeaves(d: Durable, d': Durable, outcome: Outcome, parent: UTXO, n: int, mode: Option<Mode>,
                         tries: nat -> Try, commitFails: bool) {
    match BuildFanout(parent, n, mode)
    case Err(_) => outcome == Requeued(0) && d' == d
    case Ok(tx) =>
      && SentExactly(tries, outcome.sent, !outcome.Requeued?)
      && (!outcome.Requeued? ==> outcome.LeftRecorded? == commitFails)
      && d' ==
           if outcome.Replaced?
           then Durable((d.utxos - {parent.op}) + Spendable(tx), d.pending - {IdOf(tx)}, d.stage)
           else d.(pending := PendingAfter(d.pending, tx, L2Partial, tries, outcome.sent, outcome.LeftRecorded?))
  }

  /**
   fanoutParent. A parent whose fanout is not broadcast goes back on the queue,
   without a record of it unless the clear of the last attempt failed; a committed
   one is replaced by exactly the positive outputs of its transaction, without a
   record; one whose commit failed stays durable together with the record of the
   accepted transaction. In every other respect the store and the queue are
   unchanged.
   */
  method FanoutParent(st: St.Store, q: Q.Queue, parent: UTXO, n: int, mode: Option<Mode>, tries: nat -> Try,
    commitFails: bool)
    returns (r: L2Result, outcome: Outcome)
    requires q.Valid()
    modifies st, q
    ensures q.Valid() && st.stage == old(st.stage)
    ensures outcome.Requeued? <==>
      BuildFanout(parent, n, mode).Err? || !exists k :: 0 <= k < BOOTSTRAP_ATTEMPTS && AcceptedAt(tries, k)
    ensures outcome.Replaced? ==> !commitFails
    ensures q.Contents() == if outcome.Requeued? then old(q.Contents()) + multiset{parent} else old(q.Contents())
    ensures !outcome.Replaced? ==> st.utxos == old(st.utxos) && r == L2Result([], false)
    ensures !outcome.Requeued? ==> BuildFanout(parent, n, mode).Ok?
    ensures outcome.Replaced? ==>
      var tx := BuildFanout(parent, n, mode).value;
      && r == L2Result(Created(tx), true)
      && st.utxos == (old(st.utxos) - {parent.op}) + Spendable(tx) && st.pending == old(st.pending) - {IdOf(tx)}
    ensures outcome.LeftRecorded? ==>
      commitFails && Written(old(st.pending), st.pending, BuildFanout(parent, n, mode).value, L2Partial)
    ensures outcome.Requeued? && (BuildFanout(parent, n, mode).Err? || outcome.sent == 0) ==>
      st.pending == old(st.pending)
    ensures outcome.Requeued? && outcome.sent > 0 ==>
      && BuildFanout(parent, n, mode).Ok?
      && var tx := BuildFanout(parent, n, mode).value;
         if tries(outcome.sent - 1).clearFails then Written(old(st.pending), st.pending, tx, L2Partial)
         else st.pending == old(st.pending) - {IdOf(tx)}
    ensures FanoutLeaves(old(st.State()), st.State(), outcome, parent, n, mode, tries, commitFails)
  {
    hide RecordOf, BuildFanout;
    match BuildFanout(parent, n, mode)
    case Err(_) =>
      q.Push(parent);
      return L2Result([], false), Requeued(0);
    case Ok(tx) =>
      FanoutSpends(parent, n, mode);
      ghost var before := st.pending;
      var ok, sent := BroadcastWithRetry(st, tx, L2Partial, tries);
      if !ok {
        q.Push(parent);
        return L2Result([], false), Requeued(sent);
      }
      CommitIsSpend(st.State(), tx);
      assert st.pending - {IdOf(tx)} == before - {IdOf(tx)};
      var committed := st.CommitPending(Some(IdOf(tx)), [parent], Created(tx), commitFails);
      if !committed { return L2Result([], false), LeftRecorded(sent); }
      return L2Result(Created(tx), true), Replaced(sent);
  }

  lemma FanoutSpends(parent: UTXO, n: int, mode: Option<Mode>)
    ensures BuildFanout(parent, n, mode).Ok? ==> BuildFanout(parent, n, mode).value.input == parent
  {
  }

  // ------------------------------------------------------------ collecting results

  /** All outputs of the accepted results, in order. */
  function OutputsOf(results: seq<L2Result>): seq<UTXO> {
    if results == [] then []
    else
      var last := results[|results| - 1];
      OutputsOf(results[..|results| - 1]) + if last.accepted then last.outputs else []
  }

  predicate AllAccepted(results: seq<L2Result>) {
    forall i :: 0 <= i < |results| ==> results[i].accepted
  }

  method PushAll(q: Q.Queue, us: seq<UTXO>)
    requires q.Valid()
    modifies q
    ensures q.Valid() && q.Contents() == old(q.Contents()) + multiset(us)
  {
    assert us[..0] == [] && us[..|us|] == us;
    for j := 0 to |us|
      invariant q.Valid() && q.Contents() == old(q.Contents()) + multiset(us[..j])
    {
      assert us[..j + 1] == us[..j] + [us[j]];
      q.Push(us[j]);
    }
  }

  /**
   The end of bootstrapL2: the outputs of every accepted fanout are queued, and it
   reports success exactly when none failed and there are numChains of them.
   */
  method Collect(q: Q.Queue, results: seq<L2Result>, numChains: int) returns (complete: bool)
    requires q.Valid()
    modifies q
    ensures q.Valid() && q.Contents() == old(q.Contents()) + multiset(OutputsOf(results))
    ensures complete <==> AllAccepted(results) && |OutputsOf(results)| == numChains
  {
    hide AllAccepted, OutputsOf;
    var failed: nat, produced: nat := 0, 0;
    NothingCollected();
    assert results[..0] == [] && results[..|results|] == results;
    for i := 0 to |results|
      invariant q.Valid() && q.Contents() == old(q.Contents()) + multiset(OutputsOf(results[..i]))
      invariant produced == |OutputsOf(results[..i])| && (failed == 0 <==> AllAccepted(results[..i]))
    {
      OneMore(results, i);
      if !results[i].accepted {
        failed := failed + 1;
      } else {
        PushAll(q, results[i].outputs);
        produced := produced + |results[i].outputs|;
      }
    }
    complete := failed == 0 && produced == numChains;
  }

  lemma NothingCollected()
    ensures OutputsOf([]) == [] && AllAccepted([])
  {
  }

  lemma OneMore(results: seq<L2Result>, i: nat)
    requires i < |results|
    ensures OutputsOf(results[..i + 1]) ==
      OutputsOf(results[..i]) + if results[i].accepted then results[i].outputs else []
    ensures AllAccepted(results[..i + 1]) <==> AllAccepted(results[..i]) && results[i].accepted
  {
    assert results[..i + 1][..i] == results[..i] && results[..i + 1][i] == results[i];
    forall k | 0 <= k < i ensures results[..i + 1][k] == results[..i][k] {}
  }
}
