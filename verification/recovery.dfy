/**
 The startup code of internal/engine/persist.go: records are replayed oldest
 first against the store, and the queue is brought to what the store then
 holds. Each run of it is one of the recoveries of module Replay.
 */
module Recovery {
  import opened Outcomes
  import opened Ledger
  import opened Stages
  import opened StoreSpec
  import opened Replay
  import St = Store
  import Q = Queue

  type Records = map<TxId, Stored>

  /** SavedAt; a record without one has the zero time. */
  function SavedAt(pending: Records, key: TxId): nat
    requires key in pending
  {
    var p := Decode(key, pending[key]);
    if p.savedAt.Some? then p.savedAt.value else 0
  }

  /** The order in which records are applied: by time, then by txid, for which rank stands. */
  predicate Before(pending: Records, rank: TxId -> nat, a: TxId, b: TxId)
    requires a in pending && b in pending
  {
    SavedAt(pending, a) < SavedAt(pending, b) || (SavedAt(pending, a) == SavedAt(pending, b) && rank(a) < rank(b))
  }

  predicate OldestFirst(pending: Records, rank: TxId -> nat, order: seq<TxId>) {
    && (forall i :: 0 <= i < |order| ==> order[i] in pending)
    && (forall i, j :: 0 <= i < j < |order| ==> order[i] != order[j] && !Before(pending, rank, order[j], order[i]))
  }

  lemma BeforeIsTransitive(pending: Records, rank: TxId -> nat, a: TxId, b: TxId, c: TxId)
    requires a in pending && b in pending && c in pending
    ensures Before(pending, rank, a, b) && Before(pending, rank, b, c) ==> Before(pending, rank, a, c)
  {
  }

  method Oldest(pending: Records, rank: TxId -> nat, todo: set<TxId>) returns (key: TxId)
    requires todo != {} && todo <= pending.Keys
    ensures key in todo && forall k :: k in todo ==> !Before(pending, rank, k, key)
  {
    key :| key in todo;
    var left := todo - {key};
    while left != {}
      invariant key in todo && left <= todo && forall k :: k in todo - left ==> !Before(pending, rank, k, key)
      decreases left
    {
      var k :| k in left;
      if Before(pending, rank, k, key) {
        forall x | x in todo - left ensures !Before(pending, rank, x, k) {
          BeforeIsTransitive(pending, rank, x, k, key);
        }
        key := k;
      }
      left := left - {k};
    }
  }

  /** The records of a LoadPending result, sorted. */
  method SortRecords(pending: Records, rank: TxId -> nat) returns (order: seq<TxId>)
    ensures OldestFirst(pending, rank, order) && forall key :: key in pending <==> key in order
  {
    order := [];
    var todo := pending.Keys;
    while todo != {}
      invariant todo <= pending.Keys && OldestFirst(pending, rank, order)
      invariant forall key :: key in pending <==> key in order || key in todo
      invariant forall i, k :: 0 <= i < |order| && k in todo ==> order[i] != k && !Before(pending, rank, k, order[i])
      decreases todo
    {
      var key := Oldest(pending, rank, todo);
      todo := todo - {key};
      order := order + [key];
    }
  }

  lemma {:induction false} RecoverySnoc(d: Durable, steps: seq<RecoveryStep>, mid: Durable, step: RecoveryStep)
    requires IsRecovery(d, steps, mid) && CanRecover(mid, step)
    ensures IsRecovery(d, steps + [step], Recover(mid, step))
    decreases |steps|
  {
    if steps == [] {
      assert ([] + [step])[1..] == [];
    } else {
      RecoverySnoc(Recover(d, steps[0]), steps[1..], mid, step);
      assert (steps + [step])[1..] == steps[1..] + [step];
    }
  }

  /** The records of d still to be applied after the first n of order. */
  ghost predicate Remaining(d: Durable, now: Durable, order: seq<TxId>, n: nat)
    requires n <= |order|
  {
    && (forall key :: key in Replayables(now) <==> key in Replayables(d) && key in order[n..])
    && (forall i :: n <= i < |order| && order[i] in d.pending ==>
      order[i] in now.pending && now.pending[order[i]] == d.pending[order[i]])
  }

  /** The n-th record of order applied. */
  lemma RemainingAfterApply(d: Durable, now: Durable, order: seq<TxId>, n: nat)
    requires n < |order| && Remaining(d, now, order, n) && WriteAhead(now) && order[n] in Replayables(d)
    requires forall i, j :: 0 <= i < j < |order| ==> order[i] != order[j]
    ensures order[n] in Replayables(now) && Remaining(d, ReplayOne(now, order[n]), order, n + 1)
  {
    hide ReplayOne, WriteAhead, Spendable;
    assert order[n..] == [order[n]] + order[n + 1..];
    ReplayOneIsSpend(now, order[n]);
  }

  /** The n-th record of order skipped, because it has no transition. */
  lemma RemainingAfterSkip(d: Durable, now: Durable, order: seq<TxId>, n: nat)
    requires n < |order| && Remaining(d, now, order, n) && order[n] !in Replayables(d)
    ensures Remaining(d, now, order, n + 1)
  {
    assert order[n..] == [order[n]] + order[n + 1..];
  }

  lemma RemainingAfterMark(d: Durable, now: Durable, order: seq<TxId>, n: nat, stage: Stage)
    requires n <= |order| && Remaining(d, now, order, n)
    ensures Remaining(d, SetStage(now, stage), order, n)
  {
    assert Replayables(SetStage(now, stage)) == Replayables(now);
  }

  // ----------------------------------------------------- the loop's accounts

  predicate SomeApplied(d: Durable, order: seq<TxId>, n: nat)
    requires n <= |order|
  {
    exists i :: 0 <= i < n && order[i] in Replayables(d)
  }

  predicate SomeSkipped(d: Durable, order: seq<TxId>, n: nat)
    requires n <= |order|
  {
    exists i :: 0 <= i < n && order[i] in d.pending && order[i] !in Replayables(d)
  }

  /** After n records: what happened is a recovery, and the rest is still to do. */
  ghost predicate Underway(d: Durable, steps: seq<RecoveryStep>, now: Durable, order: seq<TxId>, n: nat)
    requires n <= |order|
  {
    WriteAhead(d) ==> IsRecovery(d, steps, now) && WriteAhead(now) && Remaining(d, now, order, n)
  }

  lemma AtStart(d: Durable, order: seq<TxId>)
    requires forall key :: key in d.pending <==> key in order
    ensures Underway(d, [], d, order, 0) && !SomeApplied(d, order, 0) && !SomeSkipped(d, order, 0)
  {
    assert order[0..] == order;
  }

  lemma AfterSkip(d: Durable, steps: seq<RecoveryStep>, now: Durable, order: seq<TxId>, n: nat)
    requires n < |order| && Underway(d, steps, now, order, n) && order[n] in d.pending &&
      !Replayable(order[n], d.pending[order[n]])
    ensures Underway(d, steps, now, order, n + 1)
    ensures SomeApplied(d, order, n + 1) == SomeApplied(d, order, n) && SomeSkipped(d, order, n + 1)
  {
    hide WriteAhead, IsRecovery, Remaining;
    if WriteAhead(d) { RemainingAfterSkip(d, now, order, n); }
  }

  function AfterRecord(d: Durable, p: PendingBroadcast, metaFails: bool): Durable {
    var d' := CommitPending(d, p.txid, p.spent, p.created);
    if p.stage.Some? && !metaFails then SetStage(d', p.stage.value) else d'
  }

  lemma AfterApply(d: Durable, steps: seq<RecoveryStep>, now: Durable, order: seq<TxId>, n: nat, metaFails: bool)
    returns (steps': seq<RecoveryStep>)
    requires n < |order| && Underway(d, steps, now, order, n) && order[n] in d.pending &&
      Replayable(order[n], d.pending[order[n]])
    requires forall i, j :: 0 <= i < j < |order| ==> order[i] != order[j]
    ensures Underway(d, steps', AfterRecord(now, Decode(order[n], d.pending[order[n]]), metaFails), order, n + 1)
    ensures SomeApplied(d, order, n + 1) && SomeSkipped(d, order, n + 1) == SomeSkipped(d, order, n)
  {
    hide WriteAhead, IsRecovery, CommitPending;
    assert order[n] in Replayables(d);
    steps' := steps;
    if WriteAhead(d) {
      steps' := Applied(d, steps, now, order, n, Decode(order[n], d.pending[order[n]]).stage, metaFails);
    }
  }

  lemma AtEnd(d: Durable, steps: seq<RecoveryStep>, now: Durable, order: seq<TxId>)
    requires Underway(d, steps, now, order, |order|) && forall key :: key in d.pending <==> key in order
    ensures WriteAhead(d) ==> IsRecovery(d, steps, now) && Replayables(now) == {}
    ensures SomeApplied(d, order, |order|) == (Replayables(d) != {})
    ensures SomeSkipped(d, order, |order|) == (Replayables(d) != d.pending.Keys)
  {
    hide WriteAhead, IsRecovery;
    assert order[|order|..] == [];
    if key :| key in Replayables(d) { assert key in order; }
    if key :| key in d.pending && key !in Replayables(d) { assert key in order; }
  }

  lemma AfterMark(d: Durable, steps: seq<RecoveryStep>, now: Durable, stage: Stage, fails: bool)
    returns (steps': seq<RecoveryStep>)
    requires WriteAhead(d) ==> IsRecovery(d, steps, now) && Replayables(now) == {}
    ensures var next := if fails then now else SetStage(now, stage);
      WriteAhead(d) ==> IsRecovery(d, steps', next) && Replayables(next) == {} && IsRecoveryOf(next.utxos, d)
  {
    hide WriteAhead;
    steps' := steps;
    if WriteAhead(d) {
      RecoveryReached(d, steps, now);
      if !fails {
        RecoverySnoc(d, steps, now, WriteStage(stage));
        steps' := steps + [WriteStage(stage)];
      }
    }
  }

  class Engine {
    const store: St.Store
    const queue: Q.Queue
    var mem: Stage

    ghost predicate Valid()
      reads this, queue
    {
      queue.Valid() && queue.store == store
    }

    constructor (s: St.Store, q: Q.Queue)
      requires q.Valid() && q.store == s
      ensures Valid() && mem == StageNone && store == s && queue == q
    {
      store, queue, mem := s, q, StageNone;
    }

    method SetBootstrapStage(stage: Stage, fails: bool)
      modifies this`mem, store
      ensures mem == stage
      ensures store.State() == if fails then old(store.State()) else SetStage(old(store.State()), stage)
    {
      mem := stage;
      var _ := store.SetStage(stage, fails);
    }

    /**
     What one record does: nothing when it has no transition, and otherwise its
     commit and, if it carries a stage, the stage.
     */
    method ReplayRecord(p: PendingBroadcast, commitFails: bool, metaFails: bool) returns (ok: bool)
      modifies this`mem, store
      ensures ok == !commitFails
      ensures !ok ==> store.State() == old(store.State()) && mem == old(mem)
      ensures ok ==> store.State() == AfterRecord(old(store.State()), p, metaFails)
      ensures ok ==> mem == (if p.stage.Some? then p.stage.value else old(mem))
    {
      ok := store.CommitPending(p.txid, p.spent, p.created, commitFails);
      if ok && p.stage.Some? { SetBootstrapStage(p.stage.value, metaFails); }
    }

    /**
     replayPending, with any of its reads and writes failing. Whatever fails,
     what it did to the store is a recovery, so it can be run again; when it
     reports success nothing is left to replay, the UTXOs are those that
     recovery of the old state reaches, and a record that could not be replayed
     has made the stage unknown.
     */
    method ReplayPending(rank: TxId -> nat, loadFails: bool, commitFails: nat -> bool, metaFails: nat -> bool)
      returns (changed: bool, ok: bool, ghost steps: seq<RecoveryStep>)
      modifies this`mem, store
      ensures old(WriteAhead(store.State())) ==> IsRecovery(old(store.State()), steps, store.State())
      ensures old(WriteAhead(store.State())) && ok ==>
        Replayables(store.State()) == {} && IsRecoveryOf(store.utxos, old(store.State()))
      ensures !changed ==> store.utxos == old(store.utxos)
      ensures ok ==> changed == (Replayables(old(store.State())) != {})
      ensures ok && Replayables(old(store.State())) != old(store.pending).Keys ==>
        mem == Unknown && ((forall i :: !metaFails(i)) ==> store.stage == Some(Unknown))
      ensures ok && old(store.pending) == map[] ==> mem == old(mem) && store.State() == old(store.State())
      ensures !loadFails && (forall n :: !commitFails(n)) ==> ok
    {
      hide WriteAhead, IsRecovery, Replayables, Remaining, Underway, IsRecoveryOf, AfterRecord, SomeApplied,
           SomeSkipped;
      ghost var d := store.State();
      steps := [];
      if loadFails {
        EmptyRecovery(d);
        return false, false, [];
      }
      var pending := store.pending;
      var order := SortRecords(pending, rank);
      changed, ok := false, true;
      var unknown: nat := 0;
      AtStart(d, order);
      for n := 0 to |order|
        invariant Underway(d, steps, store.State(), order, n)
        invariant changed == SomeApplied(d, order, n) && (unknown > 0) == SomeSkipped(d, order, n)
        invariant !changed ==> store.State() == d && mem == old(mem)
      {
        var key := order[n];
        var p := Decode(key, pending[key]);
        if p.spent == [] && p.created == [] {
          unknown := unknown + 1;
          AfterSkip(d, steps, store.State(), order, n);
        } else {
          ghost var before := store.State();
          var committed := ReplayRecord(p, commitFails(n), metaFails(n));
          if !committed {
            UnderwayIsRecovery(d, steps, before, order, n);
            return changed, false, steps;
          }
          changed := true;
          steps := AfterApply(d, steps, before, order, n, metaFails(n));
        }
      }
      AtEnd(d, steps, store.State(), order);
      ghost var before := store.State();
      ghost var marked := unknown > 0 && !metaFails(|order|);
      if unknown > 0 { SetBootstrapStage(Unknown, metaFails(|order|)); }
      steps := AfterMark(d, steps, before, Unknown, !marked);
      NoRecordNoReplay(d);
    }

    /**
     restore: queue the given UTXOs and save them, or load the stored ones; then
     replay, reload the queue if that changed anything, and resume the persisted
     stage. initial is what the caller read from this store, or what the network
     reports when the store is empty.
     */
    method Restore(initial: seq<UTXO>, rank: TxId -> nat, saveFails: nat -> bool, loadFails: bool, pendingFails: bool,
                   commitFails: nat -> bool, metaFails: nat -> bool, reloadFails: bool, stageFails: bool)
      returns (ok: bool)
      requires Valid() && queue.Contents() == multiset{}
      modifies this`mem, queue, store
      ensures Valid()
      ensures ok && old(WriteAhead(store.State())) && old(Listed(initial, store.utxos)) ==>
        && queue.Contents() == Q.ValuesOf(store.utxos)
        && Replayables(store.State()) == {} && IsRecoveryOf(store.utxos, old(store.State()))
      ensures ok && old(WriteAhead(store.State())) && old(store.utxos) == map[] && DistinctOps(initial) ==>
        queue.Contents() == multiset(initial) == Q.ValuesOf(store.utxos)
      ensures ok && store.stage.Some? ==> mem == store.stage.value
      ensures !loadFails && !pendingFails && !reloadFails && !stageFails ==>
        (forall n :: !saveFails(n) && !commitFails(n)) ==> ok
    {
      hide WriteAhead, IsRecovery, Replayables, IsRecoveryOf, Q.ValuesOf, Listed, DistinctOps;
      ghost var d := store.State();
      ok := LoadQueue(initial, saveFails, loadFails);
      if !ok { return false; }
      ghost var saved := store.State();
      var changed, replayed, steps := ReplayPending(rank, pendingFails, commitFails, metaFails);
      if !replayed { return false; }
      if changed {
        ok := queue.Restore(reloadFails);
        if !ok { return false; }
      }
      if WriteAhead(d) && d.utxos == map[] { EmptyStoreHasNoRecord(d, saved); }
      if stageFails { return false; }
      if store.stage.Some? { mem := store.stage.value; }
      return true;
    }

    /** The queue after startup holds what the store holds. */
    method LoadQueue(initial: seq<UTXO>, saveFails: nat -> bool, loadFails: bool) returns (ok: bool)
      requires Valid() && queue.Contents() == multiset{}
      modifies queue, store
      ensures Valid() && store.pending == old(store.pending) && store.stage == old(store.stage)
      ensures ok && old(Listed(initial, store.utxos)) ==> store.State() == old(store.State())
      ensures ok && (old(Listed(initial, store.utxos)) || (old(store.utxos) == map[] && DistinctOps(initial))) ==>
        queue.Contents() == Q.ValuesOf(store.utxos)
      ensures ok && old(store.utxos) == map[] && DistinctOps(initial) ==> queue.Contents() == multiset(initial)
      ensures (if initial == [] then !loadFails else forall n :: !saveFails(n)) ==> ok
    {
      hide Q.ValuesOf, Listed, DistinctOps;
      ghost var d := store.State();
      if |initial| > 0 {
        assert initial[..0] == [] && initial[..|initial|] == initial;
        for i := 0 to |initial|
          invariant Valid() && queue.Contents() == multiset(initial[..i]) && store.State() == d
        {
          assert initial[..i + 1] == initial[..i] + [initial[i]];
          queue.Push(initial[i]);
        }
        ok := queue.PersistAll(saveFails);
        ghost var n :| 0 <= n <= |queue.heap| && (ok <==> n == |queue.heap|) &&
          store.State() == Q.SavedAll(d, queue.heap[..n]);
        SavedAllKeeps(d, queue.heap[..n]);
        if !ok { return false; }
        assert queue.heap[..|queue.heap|] == queue.heap;
        if Listed(initial, d.utxos) { SavedAgain(d, initial, queue.heap); }
        if d.utxos == map[] && DistinctOps(initial) { SavedFresh(d, initial, queue.heap); }
      } else {
        ok := queue.Restore(loadFails);
        NoValues();
      }
    }
  }

  // ---------------------------------------------------------- seeding the queue

  ghost predicate Keyed(m: map<OutPoint, UTXO>) {
    forall op :: op in m ==> m[op].op == op
  }

  /** us is nothing, or the values of m. */
  ghost predicate Listed(us: seq<UTXO>, m: map<OutPoint, UTXO>) {
    us == [] || (multiset(us) == Q.ValuesOf(m) && Keyed(m))
  }

  lemma NoValues()
    ensures Q.ValuesOf(map[]) == multiset{}
  {
  }

  lemma {:induction false} SavedAllKeeps(d: Durable, us: seq<UTXO>)
    ensures Q.SavedAll(d, us) == d.(utxos := Q.SavedAll(d, us).utxos)
  {
    if us != [] { SavedAllKeeps(d, us[..|us| - 1]); }
  }

  lemma {:induction false} ValueHeld(m: map<OutPoint, UTXO>, u: UTXO)
    requires u in Q.ValuesOf(m) && Keyed(m)
    ensures u.op in m && m[u.op] == u
    decreases m.Keys
  {
    if m != map[] {
      var first := Q.FirstTaken(m);
      if m[first] != u { ValueHeld(m - {first}, u); }
    }
  }

  /** Saving what is stored already changes nothing. */
  lemma {:induction false} SavedInPlace(d: Durable, us: seq<UTXO>)
    requires forall i :: 0 <= i < |us| ==> us[i].op in d.utxos && d.utxos[us[i].op] == us[i]
    ensures Q.SavedAll(d, us) == d
  {
    if us != [] {
      SavedInPlace(d, us[..|us| - 1]);
      var u := us[|us| - 1];
      assert d.utxos[u.op := u] == d.utxos;
    }
  }

  lemma SavedAgain(d: Durable, initial: seq<UTXO>, heap: seq<UTXO>)
    requires Listed(initial, d.utxos) && initial != [] && multiset(heap) == multiset(initial)
    ensures Q.SavedAll(d, heap) == d && multiset(heap) == Q.ValuesOf(d.utxos)
  {
    hide Q.ValuesOf;
    forall i | 0 <= i < |heap| ensures heap[i].op in d.utxos && d.utxos[heap[i].op] == heap[i] {
      assert heap[i] in multiset(heap);
      ValueHeld(d.utxos, heap[i]);
    }
    SavedInPlace(d, heap);
  }

  lemma CountedTwice(us: seq<UTXO>, i: nat, j: nat)
    requires i < j < |us| && us[i] == us[j]
    ensures multiset(us)[us[i]] >= 2
  {
    assert us == us[..i] + [us[i]] + us[i + 1..j] + [us[j]] + us[j + 1..];
  }

  lemma CountedOnce(us: seq<UTXO>, i: nat)
    requires i < |us| && DistinctOps(us)
    ensures multiset(us)[us[i]] == 1
  {
    assert us == us[..i] + [us[i]] + us[i + 1..];
    assert us[i] !in us[..i] && us[i] !in us[i + 1..];
  }

  lemma PermutedOps(us: seq<UTXO>, vs: seq<UTXO>)
    requires DistinctOps(us) && multiset(vs) == multiset(us)
    ensures DistinctOps(vs)
  {
    forall i, j | 0 <= i < j < |vs| ensures vs[i].op != vs[j].op {
      var a := IndexIn(us, vs, i);
      var b := IndexIn(us, vs, j);
      CountedOnce(us, a);
      if vs[i] == vs[j] { CountedTwice(vs, i, j); }
    }
  }

  lemma IndexIn(us: seq<UTXO>, vs: seq<UTXO>, i: nat) returns (a: nat)
    requires i < |vs| && multiset(vs) == multiset(us)
    ensures a < |us| && us[a] == vs[i]
  {
    assert vs[i] in multiset(us);
    a :| 0 <= a < |us| && us[a] == vs[i];
  }

  lemma {:induction false} SavedFrom(d: Durable, us: seq<UTXO>, op: OutPoint) returns (i: nat)
    requires op in Q.SavedAll(d, us).utxos && op !in d.utxos
    ensures i < |us| && us[i].op == op
  {
    if us[|us| - 1].op == op { i := |us| - 1; } else { i := SavedFrom(d, us[..|us| - 1], op); }
  }

  lemma {:induction false} FreshValues(d: Durable, us: seq<UTXO>)
    requires d.utxos == map[] && DistinctOps(us)
    ensures Q.ValuesOf(Q.SavedAll(d, us).utxos) == multiset(us)
  {
    hide Q.ValuesOf;
    if us == [] {
      NoValues();
    } else {
      var front, u := us[..|us| - 1], us[|us| - 1];
      FreshValues(d, front);
      var m := Q.SavedAll(d, front).utxos;
      assert us == front + [u];
      if u.op in m { var i := SavedFrom(d, front, u.op); }
      Q.ValuesRemove(m[u.op := u], u.op);
      assert m[u.op := u] - {u.op} == m;
    }
  }

  lemma SavedFresh(d: Durable, initial: seq<UTXO>, heap: seq<UTXO>)
    requires d.utxos == map[] && DistinctOps(initial) && multiset(heap) == multiset(initial)
    ensures Q.ValuesOf(Q.SavedAll(d, heap).utxos) == multiset(heap)
  {
    PermutedOps(initial, heap);
    FreshValues(d, heap);
  }

  /** A write-ahead record needs its input in the store, so an empty store has none, whatever is saved next. */
  lemma EmptyStoreHasNoRecord(d: Durable, saved: Durable)
    requires WriteAhead(d) && d.utxos == map[] && saved.pending == d.pending
    ensures Replayables(saved) == {}
  {
    assert Replayables(saved) == Replayables(d);
  }

  lemma EmptyRecovery(d: Durable)
    ensures IsRecovery(d, [], d)
  {
  }

  lemma NoRecordNoReplay(d: Durable)
    ensures d.pending == map[] ==> Replayables(d) == {} == d.pending.Keys
  {
  }

  lemma UnderwayIsRecovery(d: Durable, steps: seq<RecoveryStep>, now: Durable, order: seq<TxId>, n: nat)
    requires n <= |order| && Underway(d, steps, now, order, n)
    ensures WriteAhead(d) ==> IsRecovery(d, steps, now)
  {
  }

  /** A recovery that leaves no record has reached the UTXOs recovery reaches. */
  lemma RecoveryReached(d: Durable, steps: seq<RecoveryStep>, end: Durable)
    requires WriteAhead(d) && IsRecovery(d, steps, end) && Replayables(end) == {}
    ensures IsRecoveryOf(end.utxos, d)
  {
    RecoveryIsConfluent(d, steps, end, steps, end);
  }

  /** One record applied, with or without its stage: still a recovery. */
  lemma Applied(d: Durable, steps: seq<RecoveryStep>, now: Durable, order: seq<TxId>, n: nat, stage: Option<Stage>,
    metaFails: bool)
    returns (steps': seq<RecoveryStep>)
    requires WriteAhead(d) && IsRecovery(d, steps, now) && WriteAhead(now) && n < |order| && Remaining(d, now, order, n)
    requires order[n] in Replayables(d) && forall i, j :: 0 <= i < j < |order| ==> order[i] != order[j]
    ensures order[n] in now.pending
    ensures var replayed := ReplayOne(now, order[n]);
      var next := if stage.Some? && !metaFails then SetStage(replayed, stage.value) else replayed;
      IsRecovery(d, steps', next) && WriteAhead(next) && Remaining(d, next, order, n + 1)
  {
    hide WriteAhead, Remaining, ReplayOne;
    RemainingAfterApply(d, now, order, n);
    RecoverySnoc(d, steps, now, Apply(order[n]));
    steps' := steps + [Apply(order[n])];
    var next := ReplayOne(now, order[n]);
    ReplayOneKeepsWriteAhead(now, order[n]);
    if stage.Some? && !metaFails {
      RecoverySnoc(d, steps', next, WriteStage(stage.value));
      RemainingAfterMark(d, next, order, n + 1, stage.value);
      MarkKeepsWriteAhead(next, stage.value);
      steps' := steps' + [WriteStage(stage.value)];
    }
  }

  lemma MarkKeepsWriteAhead(d: Durable, stage: Stage)
    requires WriteAhead(d)
    ensures WriteAhead(SetStage(d, stage))
  {
    assert Replayables(SetStage(d, stage)) == Replayables(d);
  }
}
