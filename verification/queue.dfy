/**
 internal/engine/queue.go: the in-memory UTXO queue, a binary min-heap kept the
 way container/heap keeps it, with optional write-through to the store.
 */
module Heap {
  import opened Ledger

  const UNCONFIRMED_HEIGHT := 0x4000_0000_0000_0000

  /** An unconfirmed UTXO (height 0) sorts after every confirmed one. */
  function SortHeight(u: UTXO): int {
    if u.height == 0 then UNCONFIRMED_HEIGHT else u.height
  }

  function ParentOf(k: nat): nat
    requires k > 0
  {
    (k - 1) / 2
  }

  /** k is not before its parent. */
  predicate InOrder(h: seq<UTXO>, k: nat)
    requires 0 < k < |h|
  {
    SortHeight(h[ParentOf(k)]) <= SortHeight(h[k])
  }

  predicate IsHeap(h: seq<UTXO>) {
    forall k :: 0 < k < |h| ==> InOrder(h, k)
  }

  function Swap(h: seq<UTXO>, i: nat, j: nat): (r: seq<UTXO>)
    requires i < |h| && j < |h|
    ensures |r| == |h| && multiset(r) == multiset(h)
  {
    h[i := h[j]][j := h[i]]
  }

  /** Nothing is before the root. */
  lemma {:induction false} RootIsLeast(h: seq<UTXO>, k: nat)
    requires IsHeap(h) && k < |h|
    ensures SortHeight(h[0]) <= SortHeight(h[k])
  {
    if k > 0 {
      assert InOrder(h, k);
      RootIsLeast(h, ParentOf(k));
    }
  }

  /** A heap but for j, which may be before its parent; j's children are not before j's parent. */
  predicate HeapButUp(h: seq<UTXO>, j: nat) {
    && j < |h|
    && (forall k :: 0 < k < |h| && k != j ==> InOrder(h, k))
    && (forall k :: 0 < k < |h| && j > 0 && ParentOf(k) == j ==> SortHeight(h[ParentOf(j)]) <= SortHeight(h[k]))
  }

  /** A heap but for the children of i, which may be before i; they are not before i's parent. */
  predicate HeapButDown(h: seq<UTXO>, i: nat) {
    && (forall k :: 0 < k < |h| && ParentOf(k) != i ==> InOrder(h, k))
    && (forall k :: 0 < k < |h| && 0 < i < |h| && ParentOf(k) == i ==> SortHeight(h[ParentOf(i)]) <= SortHeight(h[k]))
  }

  lemma SwapUp(h: seq<UTXO>, j: nat)
    requires HeapButUp(h, j) && j > 0 && SortHeight(h[j]) < SortHeight(h[ParentOf(j)])
    ensures HeapButUp(Swap(h, ParentOf(j), j), ParentOf(j))
  {
    var i, r := ParentOf(j), Swap(h, ParentOf(j), j);
    forall k | 0 < k < |r| && k != i ensures InOrder(r, k) {
      assert k != j ==> InOrder(h, k);
    }
    forall k | 0 < k < |r| && i > 0 && ParentOf(k) == i ensures SortHeight(r[ParentOf(i)]) <= SortHeight(r[k]) {
      assert InOrder(h, i) && (k != j ==> InOrder(h, k));
    }
  }

  /** heap.up */
  method Up(h0: seq<UTXO>, j0: nat) returns (h: seq<UTXO>)
    requires HeapButUp(h0, j0)
    ensures IsHeap(h) && multiset(h) == multiset(h0)
  {
    h := h0;
    var j := j0;
    while j > 0 && SortHeight(h[j]) < SortHeight(h[ParentOf(j)])
      invariant HeapButUp(h, j) && multiset(h) == multiset(h0)
    {
      SwapUp(h, j);
      h := Swap(h, ParentOf(j), j);
      j := ParentOf(j);
    }
    assert j > 0 ==> InOrder(h, j);
  }

  lemma SwapDown(h: seq<UTXO>, i: nat, j: nat)
    requires HeapButDown(h, i) && 0 < j < |h| && ParentOf(j) == i && SortHeight(h[j]) < SortHeight(h[i])
    requires forall k :: 0 < k < |h| && ParentOf(k) == i ==> SortHeight(h[j]) <= SortHeight(h[k])
    ensures HeapButDown(Swap(h, i, j), j)
  {
    var r := Swap(h, i, j);
    forall k | 0 < k < |r| && ParentOf(k) != j ensures InOrder(r, k) {
      assert ParentOf(k) != i ==> InOrder(h, k);
    }
    forall k | 0 < k < |r| && ParentOf(k) == j ensures SortHeight(r[ParentOf(j)]) <= SortHeight(r[k]) {
      assert InOrder(h, k);
    }
  }

  lemma Children(i: nat, k: nat)
    requires k > 0 && ParentOf(k) == i
    ensures k == 2 * i + 1 || k == 2 * i + 2
  {
  }

  lemma DownIsDone(h: seq<UTXO>, i: nat)
    requires HeapButDown(h, i)
    requires forall k :: 0 < k < |h| && (k == 2 * i + 1 || k == 2 * i + 2) ==> SortHeight(h[i]) <= SortHeight(h[k])
    ensures IsHeap(h)
  {
    forall k | 0 < k < |h| ensures InOrder(h, k) {
      if ParentOf(k) == i { Children(i, k); }
    }
  }

  /** The child of i that the other child is not before. */
  method LesserChild(h: seq<UTXO>, i: nat) returns (j: nat)
    requires 2 * i + 1 < |h|
    ensures 0 < j < |h| && ParentOf(j) == i
    ensures forall k :: 0 < k < |h| && (k == 2 * i + 1 || k == 2 * i + 2) ==> SortHeight(h[j]) <= SortHeight(h[k])
  {
    j := 2 * i + 1;
    if j + 1 < |h| && SortHeight(h[j + 1]) < SortHeight(h[j]) { j := j + 1; }
  }

  /** heap.down over the whole of h. */
  method Down(h0: seq<UTXO>, i0: nat) returns (h: seq<UTXO>)
    requires HeapButDown(h0, i0)
    ensures IsHeap(h) && multiset(h) == multiset(h0)
  {
    hide HeapButDown, IsHeap, Swap;
    h := h0;
    var i: nat := i0;
    while 2 * i + 1 < |h|
      invariant HeapButDown(h, i) && multiset(h) == multiset(h0) && |h| == |h0|
      decreases |h| - i
    {
      var j := LesserChild(h, i);
      if SortHeight(h[j]) >= SortHeight(h[i]) { break; }
      forall k | 0 < k < |h| && ParentOf(k) == i ensures SortHeight(h[j]) <= SortHeight(h[k]) { Children(i, k); }
      SwapDown(h, i, j);
      h := Swap(h, i, j);
      i := j;
    }
    DownIsDone(h, i);
  }
}

module Queue {
  import opened Outcomes
  import opened Ledger
  import opened Heap
  import St = Store
  import S = StoreSpec

  predicate Sorted(us: seq<UTXO>) {
    forall i, j :: 0 <= i < j < |us| ==> SortHeight(us[i]) <= SortHeight(us[j])
  }

  /** No confirmed UTXO comes after an unconfirmed one. */
  predicate UnconfirmedLast(us: seq<UTXO>) {
    forall i, j :: 0 <= i < j < |us| && us[i].height == 0 ==> us[j].height == 0
  }

  lemma SortedPutsUnconfirmedLast(us: seq<UTXO>)
    requires Sorted(us) && forall u :: u in multiset(us) ==> u.height < UNCONFIRMED_HEIGHT
    ensures UnconfirmedLast(us)
  {
    forall i, j | 0 <= i < j < |us| && us[i].height == 0 ensures us[j].height == 0 {
      assert us[j] in us;
      assert SortHeight(us[i]) <= SortHeight(us[j]);
    }
  }

  predicate NoneBefore(u: UTXO, us: multiset<UTXO>) {
    forall v :: v in us ==> SortHeight(u) <= SortHeight(v)
  }

  /** The values of a bucket, with multiplicity. */
  ghost function ValuesOf(m: map<OutPoint, UTXO>): multiset<UTXO> {
    if m == map[] then multiset{}
    else
      var op :| op in m;
      ValuesOf(m - {op}) + multiset{m[op]}
  }

  /** Any key may be taken first. */
  lemma {:induction false} ValuesRemove(m: map<OutPoint, UTXO>, op: OutPoint)
    requires op in m
    ensures ValuesOf(m) == ValuesOf(m - {op}) + multiset{m[op]}
    decreases m.Keys
  {
    hide ValuesOf;
    var first := FirstTaken(m);
    if first != op {
      var rest, others := m - {first}, m - {op};
      ValuesRemove(rest, op);
      ValuesRemove(others, first);
      assert rest - {op} == others - {first};
      Exchange(ValuesOf(rest - {op}), m[op], m[first]);
    }
  }

  lemma Exchange(s: multiset<UTXO>, u: UTXO, v: UTXO)
    ensures (s + multiset{u}) + multiset{v} == (s + multiset{v}) + multiset{u}
  {
  }

  lemma FirstTaken(m: map<OutPoint, UTXO>) returns (first: OutPoint)
    requires m != map[]
    ensures first in m && ValuesOf(m) == ValuesOf(m - {first}) + multiset{m[first]}
  {
    first :| first in m && ValuesOf(m) == ValuesOf(m - {first}) + multiset{m[first]};
  }

  /** Saving each of us, in order. */
  function SavedAll(d: S.Durable, us: seq<UTXO>): S.Durable {
    if us == [] then d else S.SaveUTXO(SavedAll(d, us[..|us| - 1]), us[|us| - 1])
  }

  class Queue {
    var heap: seq<UTXO>
    const store: St.Store?

    ghost predicate Valid() reads this { IsHeap(heap) }

    /** What the queue holds. */
    ghost function Contents(): multiset<UTXO> reads this { multiset(heap) }

    constructor (s: St.Store?)
      ensures Valid() && Contents() == multiset{} && store == s
    {
      heap, store := [], s;
    }

    method Push(u: UTXO)
      requires Valid()
      modifies this
      ensures Valid() && Contents() == old(Contents()) + multiset{u}
    {
      var h := heap + [u];
      forall k | 0 < k < |h| && k != |h| - 1 ensures InOrder(h, k) { assert InOrder(heap, k); }
      heap := Up(h, |h| - 1);
    }

    method PushPersisted(u: UTXO, fails: bool) returns (ok: bool)
      requires Valid()
      modifies this, store
      ensures Valid() && Contents() == old(Contents()) + multiset{u}
      ensures ok == (store == null || !fails)
      ensures store != null ==> store.State() == if ok then S.SaveUTXO(old(store.State()), u) else old(store.State())
    {
      Push(u);
      if store == null { return true; }
      ok := store.SaveUTXO(u, fails);
    }

    /** The oldest UTXO leaves; an empty queue has none. */
    method Pop() returns (r: Option<UTXO>)
      requires Valid()
      modifies this
      ensures Valid()
      ensures r.None? <==> old(Contents()) == multiset{}
      ensures r.None? ==> Contents() == old(Contents())
      ensures r.Some? ==>
        r.value in old(Contents()) && NoneBefore(r.value, old(Contents())) &&
        Contents() == old(Contents()) - multiset{r.value}
    {
      if |heap| == 0 { return None; }
      assert heap[0] in heap;
      forall v | v in heap ensures SortHeight(heap[0]) <= SortHeight(v) {
        var k :| 0 <= k < |heap| && heap[k] == v;
        RootIsLeast(heap, k);
      }
      var n := |heap| - 1;
      var swapped := Swap(heap, 0, n);
      var u, rest := swapped[n], swapped[..n];
      assert swapped == rest + [u];
      forall k | 0 < k < |rest| && ParentOf(k) != 0 ensures InOrder(rest, k) { assert InOrder(heap, k); }
      heap := Down(rest, 0);
      return Some(u);
    }

    /** Everything leaves, oldest first, and what is not confirmed last. */
    method Drain() returns (us: seq<UTXO>)
      requires Valid()
      modifies this
      ensures Valid() && Contents() == multiset{}
      ensures Sorted(us) && multiset(us) == old(Contents())
      ensures (forall u :: u in old(Contents()) ==> u.height < UNCONFIRMED_HEIGHT) ==> UnconfirmedLast(us)
    {
      us := [];
      while |heap| > 0
        invariant Valid() && multiset(us) + Contents() == old(Contents())
        invariant Sorted(us) && forall u :: u in us ==> NoneBefore(u, Contents())
        decreases |heap|
      {
        ghost var before := heap;
        var u := Pop();
        assert |multiset(before)| == |before| && |multiset(heap)| == |heap|;
        assert forall v :: v in us ==> NoneBefore(v, multiset(before)) && SortHeight(v) <= SortHeight(u.value);
        us := us + [u.value];
      }
      if forall u :: u in old(Contents()) ==> u.height < UNCONFIRMED_HEIGHT { SortedPutsUnconfirmedLast(us); }
    }

    /** Saves stop at the first failure. */
    method PersistAll(fails: nat -> bool) returns (ok: bool)
      modifies store
      ensures store == null ==> ok
      ensures store != null ==> ok == (forall i :: 0 <= i < |heap| ==> !fails(i))
      ensures store != null ==> exists n ::
        0 <= n <= |heap| && (ok <==> n == |heap|) && store.State() == SavedAll(old(store.State()), heap[..n])
    {
      if store == null { return true; }
      assert heap[..0] == [];
      for i := 0 to |heap|
        invariant forall k :: 0 <= k < i ==> !fails(k)
        invariant store.State() == SavedAll(old(store.State()), heap[..i])
      {
        var saved := store.SaveUTXO(heap[i], fails(i));
        if !saved { return false; }
        assert heap[..i + 1][..i] == heap[..i];
      }
      return true;
    }

    /** The contents become those of the store. */
    method Restore(fails: bool) returns (ok: bool)
      requires Valid()
      modifies this
      ensures Valid() && ok == (store == null || !fails)
      ensures Contents() == if ok && store != null then ValuesOf(store.utxos) else old(Contents())
    {
      if store == null { return true; }
      if fails { return false; }
      heap := [];
      var left := store.utxos;
      while left != map[]
        invariant Valid() && Contents() + ValuesOf(left) == ValuesOf(store.utxos)
        decreases |left|
      {
        var op :| op in left;
        ValuesRemove(left, op);
        Push(left[op]);
        left := left - {op};
      }
      return true;
    }
  }
}
