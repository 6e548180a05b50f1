/** How many UTXOs an L2 fanout leaves when some of its parents have been fanned out. */
module Tally {
  import opened Ledger

  /** One for a parent still there, its width for one that has been replaced. */
  function Count(parents: seq<OutPoint>, widths: seq<nat>, present: set<OutPoint>): nat
    requires |parents| == |widths|
  {
    if parents == [] then 0
    else (if parents[0] in present then 1 else widths[0]) + Count(parents[1..], widths[1..], present)
  }

  predicate Distinct(parents: seq<OutPoint>) {
    forall i, j :: 0 <= i < j < |parents| ==> parents[i] != parents[j]
  }

  /** op is a parent of width n. */
  predicate HasWidth(parents: seq<OutPoint>, widths: seq<nat>, op: OutPoint, n: nat)
    requires |parents| == |widths|
  {
    exists i :: 0 <= i < |parents| && parents[i] == op && widths[i] == n
  }

  lemma {:induction false} CountSame(parents: seq<OutPoint>, widths: seq<nat>, present: set<OutPoint>,
    present': set<OutPoint>)
    requires |parents| == |widths|
    requires forall i :: 0 <= i < |parents| ==> (parents[i] in present <==> parents[i] in present')
    ensures Count(parents, widths, present) == Count(parents, widths, present')
  {
    if parents != [] {
      assert parents[0] in present <==> parents[0] in present';
      CountSame(parents[1..], widths[1..], present, present');
    }
  }

  /** Replacing one parent by its outputs turns its one into its width. */
  lemma {:induction false} CountReplace(parents: seq<OutPoint>, widths: seq<nat>, present: set<OutPoint>,
    present': set<OutPoint>, k: nat)
    requires |parents| == |widths| && Distinct(parents) && k < |parents|
    requires parents[k] in present && parents[k] !in present'
    requires forall i :: 0 <= i < |parents| && i != k ==> (parents[i] in present <==> parents[i] in present')
    ensures Count(parents, widths, present') == Count(parents, widths, present) - 1 + widths[k]
  {
    if k == 0 {
      CountSame(parents[1..], widths[1..], present, present');
    } else {
      assert parents[0] in present <==> parents[0] in present';
      CountReplace(parents[1..], widths[1..], present, present', k - 1);
    }
  }

  lemma {:induction false} CountAllPresent(parents: seq<OutPoint>, widths: seq<nat>, present: set<OutPoint>)
    requires |parents| == |widths| && forall i :: 0 <= i < |parents| ==> parents[i] in present
    ensures Count(parents, widths, present) == |parents|
  {
    if parents != [] {
      assert parents[0] in present;
      CountAllPresent(parents[1..], widths[1..], present);
    }
  }

  lemma {:induction false} CountNonePresent(parents: seq<OutPoint>, widths: seq<nat>, present: set<OutPoint>)
    requires |parents| == |widths| && forall i :: 0 <= i < |parents| ==> parents[i] !in present
    ensures Count(parents, widths, present) == Sum(widths)
  {
    if parents != [] {
      assert parents[0] !in present;
      CountNonePresent(parents[1..], widths[1..], present);
    }
  }

  /**
   When every width is at least two, the count lies between the number of
   parents and the sum of the widths, and meets a bound exactly when no parent,
   or every parent, has been replaced.
   */
  lemma {:induction false} CountTells(parents: seq<OutPoint>, widths: seq<nat>, present: set<OutPoint>)
    requires |parents| == |widths| && forall i :: 0 <= i < |widths| ==> widths[i] >= 2
    ensures |parents| <= Count(parents, widths, present) <= Sum(widths)
    ensures Count(parents, widths, present) == |parents| <==> forall i :: 0 <= i < |parents| ==> parents[i] in present
    ensures Count(parents, widths, present) == Sum(widths) <==>
      forall i :: 0 <= i < |parents| ==> parents[i] !in present
  {
    if parents != [] {
      var ps, ws := parents[1..], widths[1..];
      CountTells(ps, ws, present);
      assert (forall i :: 0 <= i < |parents| ==> parents[i] in present) <==>
        parents[0] in present && forall i :: 0 <= i < |ps| ==> ps[i] in present by {
        assert forall i :: 0 <= i < |ps| ==> ps[i] == parents[i + 1];
        assert forall i :: 1 <= i < |parents| ==> parents[i] == ps[i - 1];
      }
      assert (forall i :: 0 <= i < |parents| ==> parents[i] !in present) <==>
        parents[0] !in present && forall i :: 0 <= i < |ps| ==> ps[i] !in present by {
        assert forall i :: 0 <= i < |ps| ==> ps[i] == parents[i + 1];
        assert forall i :: 1 <= i < |parents| ==> parents[i] == ps[i - 1];
      }
    }
  }
}
