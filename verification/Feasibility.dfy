// What one run of findNodesThatPassFilters (scheduler/schedule_one.go:581-663)
// returns: the feasible nodes and the rejections it records.
module Feasibility {
  import opened Common
  import opened FilterSearch
  import opened RoundRobin
  import opened Extenders

  // ---------- the rejections of one search ----------

  ghost function RejectedPieces(rejected: seq<Option<Status>>, k: nat): set<nat>
    requires k <= |rejected|
  {
    set i: nat | i < k && rejected[i].Some?
  }

  ghost function Recorded(t: Task, rejected: seq<Option<Status>>, k: nat): Statuses
    requires |rejected| == |t.nodes| && k <= |t.nodes|
  {
    if k == 0 then map[]
    else if rejected[k - 1].Some? then Recorded(t, rejected, k - 1)[t.At(k - 1) := rejected[k - 1].value]
    else Recorded(t, rejected, k - 1)
  }

  ghost predicate Sound(t: Task, rejected: seq<Option<Status>>) {
    && |rejected| == |t.nodes|
    && forall i: nat :: i < |t.nodes| && rejected[i].Some? ==>
         rejected[i].value == t.Verdict(i) && !t.Passes(i) && !t.Faults(i)
  }

  // Exactly the nodes of the rejected pieces are recorded, each with its verdict.
  lemma {:induction false} RecordedMeaning(t: Task, rejected: seq<Option<Status>>, k: nat)
    requires Sound(t, rejected) && k <= |t.nodes|
    ensures var m := Recorded(t, rejected, k);
      && m.Keys == Image(Ring(t), RejectedPieces(rejected, k))
      && forall n :: n in m ==> m[n] == t.filter(n) && m[n].code != Success && m[n].code != Error
  {
    if k > 0 {
      RecordedMeaning(t, rejected, k - 1);
      if rejected[k - 1].Some? {
        assert RejectedPieces(rejected, k) == RejectedPieces(rejected, k - 1) + {k - 1};
        assert Ring(t)[k - 1] == t.At(k - 1);
      } else {
        assert RejectedPieces(rejected, k) == RejectedPieces(rejected, k - 1);
      }
    }
  }

  // ---------- what one search returns ----------

  // found and recorded as the result of searching t with the filter plugins.
  ghost predicate Searched(t: Task, found: seq<NodeName>, recorded: Statuses, err: Option<string>, interrupted: bool) {
    && Distinct(found) && |found| <= t.quota
    && Elements(found) <= PassingNodes(t)
    && recorded.Keys <= Elements(t.nodes)
    && (forall n :: n in recorded ==>
          recorded[n] == t.filter(n) && recorded[n].code != Success && recorded[n].code != Error)
    && (err.Some? ==> exists n :: n in t.nodes && t.filter(n).code == Error && err.value == ErrorText(t.filter(n)))
    && (err.None? && !interrupted ==> |found| == Min(t.quota, |PassingNodes(t)|))
    && (err.None? && !interrupted && |found| < t.quota ==> Elements(found) + recorded.Keys == Elements(t.nodes))
  }

  // The same of a search that ran its pieces in order: it is fixed by the task.
  ghost predicate SearchedInOrder(t: Task, found: seq<NodeName>, recorded: Statuses, err: Option<string>) {
    var r := InOrder(t);
    && (forall k :: 0 <= k < |r.found| ==> r.found[k] < |t.nodes|)
    && found == NodesAt(t, r.found)
    && |found| + |recorded| == r.processed
    && Elements(found) + recorded.Keys == FirstNodes(t, r.processed)
    && (err.Some? <==> r.processed < |t.nodes| && t.Faults(r.processed))
  }

  lemma ErrorIsFromANode(t: Task, s: Search)
    requires Inv(t, s) && s.error.Some?
    ensures exists n :: n in t.nodes && t.filter(n).code == Error && s.error.value == ErrorText(t.filter(n))
  {
  }

  lemma NothingLeftOut(t: Task, s: Search)
    requires Inv(t, s) && Quiescent(s) && Distinct(t.nodes)
    requires s.error.None? && !s.outside && |s.owners| < t.quota
    ensures forall k :: 0 <= k < |s.owners| ==> s.owners[k] < |t.nodes|
    ensures Elements(Found(t, s)) + Recorded(t, s.rejected, |t.nodes|).Keys == Elements(t.nodes)
  {
    var n := |t.nodes|;
    RecordedRejections(t, s);
    RecordedMeaning(t, s.rejected, n);
    FoundNodesPass(t, s);
    RingIsPermutation(t);
    var all := Elements(Found(t, s)) + Recorded(t, s.rejected, n).Keys;
    forall i: nat | i < n ensures Ring(t)[i] in all {
      if t.Passes(i) {
        assert PieceInv(t, s, i);
        var k :| 0 <= k < |s.owners| && s.owners[k] == i;
        assert Found(t, s)[k] == Ring(t)[i];
      } else {
        assert i in RejectedPieces(s.rejected, n);
      }
    }
  }

  lemma SearchResult(t: Task, s: Search)
    requires Inv(t, s) && Quiescent(s) && Distinct(t.nodes)
    ensures forall k :: 0 <= k < |s.owners| ==> s.owners[k] < |t.nodes|
    ensures Searched(t, Found(t, s), Recorded(t, s.rejected, |t.nodes|), s.error, s.outside)
  {
    FoundNodesPass(t, s);
    RecordedRejections(t, s);
    RecordedMeaning(t, s.rejected, |t.nodes|);
    RingIsPermutation(t);
    if s.error.Some? {
      ErrorIsFromANode(t, s);
    } else if !s.outside {
      FoundEnough(t, s);
      if |s.owners| < t.quota {
        NothingLeftOut(t, s);
      }
    }
  }

  // A search that ran its pieces one at a time.
  ghost predicate RanInOrder(t: Task, s: Search) {
    && Inv(t, s) && s.owners == InOrder(t).found
    && (s.error.Some? <==> InOrder(t).processed < |t.nodes| && t.Faults(InOrder(t).processed))
    && forall i: nat :: i < |t.nodes| ==> (s.rejected[i].Some? <==> i < InOrder(t).processed && !t.Passes(i))
  }

  // Pieces a are rejected and pieces b found, and together they are the first p.
  lemma WindowSplits(t: Task, a: set<nat>, found: seq<nat>, p: nat)
    requires p <= |t.nodes| && Distinct(t.nodes) && Distinct(found)
    requires a !! Elements(found) && forall i: nat :: i in a || i in found <==> i < p
    ensures |found| + |Image(Ring(t), a)| == p
    ensures Image(Ring(t), a) + Image(Ring(t), Elements(found)) == FirstNodes(t, p)
  {
    DistinctSize(found);
    RingIsPermutation(t);
    ImageSize(Ring(t), a);
    PartitionSize(a, Elements(found), p);
    ImageUnion(Ring(t), a, Elements(found), Below(p));
  }

  // The pieces a search in order rejects and finds are the first processed ones.
  lemma PiecesInOrder(t: Task, s: Search)
    requires RanInOrder(t, s)
    ensures var a := RejectedPieces(s.rejected, |t.nodes|);
      && InOrder(t).processed <= |t.nodes| && Distinct(s.owners)
      && a !! Elements(s.owners)
      && forall i: nat :: i in a || i in s.owners <==> i < InOrder(t).processed
  {
    InOrderMeaning(t);
    var a, p := RejectedPieces(s.rejected, |t.nodes|), InOrder(t).processed;
    forall i: nat ensures i in s.owners <==> i < p && t.Passes(i) {
      assert i in Elements(s.owners) <==> i in PassingBelow(t, p);
    }
    forall i: nat ensures i in a <==> i < p && !t.Passes(i) {
    }
  }

  // It recorded exactly the nodes of its window.
  lemma InOrderCount(t: Task, s: Search)
    requires RanInOrder(t, s) && Distinct(t.nodes) && Sound(t, s.rejected)
    ensures forall k :: 0 <= k < |s.owners| ==> s.owners[k] < |t.nodes|
    ensures SearchedInOrder(t, Found(t, s), Recorded(t, s.rejected, |t.nodes|), s.error)
  {
    RecordedMeaning(t, s.rejected, |t.nodes|);
    FoundIsImage(t, s);
    PiecesInOrder(t, s);
    WindowSplits(t, RejectedPieces(s.rejected, |t.nodes|), s.owners, InOrder(t).processed);
  }

  lemma FoundIsImage(t: Task, s: Search)
    requires Inv(t, s)
    ensures forall k :: 0 <= k < |s.owners| ==> s.owners[k] < |t.nodes|
    ensures Elements(Found(t, s)) == Image(Ring(t), Elements(s.owners))
  {
    OwnersInRange(t, s);
    var found := Found(t, s);
    forall k | 0 <= k < |found| ensures found[k] in Image(Ring(t), Elements(s.owners)) {
      assert Ring(t)[s.owners[k]] == found[k];
    }
    forall i | i in Elements(s.owners) ensures Ring(t)[i] in Elements(found) {
      var k :| 0 <= k < |s.owners| && s.owners[k] == i;
      assert found[k] == Ring(t)[i];
    }
  }

  lemma ImageUnion(r: seq<NodeName>, a: set<nat>, b: set<nat>, c: set<nat>)
    requires forall i :: i in c ==> i < |r|
    requires forall i: nat :: i in a || i in b <==> i in c
    ensures Image(r, a) + Image(r, b) == Image(r, c)
  {
  }

  lemma PartitionSize(a: set<nat>, b: set<nat>, p: nat)
    requires a !! b && forall i: nat :: i in a || i in b <==> i < p
    ensures |a| + |b| == p
  {
    var indices := seq(p, (i: nat) => i);
    DistinctSize(indices);
    forall i | i in a + b ensures i in Elements(indices) {
      assert indices[i] == i;
    }
    assert Elements(indices) == a + b;
  }
}
