// The binary heap of node scores, as functions on sequences: what
// container/heap does with the repository's reversed Less
// (scheduler/schedule_one.go:921-941).
module ScoreOrder {
  import opened Common

  datatype PluginScore = PluginScore(plugin: string, score: int)

  datatype NodeScore = NodeScore(name: NodeName, scores: seq<PluginScore>, total: int)

  // The larger total comes first.
  predicate Less(s: seq<NodeScore>, i: nat, j: nat)
    requires i < |s| && j < |s|
  {
    s[i].total > s[j].total
  }

  function Swapped(s: seq<NodeScore>, i: nat, j: nat): seq<NodeScore>
    requires i < |s| && j < |s|
  {
    s[i := s[j]][j := s[i]]
  }

  function Parent(j: int): int {
    (j - 1) / 2
  }

  // The child of i that down compares with i.
  function FirstChild(s: seq<NodeScore>, i: nat, n: nat): (j: nat)
    requires n <= |s| && 2 * i + 1 < n
    ensures i < j < n
  {
    var j1 := 2 * i + 1;
    if j1 + 1 < n && Less(s, j1 + 1, j1) then j1 + 1 else j1
  }

  lemma FirstChildDominates(s: seq<NodeScore>, i: nat, n: nat)
    requires n <= |s| && 2 * i + 1 < n
    ensures Parent(FirstChild(s, i, n)) == i
    ensures forall c :: i < c < n && Parent(c) == i ==> s[FirstChild(s, i, n)].total >= s[c].total
  {
  }

  function Down(s: seq<NodeScore>, i: nat, n: nat): (r: seq<NodeScore>)
    requires n <= |s|
    ensures |r| == |s|
    decreases n - i
  {
    if 2 * i + 1 >= n then
      s
    else
      var j := FirstChild(s, i, n);
      if !Less(s, j, i) then s else Down(Swapped(s, i, j), j, n)
  }

  // Positions k-1, ..., 0 sifted down in that order.
  function Heapify(s: seq<NodeScore>, k: nat): (r: seq<NodeScore>)
    ensures |r| == |s|
    decreases k
  {
    if k == 0 then s else Heapify(Down(s, k - 1, |s|), k - 1)
  }

  function Heaped(s: seq<NodeScore>): (r: seq<NodeScore>)
    ensures |r| == |s|
  {
    Heapify(s, |s| / 2)
  }

  // What one heap.Pop leaves.
  function PopRest(h: seq<NodeScore>): (r: seq<NodeScore>)
    requires |h| > 0
    ensures |r| == |h| - 1
  {
    var m := |h| - 1;
    Down(Swapped(h, 0, m), 0, m)[..m]
  }

  // The order in which repeated heap.Pop delivers the elements.
  function Drain(h: seq<NodeScore>): (r: seq<NodeScore>)
    ensures |r| == |h|
    decreases |h|
  {
    if |h| == 0 then [] else [h[0]] + Drain(PopRest(h))
  }

  // ---------- the heap property ----------

  // Every edge below a parent at or after lo is in order.
  ghost predicate HeapFrom(s: seq<NodeScore>, lo: nat, n: nat)
    requires n <= |s|
  {
    forall j :: 0 < j < n && lo <= Parent(j) ==> s[Parent(j)].total >= s[j].total
  }

  // As HeapFrom, except for the edges below i; the parent of i still dominates
  // the children of i.
  ghost predicate HeapExcept(s: seq<NodeScore>, lo: nat, i: nat, n: nat)
    requires n <= |s|
  {
    && (forall j :: 0 < j < n && lo <= Parent(j) && Parent(j) != i ==> s[Parent(j)].total >= s[j].total)
    && (forall j :: 0 < j < n && Parent(j) == i && 0 < i && lo <= Parent(i) ==> s[Parent(i)].total >= s[j].total)
  }

  lemma SwapStep(s: seq<NodeScore>, lo: nat, i: nat, n: nat)
    requires n <= |s| && lo <= i && 2 * i + 1 < n
    requires HeapExcept(s, lo, i, n)
    requires Less(s, FirstChild(s, i, n), i)
    ensures HeapExcept(Swapped(s, i, FirstChild(s, i, n)), lo, FirstChild(s, i, n), n)
  {
    var c := FirstChild(s, i, n);
    var t := Swapped(s, i, c);
    FirstChildDominates(s, i, n);
    forall j | 0 < j < n && lo <= Parent(j) && Parent(j) != c
      ensures t[Parent(j)].total >= t[j].total
    {
      if j != i && j != c && Parent(j) != i {
        assert t[j] == s[j] && t[Parent(j)] == s[Parent(j)];
      }
    }
    forall j | 0 < j < n && Parent(j) == c
      ensures t[Parent(c)].total >= t[j].total
    {
      assert t[j] == s[j] && s[c].total >= s[j].total;
    }
  }

  lemma {:induction false} DownKeepsHeap(s: seq<NodeScore>, lo: nat, i: nat, n: nat)
    requires n <= |s| && lo <= i
    requires HeapExcept(s, lo, i, n)
    ensures HeapFrom(Down(s, i, n), lo, n)
    decreases n - i
  {
    if 2 * i + 1 >= n {
      assert forall j :: 0 < j < n ==> Parent(j) != i;
    } else {
      var j := FirstChild(s, i, n);
      if Less(s, j, i) {
        SwapStep(s, lo, i, n);
        DownKeepsHeap(Swapped(s, i, j), lo, j, n);
      }
    }
  }

  lemma SwapPermutes(s: seq<NodeScore>, i: nat, j: nat)
    requires i < |s| && j < |s|
    ensures multiset(Swapped(s, i, j)) == multiset(s)
  {
  }

  lemma {:induction false} DownPermutes(s: seq<NodeScore>, i: nat, n: nat)
    requires n <= |s|
    ensures multiset(Down(s, i, n)) == multiset(s)
    ensures Down(s, i, n)[n..] == s[n..]
    decreases n - i
  {
    if 2 * i + 1 < n {
      var j := FirstChild(s, i, n);
      if Less(s, j, i) {
        SwapPermutes(s, i, j);
        DownPermutes(Swapped(s, i, j), j, n);
        assert Swapped(s, i, j)[n..] == s[n..];
      }
    }
  }

  // down looks only at the first n elements.
  lemma {:induction false} DownPrefix(s: seq<NodeScore>, i: nat, n: nat)
    requires n <= |s|
    ensures Down(s, i, n)[..n] == Down(s[..n], i, n)
    decreases n - i
  {
    if 2 * i + 1 < n {
      var j := FirstChild(s, i, n);
      assert FirstChild(s[..n], i, n) == j;
      if Less(s, j, i) {
        DownPrefix(Swapped(s, i, j), j, n);
        assert Swapped(s, i, j)[..n] == Swapped(s[..n], i, j);
      }
    }
  }

  lemma {:induction false} HeapifyKeeps(s: seq<NodeScore>, k: nat)
    requires HeapFrom(s, k, |s|)
    ensures HeapFrom(Heapify(s, k), 0, |s|)
    ensures multiset(Heapify(s, k)) == multiset(s)
    decreases k
  {
    if k > 0 {
      assert HeapExcept(s, k - 1, k - 1, |s|);
      DownKeepsHeap(s, k - 1, k - 1, |s|);
      DownPermutes(s, k - 1, |s|);
      HeapifyKeeps(Down(s, k - 1, |s|), k - 1);
    }
  }

  // heap.Init establishes the heap property and loses nothing.
  lemma HeapedIsHeap(s: seq<NodeScore>)
    ensures HeapFrom(Heaped(s), 0, |s|)
    ensures multiset(Heaped(s)) == multiset(s)
  {
    HeapifyKeeps(s, |s| / 2);
  }

  lemma {:induction false} RootIsMax(h: seq<NodeScore>, j: nat)
    requires HeapFrom(h, 0, |h|) && j < |h|
    ensures h[0].total >= h[j].total
    decreases j
  {
    if j > 0 {
      RootIsMax(h, Parent(j));
    }
  }

  lemma SwapRootWithLast(h: seq<NodeScore>, m: nat)
    requires |h| == m + 1 && HeapFrom(h, 0, m + 1)
    ensures HeapExcept(Swapped(h, 0, m), 0, 0, m)
  {
  }

  lemma HeapPrefix(d: seq<NodeScore>, m: nat)
    requires m <= |d| && HeapFrom(d, 0, m)
    ensures HeapFrom(d[..m], 0, m)
  {
  }

  lemma PopRestIsHeap(h: seq<NodeScore>)
    requires |h| > 0 && HeapFrom(h, 0, |h|)
    ensures HeapFrom(PopRest(h), 0, |h| - 1)
  {
    var m := |h| - 1;
    SwapRootWithLast(h, m);
    DownKeepsHeap(Swapped(h, 0, m), 0, 0, m);
    HeapPrefix(Down(Swapped(h, 0, m), 0, m), m);
  }

  lemma PopRestKeepsOthers(h: seq<NodeScore>)
    requires |h| > 0
    ensures multiset(h) == multiset{h[0]} + multiset(PopRest(h))
  {
    var m := |h| - 1;
    var t := Swapped(h, 0, m);
    var d := Down(t, 0, m);
    DownPermutes(t, 0, m);
    SwapPermutes(h, 0, m);
    assert d == d[..m] + d[m..];
    assert d[m..] == [h[0]];
  }

  ghost predicate NonIncreasing(s: seq<NodeScore>) {
    forall i, j :: 0 <= i < j < |s| ==> s[i].total >= s[j].total
  }

  // Popping a heap until it is empty delivers every element once, best first.
  lemma {:induction false} DrainSorts(h: seq<NodeScore>)
    requires HeapFrom(h, 0, |h|)
    ensures NonIncreasing(Drain(h))
    ensures multiset(Drain(h)) == multiset(h)
    decreases |h|
  {
    if |h| > 0 {
      var rest := PopRest(h);
      PopRestIsHeap(h);
      PopRestKeepsOthers(h);
      DrainSorts(rest);
      var d := Drain(rest);
      forall j | 0 <= j < |d| ensures h[0].total >= d[j].total {
        assert d[j] in multiset(d);
        assert d[j] in multiset(h);
        var k :| 0 <= k < |h| && h[k] == d[j];
        RootIsMax(h, k);
      }
    }
  }
}
