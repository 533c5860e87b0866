// selectHost (scheduler/schedule_one.go:866-941): the heap that works in place
// on the caller's list, and the choice of a host among the best nodes.
module HostSelection {
  import opened Common
  import opened ScoreOrder
  import opened Reservoir

  // nodeScoreHeap with container/heap's Init and Pop.  The heap is a shrinking
  // prefix of the list it was made from, as the Go slice is.
  class NodeScoreHeap {
    var elems: array<NodeScore>
    var len: nat

    ghost predicate Valid()
      reads this
    {
      len <= elems.Length
    }

    ghost function Contents(): seq<NodeScore>
      requires Valid()
      reads this, elems
    {
      elems[..len]
    }

    constructor (list: array<NodeScore>)
      ensures Valid() && elems == list && len == list.Length
      ensures Contents() == list[..]
    {
      elems := list;
      len := list.Length;
    }

    method Swap(i: nat, j: nat)
      requires i < elems.Length && j < elems.Length
      modifies elems
      ensures elems[..] == Swapped(old(elems[..]), i, j)
    {
      elems[i], elems[j] := elems[j], elems[i];
    }

    method SiftDown(i0: nat, n: nat)
      requires n <= elems.Length
      modifies elems
      ensures elems[..] == Down(old(elems[..]), i0, n)
    {
      var i := i0;
      while 2 * i + 1 < n
        invariant Down(elems[..], i, n) == Down(old(elems[..]), i0, n)
        decreases n - i
      {
        var j := 2 * i + 1;
        if j + 1 < n && elems[j + 1].total > elems[j].total {
          j := j + 1;
        }
        assert j == FirstChild(elems[..], i, n);
        if !(elems[j].total > elems[i].total) {
          break;
        }
        Swap(i, j);
        i := j;
      }
    }

    method Init()
      requires Valid() && len == elems.Length
      modifies elems
      ensures elems[..] == Heaped(old(elems[..]))
    {
      var k := len / 2;
      while k > 0
        invariant 0 <= k
        invariant Heapify(elems[..], k) == Heaped(old(elems[..]))
      {
        SiftDown(k - 1, len);
        k := k - 1;
      }
    }

    method Pop() returns (x: NodeScore)
      requires Valid() && len > 0
      modifies this`len, elems
      ensures Valid() && elems == old(elems) && len == old(len) - 1
      ensures x == old(Contents())[0]
      ensures Contents() == PopRest(old(Contents()))
    {
      ghost var before := elems[..];
      var n := len - 1;
      Swap(0, n);
      ghost var swapped := elems[..];
      SiftDown(0, n);
      PopOnPrefix(before, n);
      DownPermutes(swapped, 0, n);
      assert elems[n] == elems[..][n..][0];
      assert elems[..n] == elems[..][..n];
      assert before[..n + 1] == old(elems[..len]);
      len := n;
      x := elems[n];
    }
  }

  lemma PopOnPrefix(a: seq<NodeScore>, n: nat)
    requires n < |a|
    ensures Down(Swapped(a, 0, n), 0, n)[..n] == PopRest(a[..n + 1])
  {
    DownPrefix(Swapped(a, 0, n), 0, n);
    DownPrefix(Swapped(a[..n + 1], 0, n), 0, n);
    assert Swapped(a, 0, n)[..n] == Swapped(a[..n + 1], 0, n)[..n];
  }

  // ---------- what selectHost returns ----------

  datatype Selection = Selection(host: NodeName, top: seq<NodeScore>)

  // The order in which the heap delivers the list.
  function PopOrder(list: seq<NodeScore>): (order: seq<NodeScore>)
    ensures |order| == |list|
  {
    Drain(Heaped(list))
  }

  // How many leading entries share the best total.
  function Ties(order: seq<NodeScore>): (k: nat)
    requires |order| > 0
    ensures 1 <= k <= |order|
  {
    TiesFrom(order, 1)
  }

  function TiesFrom(order: seq<NodeScore>, m: nat): (k: nat)
    requires 1 <= m <= |order|
    ensures m <= k <= |order|
    decreases |order| - m
  {
    if m < |order| && order[m].total == order[0].total then TiesFrom(order, m + 1) else m
  }

  lemma {:induction false} TiesFromMeaning(order: seq<NodeScore>, m: nat)
    requires 1 <= m <= |order|
    ensures forall j :: m <= j < TiesFrom(order, m) ==> order[j].total == order[0].total
    ensures TiesFrom(order, m) < |order| ==> order[TiesFrom(order, m)].total != order[0].total
    decreases |order| - m
  {
    if m < |order| && order[m].total == order[0].total {
      TiesFromMeaning(order, m + 1);
    }
  }

  function Select(list: seq<NodeScore>, count: nat, draws: seq<nat>): Selection
    requires |list| > 0 && count > 0
    requires |list| <= |draws| + 1
  {
    var order := PopOrder(list);
    var chosen := Chosen(draws, Ties(order));
    Selection(order[chosen].name, Swapped(order, 0, chosen)[..Min(count, |order|)])
  }

  lemma PopOrderSorts(list: seq<NodeScore>)
    ensures NonIncreasing(PopOrder(list))
    ensures multiset(PopOrder(list)) == multiset(list)
  {
    HeapedIsHeap(list);
    DrainSorts(Heaped(list));
  }

  // In a sorted order the ties are exactly the entries with the best total.
  lemma TieIffBest(order: seq<NodeScore>, j: nat)
    requires NonIncreasing(order) && j < |order|
    ensures order[j].total == order[0].total <==> j < Ties(order)
  {
    var k := Ties(order);
    TiesFromMeaning(order, 1);
    if k < j {
      assert order[0].total >= order[k].total >= order[j].total;
    } else if k == j {
      assert order[k].total != order[0].total;
    } else if j > 0 {
      assert 1 <= j < k;
    }
  }

  lemma SwapTiesKeepsOrder(order: seq<NodeScore>, c: nat)
    requires NonIncreasing(order) && |order| > 0 && c < Ties(order)
    ensures NonIncreasing(Swapped(order, 0, c))
    ensures forall j :: 0 <= j < |order| ==> Swapped(order, 0, c)[j].total == order[j].total
  {
    TieIffBest(order, c);
  }

  // The reported list has min(count, n) entries of the input, best first, none
  // of them worse than an entry left out; its head is the host and no node has
  // a better total than the host.
  lemma SelectReportsTheBest(list: seq<NodeScore>, count: nat, draws: seq<nat>)
    requires |list| > 0 && count > 0 && |list| <= |draws| + 1
    ensures var r := Select(list, count, draws);
      && |r.top| == Min(count, |list|)
      && NonIncreasing(r.top)
      && r.top[0].name == r.host
      && multiset(r.top) <= multiset(list)
      && (forall left, kept :: left in multiset(list) - multiset(r.top) && kept in r.top
                               ==> left.total <= kept.total)
      && (forall e :: e in list ==> e.total <= r.top[0].total)
  {
    var order := PopOrder(list);
    PopOrderSorts(list);
    var chosen := Chosen(draws, Ties(order));
    SwapTiesKeepsOrder(order, chosen);
    SwapPermutes(order, 0, chosen);
    TakeBest(Swapped(order, 0, chosen), Min(count, |list|));
    HeadIsBest(list, order);
  }

  // The host is the name of a best entry of the list.
  lemma SelectedIndex(list: seq<NodeScore>, count: nat, draws: seq<nat>) returns (h: nat)
    requires |list| > 0 && count > 0 && |list| <= |draws| + 1
    ensures h < |list| && list[h].name == Select(list, count, draws).host
    ensures forall i :: 0 <= i < |list| ==> list[i].total <= list[h].total
  {
    var r := Select(list, count, draws);
    SelectReportsTheBest(list, count, draws);
    assert r.top[0] in multiset(r.top);
    assert r.top[0] in multiset(list);
    h :| 0 <= h < |list| && list[h] == r.top[0];
  }

  lemma HeadIsBest(list: seq<NodeScore>, order: seq<NodeScore>)
    requires multiset(order) == multiset(list) && NonIncreasing(order)
    ensures forall e :: e in list ==> |order| > 0 && e.total <= order[0].total
  {
    forall e | e in list ensures |order| > 0 && e.total <= order[0].total {
      assert e in multiset(order);
      var i :| 0 <= i < |order| && order[i] == e;
      assert order[i].total <= order[0].total;
    }
  }

  lemma TakeBest(s: seq<NodeScore>, c: nat)
    requires NonIncreasing(s) && c <= |s|
    ensures NonIncreasing(s[..c])
    ensures multiset(s[..c]) <= multiset(s)
    ensures forall left, kept :: left in multiset(s) - multiset(s[..c]) && kept in s[..c] ==> left.total <= kept.total
  {
    SplitMultiset(s, c);
    forall left, kept | left in multiset(s[c..]) && kept in s[..c] ensures left.total <= kept.total {
      var i :| 0 <= i < c && s[i] == kept;
      var j :| c <= j < |s| && s[j] == left;
    }
  }

  lemma SplitMultiset<T>(s: seq<T>, c: nat)
    requires c <= |s|
    ensures multiset(s[..c]) <= multiset(s)
    ensures multiset(s) - multiset(s[..c]) == multiset(s[c..])
  {
    assert s == s[..c] + s[c..];
  }

  // ---------- the method ----------

  // The popping loop: sorted holds the entries popped so far, ns the entry in
  // hand, and the heap delivers the rest of the order.
  ghost predicate Popping(order: seq<NodeScore>, heap: seq<NodeScore>, sorted: seq<NodeScore>, ns: NodeScore) {
    && 1 <= |sorted| && |sorted| + 1 + |heap| == |order|
    && sorted == order[..|sorted|] && ns == order[|sorted|]
    && Drain(heap) == order[|sorted| + 1..]
  }

  lemma FirstPops(heap: seq<NodeScore>, rest: seq<NodeScore>, rest2: seq<NodeScore>)
    requires |heap| >= 2 && rest == PopRest(heap) && rest2 == PopRest(rest)
    ensures Popping(Drain(heap), rest2, [heap[0]], rest[0])
  {
    TwoHeads(heap[0], rest[0], Drain(rest2), Drain(heap));
  }

  lemma TwoHeads<T>(a: T, b: T, later: seq<T>, all: seq<T>)
    ensures all == [a] + ([b] + later) ==> all[..1] == [a] && all[1] == b && all[2..] == later
  {
  }

  // Appending the entry in hand; if the heap still holds entries, popping one
  // restores the loop's state.
  lemma Appended(order: seq<NodeScore>, heap: seq<NodeScore>, sorted: seq<NodeScore>, ns: NodeScore)
    requires Popping(order, heap, sorted, ns)
    ensures sorted + [ns] == order[..|sorted| + 1]
    ensures |heap| > 0 ==> Popping(order, PopRest(heap), sorted + [ns], heap[0])
  {
    if |heap| > 0 {
      assert Drain(heap) == [heap[0]] + Drain(PopRest(heap));
      assert order[|sorted| + 2..] == order[|sorted| + 1..][1..];
    }
  }

  // The entry in hand is a tie exactly while the ties are not used up.
  lemma HeldTie(order: seq<NodeScore>, heap: seq<NodeScore>, sorted: seq<NodeScore>, ns: NodeScore)
    requires Popping(order, heap, sorted, ns) && NonIncreasing(order)
    ensures ns.total == sorted[0].total <==> |sorted| < Ties(order)
  {
    TieIffBest(order, |sorted|);
  }

  // The two exits of the loop: both leave enough of the order to report from.
  lemma ReportFrom(order: seq<NodeScore>, sorted: seq<NodeScore>, chosen: nat, count: nat)
    requires |sorted| <= |order| && sorted == order[..|sorted|]
    requires chosen < |sorted| && (|sorted| == |order| || |sorted| == count)
    ensures Swapped(sorted, 0, chosen)[..Min(count, |sorted|)] == Swapped(order, 0, chosen)[..Min(count, |order|)]
    ensures Swapped(sorted, 0, chosen)[0].name == order[chosen].name
  {
  }

  // The entry in hand is the popped-th; if it is a tie, it replaces the candidate with
  // probability 1/cntOfMaxScore.
  method Consider(draws: seq<nat>, isTie: bool, ghost k: nat, ghost popped: nat, cnt: nat, candidate: nat)
    returns (cntOfMaxScore: nat, selectedIndex: nat)
    requires 1 <= k <= |draws| + 1 && 1 <= popped && (isTie <==> popped < k)
    requires cnt == Min(popped, k) && candidate == Chosen(draws, cnt)
    ensures cntOfMaxScore == Min(popped + 1, k) && selectedIndex == Chosen(draws, cntOfMaxScore)
  {
    cntOfMaxScore, selectedIndex := cnt, candidate;
    if isTie {
      cntOfMaxScore := cntOfMaxScore + 1;
      if draws[cntOfMaxScore - 2] == 0 {
        selectedIndex := cntOfMaxScore - 1;
      }
    }
  }

  // The loop's state: the entries popped so far, and the choice among their ties.
  ghost predicate Sampling(order: seq<NodeScore>, heap: seq<NodeScore>, sorted: seq<NodeScore>, ns: NodeScore,
                           draws: seq<nat>, cntOfMaxScore: nat, selectedIndex: nat)
    requires 0 < |order| <= |draws| + 1
  {
    && Popping(order, heap, sorted, ns)
    && cntOfMaxScore == Min(|sorted|, Ties(order))
    && selectedIndex == Chosen(draws, cntOfMaxScore)
  }

  // Both exits of the loop have met every tie.
  lemma LoopExit(order: seq<NodeScore>, heap: seq<NodeScore>, sorted: seq<NodeScore>, ns: NodeScore, draws: seq<nat>,
                 cntOfMaxScore: nat, selectedIndex: nat)
    requires 0 < |order| <= |draws| + 1 && NonIncreasing(order)
    requires Sampling(order, heap, sorted, ns, draws, cntOfMaxScore, selectedIndex)
    requires ns.total != sorted[0].total
    ensures selectedIndex < |sorted| && selectedIndex == Chosen(draws, Ties(order))
    ensures |sorted| <= |order| && sorted == order[..|sorted|]
  {
    HeldTie(order, heap, sorted, ns);
  }

  method PopTwo(h: NodeScoreHeap, ghost order: seq<NodeScore>) returns (sorted: seq<NodeScore>, ns: NodeScore)
    requires h.Valid() && h.len >= 2 && Drain(h.Contents()) == order
    modifies h`len, h.elems
    ensures h.Valid() && h.elems == old(h.elems) && |sorted| == 1
    ensures Popping(order, h.Contents(), sorted, ns)
  {
    ghost var heap := h.Contents();
    var first := h.Pop();
    sorted := [first];
    ns := h.Pop();
    FirstPops(heap, PopRest(heap), h.Contents());
  }

  // The loop of selectHost, from the first two pops on.
  method PopTheBest(h: NodeScoreHeap, count: nat, draws: seq<nat>, ghost order: seq<NodeScore>)
    returns (sorted: seq<NodeScore>, selectedIndex: nat)
    requires h.Valid() && h.len >= 2 && count > 0
    requires Drain(h.Contents()) == order && NonIncreasing(order)
    requires |order| <= |draws| + 1
    modifies h`len, h.elems
    ensures |sorted| <= |order| && sorted == order[..|sorted|]
    ensures |sorted| == |order| || |sorted| == count
    ensures selectedIndex < |sorted| && selectedIndex == Chosen(draws, Ties(order))
  {
    var cntOfMaxScore := 1;
    selectedIndex := 0;
    var ns;
    sorted, ns := PopTwo(h, order);
    while true
      invariant h.Valid() && h.elems == old(h.elems)
      invariant Sampling(order, h.Contents(), sorted, ns, draws, cntOfMaxScore, selectedIndex)
      decreases h.len
    {
      if ns.total != sorted[0].total && |sorted| == count {
        LoopExit(order, h.Contents(), sorted, ns, draws, cntOfMaxScore, selectedIndex);
        return;
      }
      HeldTie(order, h.Contents(), sorted, ns);
      cntOfMaxScore, selectedIndex :=
        Consider(draws, ns.total == sorted[0].total, Ties(order), |sorted|, cntOfMaxScore, selectedIndex);
      Appended(order, h.Contents(), sorted, ns);
      sorted := sorted + [ns];
      if h.len == 0 {
        return;
      }
      ns := h.Pop();
    }
  }

  // None is the errEmptyPriorityList outcome.  The source pops a second element
  // unconditionally, so a list of one entry is outside its domain; so is a
  // count of zero, for which it indexes an empty slice.
  method SelectHost(list: array<NodeScore>, count: nat, draws: seq<nat>) returns (r: Option<Selection>)
    requires list.Length != 1 && count > 0
    requires list.Length <= |draws| + 1
    modifies list
    ensures r.None? <==> list.Length == 0
    ensures r.Some? ==> r.value == Select(old(list[..]), count, draws)
  {
    if list.Length == 0 {
      return None;
    }
    ghost var order := PopOrder(list[..]);
    PopOrderSorts(list[..]);
    var h := new NodeScoreHeap(list);
    h.Init();
    assert h.Contents() == list[..];
    var sorted, selectedIndex := PopTheBest(h, count, draws, order);
    ReportFrom(order, sorted, selectedIndex, count);
    if selectedIndex != 0 {
      // replace the first one with the selected one
      var previous := sorted[0];
      sorted := sorted[0 := sorted[selectedIndex]][selectedIndex := previous];
    }
    if |sorted| > count {
      sorted := sorted[..count];
    }
    r := Some(Selection(sorted[0].name, sorted));
  }

  // ---------- uniformity over nodes ----------

  lemma MultiplicityOfDistinct<T>(s: seq<T>, x: T)
    requires Distinct(s)
    ensures multiset(s)[x] <= 1
  {
    if x in s {
      var i :| 0 <= i < |s| && s[i] == x;
      assert s == s[..i] + [x] + s[i + 1..];
      assert x !in s[..i] && x !in s[i + 1..];
    }
  }

  lemma DistinctFromMultiplicity<T>(s: seq<T>)
    requires forall x :: multiset(s)[x] <= 1
    ensures Distinct(s)
  {
    forall i, j | 0 <= i < j < |s| ensures s[i] != s[j] {
      assert s == s[..i] + [s[i]] + s[i + 1..j] + [s[j]] + s[j + 1..];
      assert multiset(s)[s[i]] >= 1 + (if s[i] == s[j] then 1 else 0);
    }
  }

  ghost predicate NamesDistinct(list: seq<NodeScore>) {
    forall i, j :: 0 <= i < j < |list| ==> list[i].name != list[j].name
  }

  ghost function Best(list: seq<NodeScore>): set<NodeScore> {
    set e | e in list && forall x :: x in list ==> x.total <= e.total
  }

  lemma PopOrderDistinct(list: seq<NodeScore>)
    requires NamesDistinct(list)
    ensures Distinct(PopOrder(list)) && NamesDistinct(PopOrder(list))
  {
    var order := PopOrder(list);
    PopOrderSorts(list);
    assert Distinct(list);
    forall x ensures multiset(order)[x] <= 1 {
      MultiplicityOfDistinct(list, x);
    }
    DistinctFromMultiplicity(order);
    forall i, j | 0 <= i < j < |order| ensures order[i].name != order[j].name {
      assert order[i] in multiset(list) && order[j] in multiset(list);
    }
  }

  lemma BestOfOrder(order: seq<NodeScore>)
    requires NonIncreasing(order) && |order| > 0
    ensures Elements(order[..Ties(order)]) == Best(order)
  {
    var k := Ties(order);
    forall i | 0 <= i < |order| ensures order[i] in Best(order) <==> order[i].total == order[0].total {
      assert order[0].total >= order[i].total;
    }
    forall i | 0 <= i < |order| ensures order[i] in Best(order) <==> i < k {
      TieIffBest(order, i);
    }
  }

  lemma BestOfPermutation(a: seq<NodeScore>, b: seq<NodeScore>)
    requires multiset(a) == multiset(b)
    ensures Best(a) == Best(b)
  {
    assert forall e :: e in a <==> e in multiset(a);
    assert forall e :: e in b <==> e in multiset(b);
  }

  // The tied entries are exactly the best entries of the list.
  lemma TiesAreBest(list: seq<NodeScore>)
    requires |list| > 0 && NamesDistinct(list)
    ensures var order := PopOrder(list);
      Elements(order[..Ties(order)]) == Best(list) && Ties(order) == |Best(list)|
  {
    var order := PopOrder(list);
    PopOrderSorts(list);
    PopOrderDistinct(list);
    BestOfOrder(order);
    BestOfPermutation(order, list);
    DistinctSize(order[..Ties(order)]);
  }

  // The host is the t-th tied node exactly for the draws that choose t.
  lemma HostIsChosen(list: seq<NodeScore>, count: nat, t: nat, d: seq<nat>, padding: seq<nat>)
    requires |list| > 0 && count > 0 && NamesDistinct(list)
    requires |padding| >= |list| && t < Ties(PopOrder(list))
    requires d in DrawSpace(Ties(PopOrder(list)))
    ensures Select(list, count, d + padding).host == PopOrder(list)[t].name
       <==> d in Selecting(Ties(PopOrder(list)), t)
  {
    var k := Ties(PopOrder(list));
    PopOrderDistinct(list);
    DrawSpaceMember(k, d);
    ChosenIgnoresTail(d, padding, k);
  }

  // The draws that make best the host; any further draws are not looked at.
  ghost function Hosting(list: seq<NodeScore>, count: nat, k: nat, best: NodeScore, padding: seq<nat>): set<seq<nat>>
    requires k > 0 && |list| > 0 && count > 0 && |padding| >= |list|
  {
    set d | d in DrawSpace(k) && Select(list, count, d + padding).host == best.name
  }

  lemma HostingIsSelecting(list: seq<NodeScore>, count: nat, t: nat, padding: seq<nat>)
    requires |list| > 0 && count > 0 && NamesDistinct(list)
    requires |padding| >= |list| && t < Ties(PopOrder(list))
    ensures var k := Ties(PopOrder(list));
      Hosting(list, count, k, PopOrder(list)[t], padding) == Selecting(k, t)
  {
    var k := Ties(PopOrder(list));
    var hosting, selecting := Hosting(list, count, k, PopOrder(list)[t], padding), Selecting(k, t);
    forall d ensures d in hosting <==> d in selecting {
      if d in DrawSpace(k) {
        HostIsChosen(list, count, t, d, padding);
      }
    }
  }

  // Every node with the best total is the host for exactly (k-1)! of the k!
  // possible sequences of draws, k being the number of such nodes, whatever
  // the number of nodes to report.
  lemma EveryBestNodeEquallyLikely(list: seq<NodeScore>, count: nat, best: NodeScore, padding: seq<nat>)
    requires |list| > 0 && count > 0 && NamesDistinct(list) && best in Best(list)
    requires |padding| >= |list|
    ensures |Best(list)| > 0
    ensures |DrawSpace(|Best(list)|)| == Factorial(|Best(list)|)
    ensures |Hosting(list, count, |Best(list)|, best, padding)| == Factorial(|Best(list)| - 1)
  {
    var k := Ties(PopOrder(list));
    TiesAreBest(list);
    var t := TieIndex(PopOrder(list), best);
    HostingIsSelecting(list, count, t, padding);
    SelectionIsUniform(k, t);
    DrawSpaceSize(k);
  }

  lemma TieIndex(order: seq<NodeScore>, best: NodeScore) returns (t: nat)
    requires |order| > 0 && best in Elements(order[..Ties(order)])
    ensures t < Ties(order) && order[t] == best
  {
    t :| t < Ties(order) && order[t] == best;
  }

  lemma {:induction false} ChosenIgnoresTail(d: seq<nat>, tail: seq<nat>, k: nat)
    requires k <= |d| + 1
    ensures Chosen(d + tail, k) == Chosen(d, k)
  {
    if k > 1 {
      ChosenIgnoresTail(d, tail, k - 1);
    }
  }
}
