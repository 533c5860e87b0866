// The parallel feasibility search of findNodesThatPassFilters
// (scheduler/schedule_one.go:606-662) as a transition system.  Each of the
// numAllNodes pieces of work runs checkNode in several atomic steps; the pieces
// of different goroutines interleave in any order.
module FilterSearch {
  import opened Common

  // One call of the search: the nodes, where the ring starts, how many feasible
  // nodes are wanted, and the verdict of the filter plugins on each node.
  datatype Task = Task(nodes: seq<NodeName>, start: nat, quota: nat, filter: NodeName -> Status)
  {
    // The node that piece i looks at.
    function At(i: nat): NodeName
      requires i < |nodes|
    {
      nodes[(start + i) % |nodes|]
    }

    function Verdict(i: nat): Status
      requires i < |nodes|
    {
      filter(At(i))
    }

    predicate Passes(i: nat)
      requires i < |nodes|
    {
      Verdict(i).code == Success
    }

    predicate Faults(i: nat)
      requires i < |nodes|
    {
      Verdict(i).code == Error
    }
  }

  // What an atomic add of 1 to a counter that is never negative returns.
  type Added = x: int | x > 0 witness 1

  // Where one piece of work is.
  datatype Piece =
    | Idle                   // not started
    | Checking               // about to run the filter plugins
    | Passing                // the node passed; about to add 1 to the counter
    | Claimed(length: Added) // the add returned length
    | Undoing                // cancelled the search; about to subtract 1
    | Faulted                // sent its error; about to cancel
    | Done

  // counter is the atomic feasibleNodesLen; feasible and rejected are the shared
  // slices.  owners is history: owners[k] is the piece whose add made slot k its own.
  datatype Search = Search(
    pieces: seq<Piece>,
    counter: int,
    cancelled: bool,
    error: Option<string>,
    feasible: seq<Option<NodeName>>,
    rejected: seq<Option<Status>>,
    owners: seq<nat>,
    outside: bool)

  function InitialSearch(t: Task): Search {
    Search(seq(|t.nodes|, _ => Idle), 0, false, None,
           seq(t.quota, _ => None), seq(|t.nodes|, _ => None), [], false)
  }

  predicate Shaped(t: Task, s: Search) {
    |s.pieces| == |t.nodes| && |s.rejected| == |t.nodes| && |s.feasible| == t.quota
  }

  // Until starts no piece once its context is cancelled, and joins the started ones.
  predicate CanStep(t: Task, s: Search, i: nat) {
    i < |s.pieces| && !s.pieces[i].Done? && (s.pieces[i].Idle? ==> !s.cancelled)
  }

  predicate Quiescent(s: Search) {
    forall i :: 0 <= i < |s.pieces| ==> s.pieces[i].Done? || (s.pieces[i].Idle? && s.cancelled)
  }

  // The next atomic step of piece i.
  function Step(t: Task, s: Search, i: nat): Search
    requires Shaped(t, s) && s.counter >= 0 && CanStep(t, s, i)
  {
    match s.pieces[i]
    case Idle =>
      s.(pieces := s.pieces[i := Checking])
    case Checking =>
      if t.Faults(i) then
        // errCh keeps the first error only
        s.(pieces := s.pieces[i := Faulted], error := if s.error.None? then Some(ErrorText(t.Verdict(i))) else s.error)
      else if t.Passes(i) then
        s.(pieces := s.pieces[i := Passing])
      else
        s.(pieces := s.pieces[i := Done], rejected := s.rejected[i := Some(t.Verdict(i))])
    case Passing =>
      s.(pieces := s.pieces[i := Claimed(s.counter + 1)],
         counter := s.counter + 1,
         owners := if s.counter + 1 <= t.quota then s.owners + [i] else s.owners)
    case Claimed(length) =>
      if length > t.quota then
        s.(pieces := s.pieces[i := Undoing], cancelled := true)
      else
        s.(pieces := s.pieces[i := Done], feasible := s.feasible[length - 1 := Some(t.At(i))])
    case Undoing =>
      s.(pieces := s.pieces[i := Done], counter := s.counter - 1)
    case Faulted =>
      s.(pieces := s.pieces[i := Done], cancelled := true)
  }

  function ErrorText(status: Status): string {
    if |status.reasons| == 0 then "" else status.reasons[0]
  }

  // The caller's context is cancelled.
  function CancelOutside(s: Search): Search {
    s.(cancelled := true, outside := true)
  }

  // ---------- the invariant ----------

  predicate IsOver(t: Task, p: Piece) {
    p.Undoing? || (p.Claimed? && p.length > t.quota)
  }

  // The pieces whose add overshot the quota and is not undone yet.
  ghost function Over(t: Task, pieces: seq<Piece>): set<nat> {
    set i: nat | i < |pieces| && IsOver(t, pieces[i])
  }

  // The counter counts the kept claims and the pending overshoots, and there is
  // an overshoot only once every slot is claimed.
  ghost predicate CounterInv(t: Task, s: Search) {
    && s.counter == |s.owners| + |Over(t, s.pieces)|
    && |s.owners| <= t.quota
    && (Over(t, s.pieces) != {} ==> |s.owners| == t.quota)
  }

  // Slots and owners correspond one to one; a slot is empty until its owner has
  // written it.
  ghost predicate OwnersInv(t: Task, s: Search)
    requires Shaped(t, s)
  {
    && Distinct(s.owners)
    && (forall k :: 0 <= k < |s.owners| ==> OwnerInv(t, s, k))
    && (forall k :: |s.owners| <= k < t.quota ==> s.feasible[k] == None)
  }

  ghost predicate OwnerInv(t: Task, s: Search, k: nat)
    requires Shaped(t, s) && k < |s.owners|
  {
    var i := s.owners[k];
    && i < |s.pieces| && k < t.quota && t.Passes(i)
    && (s.pieces[i] == Claimed(k + 1) || s.pieces[i] == Done)
    && s.feasible[k] == (if s.pieces[i] == Done then Some(t.At(i)) else None)
  }

  ghost predicate PieceInv(t: Task, s: Search, i: nat)
    requires Shaped(t, s) && i < |s.pieces|
  {
    && (s.rejected[i] == if s.pieces[i].Done? && !t.Passes(i) && !t.Faults(i) then Some(t.Verdict(i)) else None)
    && match s.pieces[i]
       case Idle => i !in s.owners
       case Checking => i !in s.owners
       case Passing => t.Passes(i) && i !in s.owners
       case Claimed(length) =>
         && t.Passes(i)
         && (if length > t.quota then i !in s.owners
             else length <= |s.owners| && s.owners[length - 1] == i)
       case Undoing => t.Passes(i) && i !in s.owners && s.cancelled
       case Faulted => t.Faults(i) && s.error.Some?
       case Done =>
         && (t.Passes(i) ==> i in s.owners || (|s.owners| == t.quota && s.cancelled))
         && (t.Faults(i) ==> s.error.Some? && s.cancelled)
  }

  ghost predicate PiecesInv(t: Task, s: Search)
    requires Shaped(t, s)
  {
    forall i :: 0 <= i < |s.pieces| ==> PieceInv(t, s, i)
  }

  // Who may have cancelled the search, and where an error came from.
  ghost predicate CancelInv(t: Task, s: Search) {
    && (s.cancelled ==> s.outside || s.error.Some? || |s.owners| == t.quota)
    && (s.error.Some? ==> exists i: nat :: i < |t.nodes| && t.Faults(i) && s.error.value == ErrorText(t.Verdict(i)))
  }

  ghost predicate Inv(t: Task, s: Search) {
    Shaped(t, s) && CounterInv(t, s) && OwnersInv(t, s) && PiecesInv(t, s) && CancelInv(t, s)
  }

  lemma InitialInv(t: Task)
    ensures Inv(t, InitialSearch(t))
  {
  }

  lemma OutsideKeepsInv(t: Task, s: Search)
    requires Inv(t, s)
    ensures Inv(t, CancelOutside(s))
  {
    var s' := CancelOutside(s);
    assert Over(t, s'.pieces) == Over(t, s.pieces);
    assert forall k :: 0 <= k < |s.owners| ==> OwnerInv(t, s, k) ==> OwnerInv(t, s', k);
    assert forall i :: 0 <= i < |s.pieces| ==> PieceInv(t, s, i) ==> PieceInv(t, s', i);
  }

  // ---------- every step keeps the invariant ----------

  lemma OverAfter(t: Task, pieces: seq<Piece>, i: nat, p: Piece)
    requires i < |pieces|
    ensures |Over(t, pieces[i := p])|
         == |Over(t, pieces)| + (if IsOver(t, p) then 1 else 0) - (if IsOver(t, pieces[i]) then 1 else 0)
  {
    var before, after := Over(t, pieces), Over(t, pieces[i := p]);
    assert before - {i} == after - {i};
    assert i in before <==> IsOver(t, pieces[i]);
    assert i in after <==> IsOver(t, p);
    assert |before - {i}| == |before| - (if i in before then 1 else 0);
  }

  lemma StepKeepsCounter(t: Task, s: Search, i: nat)
    requires Inv(t, s) && CanStep(t, s, i)
    ensures CounterInv(t, Step(t, s, i))
  {
    var p := Step(t, s, i).pieces[i];
    OverAfter(t, s.pieces, i, p);
    AddReturns(t, s);
    assert PieceInv(t, s, i);
    assert Step(t, s, i).pieces == s.pieces[i := p];
    if IsOver(t, s.pieces[i]) {
      assert i in Over(t, s.pieces);
    }
  }

  // The value an add returns: the next free slot, or more than the quota.
  lemma AddReturns(t: Task, s: Search)
    requires Inv(t, s)
    ensures s.counter >= 0
    ensures s.counter + 1 <= t.quota ==> s.counter == |s.owners|
    ensures s.counter + 1 > t.quota ==> |s.owners| == t.quota
  {
  }

  lemma OwnerKept(t: Task, s: Search, i: nat, k: nat)
    requires Inv(t, s) && CanStep(t, s, i) && k < |s.owners|
    ensures OwnerInv(t, Step(t, s, i), k)
  {
    assert PieceInv(t, s, i);
    assert OwnerInv(t, s, k);
    if s.owners[k] == i {
      assert s.pieces[i].Claimed? ==> s.pieces[i].length == k + 1;
    }
  }

  lemma StepKeepsOwners(t: Task, s: Search, i: nat)
    requires Inv(t, s) && CanStep(t, s, i)
    ensures OwnersInv(t, Step(t, s, i))
  {
    var s' := Step(t, s, i);
    AddReturns(t, s);
    assert PieceInv(t, s, i);
    forall k | 0 <= k < |s.owners| ensures OwnerInv(t, s', k) {
      OwnerKept(t, s, i, k);
    }
    if s.pieces[i].Passing? && s.counter + 1 <= t.quota {
      assert OwnerInv(t, s', |s.owners|);
    }
  }

  // What a step of one piece may change that the others depend on.
  ghost predicate Undisturbed(t: Task, s: Search, s': Search, i: nat)
    requires Shaped(t, s)
  {
    && Shaped(t, s')
    && (forall j :: 0 <= j < |s.pieces| && j != i ==> s'.pieces[j] == s.pieces[j] && s'.rejected[j] == s.rejected[j])
    && (s'.owners == s.owners || (s'.owners == s.owners + [i] && |s.owners| < t.quota))
    && (s.cancelled ==> s'.cancelled)
    && (s.error.Some? ==> s'.error.Some?)
  }

  lemma OtherPieceKept(t: Task, s: Search, s': Search, i: nat, j: nat)
    requires Shaped(t, s) && Undisturbed(t, s, s', i) && j < |s.pieces| && j != i
    requires PieceInv(t, s, j)
    ensures PieceInv(t, s', j)
  {
  }

  lemma StepUndisturbed(t: Task, s: Search, i: nat)
    requires Inv(t, s) && CanStep(t, s, i)
    ensures Undisturbed(t, s, Step(t, s, i), i)
  {
    AddReturns(t, s);
  }

  lemma StepKeepsPieces(t: Task, s: Search, i: nat)
    requires Inv(t, s) && CanStep(t, s, i)
    ensures PiecesInv(t, Step(t, s, i))
  {
    var s' := Step(t, s, i);
    StepUndisturbed(t, s, i);
    OwnPieceKept(t, s, i);
    forall j | 0 <= j < |s'.pieces| && j != i ensures PieceInv(t, s', j) {
      OtherPieceKept(t, s, s', i, j);
    }
  }

  lemma OwnPieceKept(t: Task, s: Search, i: nat)
    requires Inv(t, s) && CanStep(t, s, i)
    ensures PieceInv(t, Step(t, s, i), i)
  {
    var s' := Step(t, s, i);
    AddReturns(t, s);
    assert PieceInv(t, s, i);
    if s.pieces[i].Undoing? {
      assert i in Over(t, s.pieces);
    }
  }

  lemma StepKeepsCancel(t: Task, s: Search, i: nat)
    requires Inv(t, s) && CanStep(t, s, i)
    ensures CancelInv(t, Step(t, s, i))
  {
    assert PieceInv(t, s, i);
    if IsOver(t, s.pieces[i]) {
      assert i in Over(t, s.pieces);
    }
  }

  lemma StepKeepsInv(t: Task, s: Search, i: nat)
    requires Inv(t, s) && CanStep(t, s, i)
    ensures Inv(t, Step(t, s, i))
  {
    StepKeepsCounter(t, s, i);
    StepKeepsOwners(t, s, i);
    StepKeepsPieces(t, s, i);
    StepKeepsCancel(t, s, i);
  }

  // ---------- the ring ----------

  // The nodes in the order in which the pieces are numbered.
  function Ring(t: Task): (ring: seq<NodeName>)
    ensures |ring| == |t.nodes|
  {
    seq(|t.nodes|, i requires 0 <= i < |t.nodes| => t.At(i))
  }

  lemma RingInjective(n: nat, start: nat, i: nat, j: nat)
    requires i < n && j < n && (start + i) % n == (start + j) % n
    ensures i == j
  {
    var qi, qj := (start + i) / n, (start + j) / n;
    assert start + i == qi * n + (start + i) % n;
    assert start + j == qj * n + (start + j) % n;
    assert (qi - qj) * n == i - j;
    MultipleBounds(n, qi - qj);
  }

  lemma MultipleBounds(n: nat, q: int)
    ensures q >= 1 ==> q * n >= n
    ensures q <= -1 ==> q * n <= 0 - n
  {
  }

  // The ring begins at the start index and wraps around.
  lemma RingIsRotation(t: Task)
    requires |t.nodes| > 0
    ensures var first := t.start % |t.nodes|;
      Ring(t) == t.nodes[first..] + t.nodes[..first]
  {
    var n, first := |t.nodes|, t.start % |t.nodes|;
    var rotated := t.nodes[first..] + t.nodes[..first];
    forall i | 0 <= i < n ensures Ring(t)[i] == rotated[i] {
      WrapOnce(n, t.start, i);
    }
  }

  lemma WrapOnce(n: nat, start: nat, i: nat)
    requires i < n
    ensures (start + i) % n == if start % n + i < n then start % n + i else start % n + i - n
  {
    var x := if start % n + i < n then start % n + i else start % n + i - n;
    var q, r := start / n, (start + i) / n;
    assert start == q * n + start % n;
    assert start + i == r * n + (start + i) % n;
    assert (start + i) % n - x == (q - r) * n + (if start % n + i < n then 0 else n);
    MultipleBounds(n, q - r);
    MultipleBounds(n, q - r + 1);
    assert (q - r + 1) * n == (q - r) * n + n;
  }

  // Whatever the start, the pieces look at every node exactly once.
  lemma RingIsPermutation(t: Task)
    requires Distinct(t.nodes)
    ensures Distinct(Ring(t)) && Elements(Ring(t)) == Elements(t.nodes)
  {
    var ring := Ring(t);
    forall i, j | 0 <= i < j < |ring| ensures ring[i] != ring[j] {
      if (t.start + i) % |t.nodes| == (t.start + j) % |t.nodes| {
        RingInjective(|t.nodes|, t.start, i, j);
      }
    }
    DistinctSize(ring);
    DistinctSize(t.nodes);
    SubsetSize(Elements(ring), Elements(t.nodes));
  }

  // ---------- the outcome ----------

  // The nodes that the search reports as feasible: feasibleNodes[:feasibleNodesLen].
  ghost function Found(t: Task, s: Search): seq<NodeName>
    requires forall k :: 0 <= k < |s.owners| ==> s.owners[k] < |t.nodes|
  {
    NodesAt(t, s.owners)
  }

  ghost function NodesAt(t: Task, pieces: seq<nat>): seq<NodeName>
    requires forall k :: 0 <= k < |pieces| ==> pieces[k] < |t.nodes|
  {
    seq(|pieces|, k requires 0 <= k < |pieces| => t.At(pieces[k]))
  }

  ghost function PassingPieces(t: Task): set<nat> {
    set i: nat | i < |t.nodes| && t.Passes(i)
  }

  ghost function PassingNodes(t: Task): set<NodeName> {
    set n | n in t.nodes && t.filter(n).code == Success
  }

  lemma OwnersInRange(t: Task, s: Search)
    requires Inv(t, s)
    ensures forall k :: 0 <= k < |s.owners| ==> s.owners[k] < |t.nodes|
  {
    forall k | 0 <= k < |s.owners| ensures s.owners[k] < |t.nodes| {
      assert OwnerInv(t, s, k);
    }
  }

  lemma OwnersAreNotOver(t: Task, s: Search)
    requires Inv(t, s)
    ensures Elements(s.owners) !! Over(t, s.pieces)
  {
    forall i | i in Over(t, s.pieces) ensures i !in s.owners {
      assert PieceInv(t, s, i);
    }
  }

  lemma IndexSetSize(s: set<nat>, n: nat)
    requires forall i :: i in s ==> i < n
    ensures |s| <= n
  {
    var indices := seq(n, (i: nat) => i);
    DistinctSize(indices);
    forall i | i in s ensures i in Elements(indices) {
      assert indices[i] == i;
    }
    SubsetSize(s, Elements(indices));
  }

  // The counter never exceeds the number of nodes, so it fits in 32 bits when
  // that number does.
  lemma CounterFits(t: Task, s: Search)
    requires Inv(t, s)
    ensures 0 <= s.counter <= |t.nodes|
  {
    OwnersInRange(t, s);
    DistinctSize(s.owners);
    OwnersAreNotOver(t, s);
    IndexSetSize(Elements(s.owners) + Over(t, s.pieces), |t.nodes|);
  }

  // At the end no overshoot is pending: the claimed slots are exactly the first
  // counter slots, each written once with the node of its owner.
  lemma QuiescentSlots(t: Task, s: Search)
    requires Inv(t, s) && Quiescent(s)
    ensures s.counter == |s.owners| <= t.quota
    ensures forall k :: 0 <= k < |s.owners| ==> s.owners[k] < |t.nodes| && s.feasible[k] == Some(t.At(s.owners[k]))
    ensures forall k :: |s.owners| <= k < t.quota ==> s.feasible[k] == None
  {
    assert Over(t, s.pieces) == {};
    forall k | 0 <= k < |s.owners| ensures s.owners[k] < |t.nodes| && s.feasible[k] == Some(t.At(s.owners[k])) {
      assert OwnerInv(t, s, k);
      assert PieceInv(t, s, s.owners[k]);
    }
  }

  // Every reported node passed the filters and none is reported twice.
  lemma FoundNodesPass(t: Task, s: Search)
    requires Inv(t, s) && Distinct(t.nodes)
    ensures forall k :: 0 <= k < |s.owners| ==> s.owners[k] < |t.nodes|
    ensures Distinct(Found(t, s))
    ensures Elements(Found(t, s)) <= PassingNodes(t)
  {
    OwnersInRange(t, s);
    RingIsPermutation(t);
    var ring, found := Ring(t), Found(t, s);
    forall k | 0 <= k < |found| ensures found[k] in PassingNodes(t) {
      assert OwnerInv(t, s, k);
      assert ring[s.owners[k]] in Elements(ring);
    }
    forall k, l | 0 <= k < l < |found| ensures found[k] != found[l] {
      assert ring[s.owners[k]] == found[k] && ring[s.owners[l]] == found[l];
    }
  }

  // Without a filter error and without outside cancellation, the search finds
  // min(quota, number of passing nodes) nodes, whatever the interleaving.
  lemma FoundEnough(t: Task, s: Search)
    requires Inv(t, s) && Quiescent(s) && Distinct(t.nodes)
    requires s.error.None? && !s.outside
    ensures |s.owners| == Min(t.quota, |PassingNodes(t)|)
  {
    OwnersArePassing(t, s);
    PassingCount(t);
    if |s.owners| < t.quota {
      assert !s.cancelled;
      forall i | i in PassingPieces(t) ensures i in Elements(s.owners) {
        assert PieceInv(t, s, i);
        assert s.pieces[i].Done?;
      }
      assert Elements(s.owners) == PassingPieces(t);
    }
    SubsetSize(Elements(s.owners), PassingPieces(t));
  }

  lemma OwnersArePassing(t: Task, s: Search)
    requires Inv(t, s)
    ensures Elements(s.owners) <= PassingPieces(t) && |Elements(s.owners)| == |s.owners|
  {
    DistinctSize(s.owners);
    forall i | i in s.owners ensures i in PassingPieces(t) {
      var k :| 0 <= k < |s.owners| && s.owners[k] == i;
      assert OwnerInv(t, s, k);
    }
  }

  lemma PassingCount(t: Task)
    requires Distinct(t.nodes)
    ensures |PassingPieces(t)| == |PassingNodes(t)|
  {
    var ring := Ring(t);
    RingIsPermutation(t);
    ImageSize(ring, PassingPieces(t));
    forall n | n in PassingNodes(t) ensures n in Image(ring, PassingPieces(t)) {
      assert n in Elements(ring);
      var i :| 0 <= i < |ring| && ring[i] == n;
      assert i in PassingPieces(t);
    }
    forall i | i in PassingPieces(t) ensures ring[i] in PassingNodes(t) {
      assert ring[i] in Elements(ring);
    }
    assert PassingNodes(t) == Image(ring, PassingPieces(t));
  }

  ghost function Image<T>(r: seq<T>, s: set<nat>): set<T>
    requires forall i :: i in s ==> i < |r|
  {
    set i | i in s :: r[i]
  }

  lemma {:induction false} ImageSize<T>(r: seq<T>, s: set<nat>)
    requires Distinct(r) && forall i :: i in s ==> i < |r|
    ensures |Image(r, s)| == |s|
    decreases |s|
  {
    if s != {} {
      var x :| x in s;
      ImageSize(r, s - {x});
      assert Image(r, s) == Image(r, s - {x}) + {r[x]};
    }
  }

  // Exactly the rejections seen are recorded; if the search was not cancelled,
  // every node that fails the filters is.
  lemma RecordedRejections(t: Task, s: Search)
    requires Inv(t, s) && Quiescent(s)
    ensures forall i: nat :: i < |t.nodes| && s.rejected[i].Some? ==>
              s.rejected[i].value == t.Verdict(i) && !t.Passes(i) && !t.Faults(i)
    ensures !s.cancelled ==> s.error.None?
    ensures !s.cancelled ==>
              forall i: nat :: i < |t.nodes| ==> !t.Faults(i) && (s.rejected[i].Some? <==> !t.Passes(i))
  {
    forall i: nat | i < |t.nodes| && s.rejected[i].Some?
      ensures s.rejected[i].value == t.Verdict(i) && !t.Passes(i) && !t.Faults(i)
    {
      assert PieceInv(t, s, i);
    }
    if !s.cancelled {
      NothingMissed(t, s);
    }
  }

  lemma NothingMissed(t: Task, s: Search)
    requires Inv(t, s) && Quiescent(s) && !s.cancelled
    ensures s.error.None?
    ensures forall i: nat :: i < |t.nodes| ==> !t.Faults(i) && (s.rejected[i].Some? <==> !t.Passes(i))
  {
    forall i: nat | i < |t.nodes| ensures !t.Faults(i) && (s.rejected[i].Some? <==> !t.Passes(i)) {
      assert PieceInv(t, s, i);
    }
  }

  // ---------- every run ends ----------

  function Rank(p: Piece): nat {
    match p
    case Idle => 5
    case Checking => 4
    case Passing => 3
    case Claimed(_) => 2
    case Undoing => 1
    case Faulted => 1
    case Done => 0
  }

  function Work(pieces: seq<Piece>): nat {
    if |pieces| == 0 then 0 else Work(pieces[..|pieces| - 1]) + Rank(pieces[|pieces| - 1])
  }

  lemma {:induction false} WorkUpdate(pieces: seq<Piece>, i: nat, p: Piece)
    requires i < |pieces|
    ensures Work(pieces[i := p]) == Work(pieces) - Rank(pieces[i]) + Rank(p)
  {
    var last := |pieces| - 1;
    if i < last {
      WorkUpdate(pieces[..last], i, p);
      assert pieces[i := p][..last] == pieces[..last][i := p];
    } else {
      assert pieces[i := p][..last] == pieces[..last];
    }
  }

  // Each step leaves less work, so no interleaving runs for ever.
  lemma StepDecreasesWork(t: Task, s: Search, i: nat)
    requires Inv(t, s) && CanStep(t, s, i)
    ensures Work(Step(t, s, i).pieces) < Work(s.pieces)
  {
    WorkUpdate(s.pieces, i, Step(t, s, i).pieces[i]);
  }

  // ---------- runs ----------

  datatype Move = Piecework(i: nat) | Interrupt

  // A schedule: which piece goes next, or that the caller's context is cancelled.
  ghost function Exec(t: Task, s: Search, schedule: seq<Move>): Option<Search>
    requires Inv(t, s)
    decreases |schedule|
  {
    if |schedule| == 0 then
      Some(s)
    else
      match schedule[0]
      case Piecework(i) =>
        if CanStep(t, s, i) then
          StepKeepsInv(t, s, i);
          Exec(t, Step(t, s, i), schedule[1..])
        else None
      case Interrupt =>
        OutsideKeepsInv(t, s);
        Exec(t, CancelOutside(s), schedule[1..])
  }

  lemma {:induction false} RunKeepsInv(t: Task, s: Search, schedule: seq<Move>)
    requires Inv(t, s) && Exec(t, s, schedule).Some?
    ensures Inv(t, Exec(t, s, schedule).value)
    ensures Exec(t, s, schedule).value.outside <==> s.outside || Interrupt in schedule
    decreases |schedule|
  {
    if |schedule| > 0 {
      match schedule[0]
      case Piecework(i) =>
        StepKeepsInv(t, s, i);
        RunKeepsInv(t, Step(t, s, i), schedule[1..]);
      case Interrupt =>
        OutsideKeepsInv(t, s);
        RunKeepsInv(t, CancelOutside(s), schedule[1..]);
    }
  }

  // A run takes no more steps than the pieces hold work.
  lemma {:induction false} RunIsBounded(t: Task, s: Search, schedule: seq<Move>)
    requires Inv(t, s) && Exec(t, s, schedule).Some? && Interrupt !in schedule
    ensures |schedule| <= Work(s.pieces)
    decreases |schedule|
  {
    if |schedule| > 0 {
      var i := schedule[0].i;
      StepKeepsInv(t, s, i);
      StepDecreasesWork(t, s, i);
      RunIsBounded(t, Step(t, s, i), schedule[1..]);
    }
  }

  // However the pieces interleave, a search that comes to rest without a filter
  // error or an interrupt has found the wanted number of distinct passing nodes,
  // written without a gap, and counted them.
  lemma AnyScheduleFindsEnough(t: Task, schedule: seq<Move>)
    requires Distinct(t.nodes)
    requires Inv(t, InitialSearch(t)) && Exec(t, InitialSearch(t), schedule).Some?
    requires Quiescent(Exec(t, InitialSearch(t), schedule).value)
    requires Exec(t, InitialSearch(t), schedule).value.error.None? && Interrupt !in schedule
    ensures var s := Exec(t, InitialSearch(t), schedule).value;
      && Shaped(t, s)
      && s.counter == |s.owners| == Min(t.quota, |PassingNodes(t)|)
      && (forall k :: 0 <= k < |s.owners| ==> s.owners[k] < |t.nodes| && s.feasible[k] == Some(t.At(s.owners[k])))
      && (forall k :: |s.owners| <= k < t.quota ==> s.feasible[k] == None)
      && Distinct(Found(t, s)) && Elements(Found(t, s)) <= PassingNodes(t)
  {
    RunKeepsInv(t, InitialSearch(t), schedule);
    var s := Exec(t, InitialSearch(t), schedule).value;
    QuiescentSlots(t, s);
    FoundNodesPass(t, s);
    FoundEnough(t, s);
  }
}
