// The search with its pieces run one at a time in order, and the rotation of
// nextStartNodeIndex over successive cycles (scheduler/schedule_one.go:507-511).
module RoundRobin {
  import opened Common
  import opened FilterSearch

  // The pieces whose nodes are reported, and how many pieces are recorded, that
  // is, reported as feasible or as rejected.
  datatype Scan = Scan(found: seq<nat>, processed: nat)

  function ScanFrom(t: Task, i: nat, found: seq<nat>): (r: Scan)
    requires i <= |t.nodes|
    ensures i <= r.processed <= |t.nodes|
    decreases |t.nodes| - i
  {
    if i == |t.nodes| then
      Scan(found, i)
    else if t.Faults(i) then
      // A filter error ends the search; the node is not recorded.
      Scan(found, i)
    else if !t.Passes(i) then
      ScanFrom(t, i + 1, found)
    else if |found| < t.quota then
      ScanFrom(t, i + 1, found + [i])
    else
      // This piece overshoots the quota: it ends the search without a trace.
      Scan(found, i)
  }

  ghost predicate NoFaults(t: Task) {
    forall i: nat :: i < |t.nodes| ==> !t.Faults(i)
  }

  function InOrder(t: Task): Scan {
    ScanFrom(t, 0, [])
  }

  // ---------- what the scan records ----------

  ghost function PassingBelow(t: Task, i: nat): set<nat>
    requires i <= |t.nodes|
  {
    set j: nat | j < i && t.Passes(j)
  }

  ghost predicate ScanInv(t: Task, i: nat, found: seq<nat>)
    requires i <= |t.nodes|
  {
    Distinct(found) && |found| <= t.quota && Elements(found) == PassingBelow(t, i)
  }

  lemma {:induction false} ScanMeaning(t: Task, i: nat, found: seq<nat>)
    requires i <= |t.nodes| && ScanInv(t, i, found)
    ensures var r := ScanFrom(t, i, found);
      && ScanInv(t, r.processed, r.found)
      && (r.processed < |t.nodes| ==> t.Faults(r.processed) || (|r.found| == t.quota && t.Passes(r.processed)))
      && forall j: nat :: i <= j < r.processed ==> !t.Faults(j)
    decreases |t.nodes| - i
  {
    if i < |t.nodes| && !t.Faults(i) {
      if !t.Passes(i) {
        assert PassingBelow(t, i + 1) == PassingBelow(t, i);
        ScanMeaning(t, i + 1, found);
      } else if |found| < t.quota {
        assert PassingBelow(t, i + 1) == PassingBelow(t, i) + {i};
        assert i !in Elements(found);
        ScanMeaning(t, i + 1, found + [i]);
      }
    }
  }

  // The scan stops early only at a filter error or at the first passing piece
  // beyond the quota; the reported pieces are exactly the passing ones it recorded.
  lemma InOrderMeaning(t: Task)
    ensures var r := InOrder(t);
      && Distinct(r.found) && Elements(r.found) == PassingBelow(t, r.processed)
      && |r.found| <= t.quota && |r.found| <= r.processed
      && (r.processed < |t.nodes| ==> t.Faults(r.processed) || (|r.found| == t.quota && t.Passes(r.processed)))
      && forall j: nat :: j < r.processed ==> !t.Faults(j)
  {
    assert PassingBelow(t, 0) == {};
    ScanMeaning(t, 0, []);
    var r := InOrder(t);
    DistinctSize(r.found);
    IndexSetSize(Elements(r.found), r.processed);
  }

  // ---------- the transition system run in order ----------

  // Pieces below i have run, the others have not started.
  ghost predicate InOrderAt(t: Task, s: Search, i: nat) {
    && Inv(t, s) && i <= |t.nodes|
    && (forall j :: 0 <= j < |s.pieces| ==> s.pieces[j] == if j < i then Done else Idle)
    && !s.cancelled && s.error.None?
    && ScanFrom(t, i, s.owners) == InOrder(t)
  }

  // Piece i overshot or faulted and stopped the search.
  ghost predicate StoppedAt(t: Task, s: Search, i: nat) {
    && Inv(t, s) && i < |t.nodes|
    && (forall j :: 0 <= j < |s.pieces| ==> s.pieces[j] == if j <= i then Done else Idle)
    && s.cancelled && (s.error.Some? <==> t.Faults(i))
    && Scan(s.owners, i) == InOrder(t)
  }

  lemma NoneOver(t: Task, s: Search)
    requires CounterInv(t, s)
    requires forall j :: 0 <= j < |s.pieces| ==> !IsOver(t, s.pieces[j])
    ensures s.counter == |s.owners|
  {
  }

  lemma PieceChecks(t: Task, s: Search, i: nat)
    requires InOrderAt(t, s, i) && i < |t.nodes|
    ensures CanStep(t, s, i)
    ensures Inv(t, Step(t, s, i)) && CanStep(t, Step(t, s, i), i)
    ensures Inv(t, Step(t, Step(t, s, i), i))
    ensures var s2 := Step(t, Step(t, s, i), i);
      if t.Faults(i) then FaultedAt(t, s2, i)
      else if t.Passes(i) then PassingAt(t, s2, i)
      else s2.pieces[i].Done? && InOrderAt(t, s2, i + 1)
  {
    StepKeepsInv(t, s, i);
    StepKeepsInv(t, Step(t, s, i), i);
  }

  // The state in which piece i has sent its error.
  ghost predicate FaultedAt(t: Task, s: Search, i: nat) {
    && Inv(t, s) && i < |t.nodes| && t.Faults(i)
    && (forall j :: 0 <= j < |s.pieces| ==> s.pieces[j] == if j < i then Done else if j == i then Faulted else Idle)
    && s.error.Some?
    && Scan(s.owners, i) == InOrder(t)
  }

  lemma PieceFaults(t: Task, s: Search, i: nat)
    requires FaultedAt(t, s, i)
    ensures CanStep(t, s, i) && StoppedAt(t, Step(t, s, i), i)
  {
    StepKeepsInv(t, s, i);
  }

  // The state in which piece i, having passed, is about to claim a slot.
  ghost predicate PassingAt(t: Task, s: Search, i: nat) {
    && Inv(t, s) && i < |t.nodes| && t.Passes(i)
    && (forall j :: 0 <= j < |s.pieces| ==> s.pieces[j] == if j < i then Done else if j == i then Passing else Idle)
    && !s.cancelled && s.error.None?
    && ScanFrom(t, i, s.owners) == InOrder(t)
  }

  // The state in which it has added 1 to the counter; owners is the history before.
  ghost predicate ClaimedAt(t: Task, s: Search, i: nat, owners: seq<nat>) {
    && Inv(t, s) && i < |t.nodes| && t.Passes(i)
    && (forall j :: 0 <= j < |s.pieces| ==>
          s.pieces[j] == if j < i then Done else if j == i then Claimed(|owners| + 1) else Idle)
    && s.owners == (if |owners| < t.quota then owners + [i] else owners)
    && !s.cancelled && s.error.None?
    && ScanFrom(t, i, owners) == InOrder(t)
  }

  lemma PieceClaims(t: Task, s: Search, i: nat)
    requires PassingAt(t, s, i)
    ensures CanStep(t, s, i) && ClaimedAt(t, Step(t, s, i), i, s.owners)
  {
    NoneOver(t, s);
    StepKeepsInv(t, s, i);
  }

  lemma PieceKeepsSlot(t: Task, s: Search, i: nat, owners: seq<nat>)
    requires ClaimedAt(t, s, i, owners) && |owners| < t.quota
    ensures CanStep(t, s, i) && InOrderAt(t, Step(t, s, i), i + 1)
  {
    StepKeepsInv(t, s, i);
  }

  lemma PieceOvershoots(t: Task, s: Search, i: nat, owners: seq<nat>)
    requires ClaimedAt(t, s, i, owners) && |owners| >= t.quota
    ensures CanStep(t, s, i) && Inv(t, Step(t, s, i)) && Step(t, s, i).pieces[i].Undoing?
    ensures CanStep(t, Step(t, s, i), i) && StoppedAt(t, Step(t, Step(t, s, i), i), i)
  {
    StepKeepsInv(t, s, i);
    StepKeepsInv(t, Step(t, s, i), i);
  }

  // ---------- the parallel search refines the scan ----------

  // Without filter errors and interrupts, a parallel search finds as many nodes
  // as the scan; if that is less than the quota, the very same ones.
  lemma ParallelRefinesScan(t: Task, s: Search)
    requires Inv(t, s) && Quiescent(s) && Distinct(t.nodes)
    requires NoFaults(t) && !s.outside
    ensures |s.owners| == |InOrder(t).found|
    ensures |s.owners| < t.quota ==> Elements(s.owners) == Elements(InOrder(t).found)
  {
    var r := InOrder(t);
    InOrderMeaning(t);
    assert s.error.None?;
    FoundEnough(t, s);
    PassingCount(t);
    DistinctSize(r.found);
    OwnersArePassing(t, s);
    assert Elements(r.found) <= PassingPieces(t);
    SubsetSize(Elements(r.found), PassingPieces(t));
    SubsetSize(Elements(s.owners), PassingPieces(t));
    if r.processed == |t.nodes| {
      assert PassingBelow(t, r.processed) == PassingPieces(t);
    }
  }

  // ---------- successive cycles ----------

  function Rotated(start: nat, processed: nat, n: nat): nat
    requires n > 0
  {
    (start + processed) % n
  }

  // One cycle's pass over the ring: with filter plugins a search in order, without
  // them the first quota nodes.
  datatype Cycle = Cycle(task: Task, filtered: bool)

  function Processed(c: Cycle): nat {
    if c.filtered then InOrder(c.task).processed else c.task.quota
  }

  function NextStart(c: Cycle): nat
    requires |c.task.nodes| > 0
  {
    Rotated(c.task.start, Processed(c), |c.task.nodes|)
  }

  // The first k nodes of the ring.
  ghost function FirstNodes(t: Task, k: nat): set<NodeName>
    requires k <= |t.nodes|
  {
    Image(Ring(t), Below(k))
  }

  // The nodes one cycle records: a window of the ring that starts at its start.
  ghost function Window(c: Cycle): set<NodeName>
    requires c.task.quota <= |c.task.nodes|
  {
    FirstNodes(c.task, Processed(c))
  }

  ghost function Below(n: nat): (s: set<nat>)
    ensures forall i: nat :: i in s <==> i < n
  {
    if n == 0 then {} else Below(n - 1) + {n - 1}
  }

  ghost predicate RotationCycle(c: Cycle, nodes: seq<NodeName>, q: nat) {
    c.task.nodes == nodes && q <= c.task.quota <= |nodes| && (c.filtered ==> NoFaults(c.task))
  }

  // Successive cycles over the same nodes, each starting where the last ended
  // and looking for at least q nodes, without a filter error.
  ghost predicate Rotation(cycles: seq<Cycle>, nodes: seq<NodeName>, q: nat) {
    && |nodes| > 0
    && (forall k :: 0 <= k < |cycles| ==> RotationCycle(cycles[k], nodes, q))
    && (forall k :: 0 <= k < |cycles| - 1 ==> cycles[k + 1].task.start == NextStart(cycles[k]))
  }

  // How far the first k cycles get along the ring.
  function Travelled(cycles: seq<Cycle>, k: nat): nat
    requires k <= |cycles|
  {
    if k == 0 then 0 else Travelled(cycles, k - 1) + Processed(cycles[k - 1])
  }

  lemma ModShift(n: nat, a: nat, b: nat)
    requires n > 0
    ensures (a % n + b) % n == (a + b) % n
  {
    var u, v := (a % n + b) % n, (a + b) % n;
    var p, q, r := a / n, (a % n + b) / n, (a + b) / n;
    assert u - v == (r - q - p) * n by {
      assert a == p * n + a % n;
      assert a % n + b == q * n + u;
      assert a + b == r * n + v;
      Collect(n, p, q, r);
    }
    MultipleBounds(n, r - q - p);
  }

  lemma Collect(n: int, p: int, q: int, r: int)
    ensures r * n - q * n - p * n == (r - q - p) * n
  {
  }

  lemma {:induction false} WindowStart(cycles: seq<Cycle>, nodes: seq<NodeName>, q: nat, k: nat)
    requires Rotation(cycles, nodes, q) && k < |cycles|
    ensures cycles[k].task.start % |nodes| == (cycles[0].task.start + Travelled(cycles, k)) % |nodes|
  {
    if k > 0 {
      WindowStart(cycles, nodes, q, k - 1);
      var p := Processed(cycles[k - 1]);
      assert cycles[(k - 1) + 1].task.start == NextStart(cycles[k - 1]);
      ModShift(|nodes|, cycles[k - 1].task.start, p);
      ModShift(|nodes|, cycles[0].task.start + Travelled(cycles, k - 1), p);
      ModShift(|nodes|, cycles[k - 1].task.start + p, 0);
    }
  }

  // Every cycle gets past q nodes or around the whole ring.
  lemma {:induction false} Progress(cycles: seq<Cycle>, nodes: seq<NodeName>, q: nat, k: nat)
    requires Rotation(cycles, nodes, q) && k <= |cycles|
    ensures Travelled(cycles, k) >= Min(|nodes|, k * q)
  {
    if k > 0 {
      Progress(cycles, nodes, q, k - 1);
      InOrderMeaning(cycles[k - 1].task);
      assert (k - 1) * q + q == k * q;
    }
  }

  // The cycle whose window covers the x-th position from the first start.
  lemma {:induction false} CoveringCycle(cycles: seq<Cycle>, x: nat, m: nat) returns (k: nat)
    requires m <= |cycles| && x < Travelled(cycles, m)
    ensures k < m && Travelled(cycles, k) <= x < Travelled(cycles, k) + Processed(cycles[k])
  {
    if x >= Travelled(cycles, m - 1) {
      k := m - 1;
    } else {
      k := CoveringCycle(cycles, x, m - 1);
    }
  }

  // Round-robin coverage: within ceil(n / q) cycles every node is recorded.
  lemma EveryNodeIsRecorded(cycles: seq<Cycle>, nodes: seq<NodeName>, q: nat, p: nat)
    requires Rotation(cycles, nodes, q) && q > 0 && p < |nodes|
    requires |cycles| >= (|nodes| + q - 1) / q
    ensures exists k :: 0 <= k < |cycles| && cycles[k].task.quota <= |cycles[k].task.nodes| && nodes[p] in Window(cycles[k])
  {
    var n := |nodes|;
    CeilingCovers(n, q, |cycles|);
    var first := cycles[0].task.start;
    var x := (p + n - first % n) % n;
    Progress(cycles, nodes, q, |cycles|);
    var k := CoveringCycle(cycles, x, |cycles|);
    var i := x - Travelled(cycles, k);
    WindowStart(cycles, nodes, q, k);
    ModShift(n, cycles[k].task.start, i);
    ModShift(n, first + Travelled(cycles, k), i);
    DistanceReaches(n, first, p);
    assert (cycles[k].task.start + i) % n == p;
    assert Ring(cycles[k].task)[i] == nodes[p];
  }

  lemma DistanceReaches(n: nat, first: nat, p: nat)
    requires p < n
    ensures (first + (p + n - first % n) % n) % n == p
  {
    var d := p + n - first % n;
    var k := 1 + first / n;
    ModShift(n, d, first);
    assert first == (first / n) * n + first % n;
    OneMore(n, first / n);
    assert d + first == p + k * n;
    RemainderOf(n, p, k);
  }

  lemma OneMore(n: nat, k: nat)
    ensures (1 + k) * n == n + k * n
  {
  }

  lemma RemainderOf(n: nat, p: nat, k: nat)
    requires p < n
    ensures (p + k * n) % n == p
  {
    var v, r := (p + k * n) % n, (p + k * n) / n;
    assert p + k * n == r * n + v;
    Collect(n, k, 0, r);
    MultipleBounds(n, r - k);
  }

  lemma CeilingCovers(n: nat, q: nat, m: nat)
    requires n > 0 && q > 0 && m >= (n + q - 1) / q
    ensures m > 0 && m * q >= n
  {
  }
}
