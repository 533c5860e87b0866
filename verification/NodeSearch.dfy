// The search of findNodesThatPassFilters over its shared slices and its atomic
// counter, proved to run the transition system of FilterSearch.
module NodeSearch {
  import opened Common
  import opened FilterSearch
  import opened RoundRobin

  class NodeSearch {
    const task: Task
    var pieces: array<Piece>
    var feasibleNodesLen: int
    var cancelled: bool
    var interrupted: bool
    var errCh: Option<string>
    var feasibleNodes: array<Option<NodeName>>
    var result: array<Option<Status>>
    ghost var owners: seq<nat>

    ghost function State(): Search
      reads this, pieces, feasibleNodes, result
    {
      Search(pieces[..], feasibleNodesLen, cancelled, errCh, feasibleNodes[..], result[..], owners, interrupted)
    }

    ghost predicate Valid()
      reads this, pieces, feasibleNodes, result
    {
      Inv(task, State())
    }

    constructor (t: Task)
      ensures task == t && Valid() && State() == InitialSearch(t)
      ensures fresh(pieces) && fresh(feasibleNodes) && fresh(result)
    {
      task := t;
      pieces := new Piece[|t.nodes|](_ => Idle);
      feasibleNodes := new Option<NodeName>[t.quota](_ => None);
      result := new Option<Status>[|t.nodes|](_ => None);
      feasibleNodesLen := 0;
      cancelled := false;
      interrupted := false;
      errCh := None;
      owners := [];
      new;
      assert State() == InitialSearch(t);
      InitialInv(t);
    }

    predicate Runnable(i: nat)
      reads this, pieces
      ensures Runnable(i) <==> i < pieces.Length && !pieces[i].Done? && (pieces[i].Idle? ==> !cancelled)
    {
      i < pieces.Length && !pieces[i].Done? && (pieces[i].Idle? ==> !cancelled)
    }

    // One atomic step of the goroutine that runs piece i.
    method Advance(i: nat)
      requires Valid() && Runnable(i)
      modifies this`feasibleNodesLen, this`cancelled, this`errCh, this`owners, pieces, feasibleNodes, result
      ensures Valid() && CanStep(task, old(State()), i)
      ensures State() == Step(task, old(State()), i)
    {
      StepKeepsInv(task, State(), i);
      CheckNode(i);
    }

    method CheckNode(i: nat)
      requires Shaped(task, State()) && feasibleNodesLen >= 0 && Runnable(i)
      modifies this`feasibleNodesLen, this`cancelled, this`errCh, this`owners, pieces, feasibleNodes, result
      ensures State() == Step(task, old(State()), i)
    {
      match pieces[i] {
        case Idle =>
          pieces[i] := Checking;
        case Checking =>
          var status := task.Verdict(i);
          if status.code == Error {
            if errCh.None? {
              errCh := Some(ErrorText(status));
            }
            pieces[i] := Faulted;
          } else if status.code == Success {
            pieces[i] := Passing;
          } else {
            result[i] := Some(status);
            pieces[i] := Done;
          }
        case Passing =>
          feasibleNodesLen := feasibleNodesLen + 1;
          pieces[i] := Claimed(feasibleNodesLen);
          if feasibleNodesLen <= task.quota {
            owners := owners + [i];
          }
        case Claimed(length) =>
          if length > task.quota {
            cancelled := true;
            pieces[i] := Undoing;
          } else {
            feasibleNodes[length - 1] := Some(task.At(i));
            pieces[i] := Done;
          }
        case Undoing =>
          feasibleNodesLen := feasibleNodesLen - 1;
          pieces[i] := Done;
        case Faulted =>
          cancelled := true;
          pieces[i] := Done;
      }
    }

    // Parallelizer().Until: any runnable piece goes next until none is left.
    // The caller's context may be cancelled at any time when mayInterrupt holds.
    method Until(mayInterrupt: bool)
      requires Valid() && !interrupted
      modifies this`feasibleNodesLen, this`cancelled, this`errCh, this`owners, this`interrupted,
               pieces, feasibleNodes, result
      ensures Valid() && Quiescent(State())
      ensures !mayInterrupt ==> !interrupted
    {
      while exists i :: 0 <= i < pieces.Length && Runnable(i)
        invariant Valid()
        invariant !mayInterrupt ==> !interrupted
        decreases !interrupted, Work(pieces[..])
      {
        var interrupt: bool := *;
        if mayInterrupt && !interrupted && interrupt {
          OutsideKeepsInv(task, State());
          cancelled := true;
          interrupted := true;
        } else {
          var i :| 0 <= i < pieces.Length && Runnable(i);
          StepDecreasesWork(task, State(), i);
          Advance(i);
        }
      }
      assert forall i :: 0 <= i < pieces.Length ==> !Runnable(i) && pieces[..][i] == pieces[i];
    }

    // The search with parallelism 1: each piece runs to its end before the next
    // one starts.
    method UntilInOrder()
      requires Valid() && State() == InitialSearch(task)
      modifies this`feasibleNodesLen, this`cancelled, this`errCh, this`owners, pieces, feasibleNodes, result
      ensures Valid() && Quiescent(State())
      ensures errCh.Some? <==> InOrder(task).processed < |task.nodes| && task.Faults(InOrder(task).processed)
      ensures owners == InOrder(task).found
      ensures forall i: nat :: i < result.Length ==>
                (result[i].Some? <==> i < InOrder(task).processed && !task.Passes(i))
    {
      var i := 0;
      while i < pieces.Length
        invariant InOrderAt(task, State(), i)
      {
        var stopped := RunPiece(i);
        if stopped {
          break;
        }
        i := i + 1;
      }
      InOrderResult(task, State(), i);
    }

    // All the steps of one piece.
    method RunPiece(i: nat) returns (stopped: bool)
      requires InOrderAt(task, State(), i) && i < pieces.Length
      modifies this`feasibleNodesLen, this`cancelled, this`errCh, this`owners, pieces, feasibleNodes, result
      ensures if stopped then StoppedAt(task, State(), i) else InOrderAt(task, State(), i + 1)
    {
      PieceChecks(task, State(), i);
      Advance(i);
      Advance(i);
      stopped := false;
      if pieces[i].Passing? {
        ghost var before := owners;
        PieceClaims(task, State(), i);
        Advance(i);
        stopped := ClaimSlot(i, before);
      } else if pieces[i].Faulted? {
        PieceFaults(task, State(), i);
        Advance(i);
        stopped := true;
      }
    }

    method ClaimSlot(i: nat, ghost before: seq<nat>) returns (stopped: bool)
      requires ClaimedAt(task, State(), i, before)
      modifies this`feasibleNodesLen, this`cancelled, this`errCh, this`owners, pieces, feasibleNodes, result
      ensures if stopped then StoppedAt(task, State(), i) else InOrderAt(task, State(), i + 1)
    {
      if pieces[i].length > task.quota {
        PieceOvershoots(task, State(), i, before);
        Advance(i);
        Advance(i);
        stopped := true;
      } else {
        PieceKeepsSlot(task, State(), i, before);
        Advance(i);
        stopped := false;
      }
    }
  }

  lemma InOrderResult(t: Task, s: Search, i: nat)
    requires (InOrderAt(t, s, i) && i == |t.nodes|) || StoppedAt(t, s, i)
    ensures Quiescent(s) && s.owners == InOrder(t).found
    ensures s.error.Some? <==> InOrder(t).processed < |t.nodes| && t.Faults(InOrder(t).processed)
    ensures forall j: nat :: j < |t.nodes| ==> (s.rejected[j].Some? <==> j < InOrder(t).processed && !t.Passes(j))
  {
    InOrderMeaning(t);
    forall j: nat | j < |t.nodes|
      ensures s.rejected[j].Some? <==> j < InOrder(t).processed && !t.Passes(j)
    {
      assert PieceInv(t, s, j);
    }
  }
}
