// Reservoir sampling over tied nodes (scheduler/schedule_one.go:892-898): which
// of k ties the draws select, and how many draw sequences select each of them.
module Reservoir {
  import opened Common

  // draws[j - 2] is the result of rand.Intn(j), made when the j-th tied node is
  // met; the j-th node replaces the candidate exactly when the result is 0.
  function Chosen(draws: seq<nat>, k: nat): (t: nat)
    requires k <= |draws| + 1
    ensures k > 0 ==> t < k
  {
    if k <= 1 then 0
    else if draws[k - 2] == 0 then k - 1
    else Chosen(draws, k - 1)
  }

  // The contract of rand.Intn(j): a result in [0, j).
  ghost predicate ValidDraws(draws: seq<nat>) {
    forall i :: 0 <= i < |draws| ==> draws[i] < i + 2
  }

  function Factorial(k: nat): (f: nat)
    ensures f > 0
  {
    if k == 0 then 1 else k * Factorial(k - 1)
  }

  // All sequences of results for k tied nodes.
  ghost function DrawSpace(k: nat): set<seq<nat>>
    requires k >= 1
  {
    if k == 1 then {[]} else ExtendAll(DrawSpace(k - 1), 0, k)
  }

  // Every sequence of space extended by each of lo, ..., hi-1.
  ghost function ExtendAll(space: set<seq<nat>>, lo: nat, hi: nat): set<seq<nat>>
    decreases hi - lo
  {
    if lo >= hi then {} else Extend(space, lo) + ExtendAll(space, lo + 1, hi)
  }

  ghost function Extend(space: set<seq<nat>>, x: nat): set<seq<nat>> {
    set d | d in space :: d + [x]
  }

  lemma ExtendMember(space: set<seq<nat>>, x: nat, e: seq<nat>)
    ensures e in Extend(space, x) <==> |e| > 0 && e[|e| - 1] == x && e[..|e| - 1] in space
  {
    if |e| > 0 && e[|e| - 1] == x && e[..|e| - 1] in space {
      assert e == e[..|e| - 1] + [x];
    }
    if e in Extend(space, x) {
      var d :| d in space && e == d + [x];
      assert e[..|e| - 1] == d;
    }
  }

  lemma {:induction false} ExtendAllMember(space: set<seq<nat>>, lo: nat, hi: nat, e: seq<nat>)
    ensures e in ExtendAll(space, lo, hi) <==> |e| > 0 && lo <= e[|e| - 1] < hi && e[..|e| - 1] in space
    decreases hi - lo
  {
    if lo < hi {
      ExtendMember(space, lo, e);
      ExtendAllMember(space, lo + 1, hi, e);
    }
  }

  lemma {:induction false} ExtendSize(space: set<seq<nat>>, x: nat)
    ensures |Extend(space, x)| == |space|
    decreases |space|
  {
    if space != {} {
      var d :| d in space;
      var rest := space - {d};
      ExtendSize(rest, x);
      assert d + [x] !in Extend(rest, x) by {
        ExtendMember(rest, x, d + [x]);
        assert (d + [x])[..|d|] == d;
      }
      assert Extend(space, x) == Extend(rest, x) + {d + [x]};
    }
  }

  lemma ExtendDisjoint(space: set<seq<nat>>, lo: nat, hi: nat)
    ensures Extend(space, lo) !! ExtendAll(space, lo + 1, hi)
  {
    forall e | e in Extend(space, lo) ensures e !in ExtendAll(space, lo + 1, hi) {
      ExtendMember(space, lo, e);
      ExtendAllMember(space, lo + 1, hi, e);
    }
  }

  lemma {:induction false} ExtendAllSize(space: set<seq<nat>>, lo: nat, hi: nat)
    requires lo <= hi
    ensures |ExtendAll(space, lo, hi)| == (hi - lo) * |space|
    decreases hi - lo
  {
    if lo < hi {
      ExtendAllSize(space, lo + 1, hi);
      UnionSize(space, lo, hi);
      Distribute(hi - lo, |space|);
    }
  }

  lemma UnionSize(space: set<seq<nat>>, lo: nat, hi: nat)
    requires lo < hi
    ensures |ExtendAll(space, lo, hi)| == |space| + |ExtendAll(space, lo + 1, hi)|
  {
    ExtendSize(space, lo);
    ExtendDisjoint(space, lo, hi);
  }

  lemma Distribute(a: nat, b: nat)
    requires a > 0
    ensures b + (a - 1) * b == a * b
  {
  }

  // The space is exactly the set of valid result sequences, k! of them.
  lemma {:induction false} DrawSpaceMember(k: nat, e: seq<nat>)
    requires k >= 1
    ensures e in DrawSpace(k) <==> |e| == k - 1 && ValidDraws(e)
  {
    if k > 1 {
      ExtendAllMember(DrawSpace(k - 1), 0, k, e);
      if |e| > 0 {
        DrawSpaceMember(k - 1, e[..|e| - 1]);
        if |e| == k - 1 && ValidDraws(e[..|e| - 1]) && e[|e| - 1] < k {
          assert forall i :: 0 <= i < |e| - 1 ==> e[i] == e[..|e| - 1][i];
        }
      }
    }
  }

  lemma {:induction false} DrawSpaceSize(k: nat)
    requires k >= 1
    ensures |DrawSpace(k)| == Factorial(k)
  {
    if k > 1 {
      DrawSpaceSize(k - 1);
      ExtendAllSize(DrawSpace(k - 1), 0, k);
    } else {
      assert Factorial(1) == 1 * Factorial(0);
    }
  }

  // The result sequences for k tied nodes that select the t-th of them.
  ghost function Selecting(k: nat, t: nat): set<seq<nat>>
    requires t < k
  {
    set d | d in DrawSpace(k) && |d| == k - 1 && Chosen(d, k) == t
  }

  lemma ChosenPrefix(d: seq<nat>, k: nat)
    requires k >= 1 && k <= |d|
    ensures Chosen(d, k) == Chosen(d[..|d| - 1], k)
  {
  }

  lemma SelectingLast(k: nat)
    requires k >= 2
    ensures Selecting(k, k - 1) == Extend(DrawSpace(k - 1), 0)
  {
    var left, right := Selecting(k, k - 1), Extend(DrawSpace(k - 1), 0);
    forall e ensures e in left <==> e in right {
      ExtendAllMember(DrawSpace(k - 1), 0, k, e);
      ExtendMember(DrawSpace(k - 1), 0, e);
      DrawSpaceMember(k, e);
      if |e| == k - 1 {
        assert Chosen(e, k - 1) < k - 1;
      }
    }
  }

  lemma SelectingEarlier(k: nat, t: nat)
    requires t < k - 1
    ensures Selecting(k, t) == ExtendAll(Selecting(k - 1, t), 1, k)
  {
    var left, right := Selecting(k, t), ExtendAll(Selecting(k - 1, t), 1, k);
    forall e ensures e in left <==> e in right {
      ExtendAllMember(DrawSpace(k - 1), 0, k, e);
      ExtendAllMember(Selecting(k - 1, t), 1, k, e);
      DrawSpaceMember(k, e);
      if |e| > 0 {
        DrawSpaceMember(k - 1, e[..|e| - 1]);
        if |e| == k - 1 {
          ChosenPrefix(e, k - 1);
        }
      }
    }
  }

  lemma SelectingOnly()
    ensures |Selecting(1, 0)| == 1
  {
    assert Selecting(1, 0) == {[]};
  }

  lemma SelectingLastSize(k: nat)
    requires k >= 2
    ensures |Selecting(k, k - 1)| == Factorial(k - 1)
  {
    SelectingLast(k);
    DrawSpaceSize(k - 1);
    ExtendSize(DrawSpace(k - 1), 0);
  }

  lemma SelectingEarlierSize(k: nat, t: nat)
    requires t < k - 1
    ensures |Selecting(k, t)| == (k - 1) * |Selecting(k - 1, t)|
  {
    SelectingEarlier(k, t);
    ExtendAllSize(Selecting(k - 1, t), 1, k);
  }

  // Uniformity: of the k! result sequences, exactly (k-1)! select each tied node.
  lemma {:induction false} SelectionIsUniform(k: nat, t: nat)
    requires t < k
    ensures |Selecting(k, t)| == Factorial(k - 1)
    decreases k
  {
    if k == 1 {
      SelectingOnly();
    } else if t == k - 1 {
      SelectingLastSize(k);
    } else {
      SelectionIsUniform(k - 1, t);
      SelectingEarlierSize(k, t);
    }
  }
}
