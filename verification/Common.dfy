// Types shared by the models of the scheduling engine.
module Common {
  datatype Option<+T> = None | Some(value: T)

  // How a call into the engine ends.  Panic is a Go run-time panic (here: a
  // remainder by zero), which the source does not recover from.
  datatype Outcome<+T> = Ok(value: T) | Err(error: string) | Panic

  // Nodes of a snapshot are identified by their names, which are unique.
  type NodeName = string

  datatype Code =
    | Success
    | Error
    | Unschedulable
    | UnschedulableAndUnresolvable
    | Wait
    | Skip
    | Pending

  datatype Status = Status(code: Code, reasons: seq<string>)

  function Min(a: int, b: int): int {
    if a <= b then a else b
  }

  function Max(a: int, b: int): int {
    if a <= b then b else a
  }

  ghost predicate Distinct<T>(s: seq<T>) {
    forall i, j :: 0 <= i < j < |s| ==> s[i] != s[j]
  }

  ghost function Elements<T>(s: seq<T>): set<T> {
    set x | x in s
  }

  // sub is obtained from s by dropping elements.
  ghost predicate IsSublist<T>(sub: seq<T>, s: seq<T>) {
    exists at: seq<nat> :: SublistAt(sub, s, at)
  }

  ghost predicate SublistAt<T>(sub: seq<T>, s: seq<T>, at: seq<nat>) {
    && |at| == |sub|
    && (forall i :: 0 <= i < |at| ==> at[i] < |s| && sub[i] == s[at[i]])
    && (forall i, j :: 0 <= i < j < |at| ==> at[i] < at[j])
  }

  lemma SublistDistinct<T>(sub: seq<T>, s: seq<T>)
    requires IsSublist(sub, s) && Distinct(s)
    ensures Distinct(sub)
    ensures Elements(sub) <= Elements(s)
  {
  }

  // Distinct sequences have as many elements as positions.
  lemma {:induction false} DistinctSize<T>(s: seq<T>)
    requires Distinct(s)
    ensures |Elements(s)| == |s|
  {
    if s == [] {
    } else {
      var rest := s[..|s| - 1];
      DistinctSize(rest);
      assert s == rest + [s[|s| - 1]];
      assert s[|s| - 1] !in rest;
      assert Elements(s) == Elements(rest) + {s[|s| - 1]};
    }
  }

  lemma {:induction false} SubsetSize<T>(a: set<T>, b: set<T>)
    requires a <= b
    ensures |a| <= |b|
    ensures |a| == |b| ==> a == b
  {
    assert b == a + (b - a);
    if a != b {
      var x :| x in b - a;
      assert |b - a| > 0;
    }
  }
}
