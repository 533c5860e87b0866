// The extenders: external services that filter and score nodes
// (scheduler/schedule_one.go:695-747).
module Extenders {
  import opened Common

  datatype FilterReply =
    | FilterError(error: string)
    | Filtered(feasible: seq<NodeName>, failed: map<NodeName, string>, unresolvable: map<NodeName, string>)

  datatype HostPriority = HostPriority(host: NodeName, score: int)

  datatype PriorityReply =
    | PriorityError
    | Prioritized(list: seq<HostPriority>, weight: int)

  // An extender as one scheduling cycle sees it.
  datatype Extender = Extender(
    name: string,
    interested: bool,
    ignorable: bool,
    filtering: bool,
    prioritizing: bool,
    filter: seq<NodeName> -> FilterReply,
    prioritize: seq<NodeName> -> PriorityReply)

  type Statuses = map<NodeName, Status>

  // NodeToStatusMap: a Go map, shared by everyone who holds a reference to it.
  class StatusMap {
    var m: Statuses

    constructor ()
      ensures m == map[]
    {
      m := map[];
    }
  }

  // ---------- what one reply adds to the status map ----------

  function UnresolvableStatus(statuses: Statuses, n: NodeName, msg: string): Status {
    Status(UnschedulableAndUnresolvable, (if n in statuses then statuses[n].reasons else []) + [msg])
  }

  function FailedStatus(statuses: Statuses, n: NodeName, msg: string): Status {
    if n in statuses then statuses[n].(reasons := statuses[n].reasons + [msg])
    else Status(Unschedulable, [msg])
  }

  // The status map after the messages for the nodes in u and f are recorded.
  function MergedPart(statuses: Statuses, reply: FilterReply, u: set<NodeName>, f: set<NodeName>): Statuses
    requires reply.Filtered? && u <= reply.unresolvable.Keys && f <= reply.failed.Keys
  {
    map n | n in statuses.Keys + u + f ::
      if n in u then UnresolvableStatus(statuses, n, reply.unresolvable[n])
      else if n in f then FailedStatus(statuses, n, reply.failed[n])
      else statuses[n]
  }

  // failedAndUnresolvableMap takes precedence over failedMap.
  function Merged(statuses: Statuses, reply: FilterReply): Statuses
    requires reply.Filtered?
  {
    MergedPart(statuses, reply, reply.unresolvable.Keys, reply.failed.Keys - reply.unresolvable.Keys)
  }

  // Each reported node gets exactly one more reason, and is unresolvable exactly
  // when it is reported so or was so before.
  lemma MergedMeaning(statuses: Statuses, reply: FilterReply, n: NodeName)
    requires reply.Filtered?
    ensures var merged := Merged(statuses, reply);
      && (n in merged <==> n in statuses || n in reply.failed || n in reply.unresolvable)
      && (n in merged ==>
            var before := if n in statuses then statuses[n].reasons else [];
            && merged[n].reasons == before + (if n in reply.unresolvable then [reply.unresolvable[n]]
                                              else if n in reply.failed then [reply.failed[n]] else [])
            && (merged[n].code == UnschedulableAndUnresolvable
                <==> n in reply.unresolvable || (n in statuses && statuses[n].code == UnschedulableAndUnresolvable))
            && (merged[n].code != UnschedulableAndUnresolvable
                ==> merged[n].code == if n in statuses then statuses[n].code else Unschedulable))
  {
  }

  // The two loops over the reply's maps.  Go leaves the iteration order open;
  // here each round takes any remaining key.
  method Record(statuses: StatusMap, reply: FilterReply)
    requires reply.Filtered?
    modifies statuses
    ensures statuses.m == Merged(old(statuses.m), reply)
  {
    ghost var before := statuses.m;
    var todo := reply.unresolvable.Keys;
    while todo != {}
      invariant todo <= reply.unresolvable.Keys
      invariant statuses.m == MergedPart(before, reply, reply.unresolvable.Keys - todo, {})
      decreases todo
    {
      var n :| n in todo;
      var aggregatedReasons := [];
      if n in statuses.m {
        aggregatedReasons := statuses.m[n].reasons;
      }
      aggregatedReasons := aggregatedReasons + [reply.unresolvable[n]];
      statuses.m := statuses.m[n := Status(UnschedulableAndUnresolvable, aggregatedReasons)];
      todo := todo - {n};
    }
    RecordFailed(statuses, reply, before);
  }

  method RecordFailed(statuses: StatusMap, reply: FilterReply, ghost before: Statuses)
    requires reply.Filtered?
    requires statuses.m == MergedPart(before, reply, reply.unresolvable.Keys, {})
    modifies statuses
    ensures statuses.m == Merged(before, reply)
  {
    ghost var u := reply.unresolvable.Keys;
    var todo := reply.failed.Keys;
    while todo != {}
      invariant todo <= reply.failed.Keys
      invariant statuses.m == MergedPart(before, reply, u, reply.failed.Keys - todo - u)
      decreases todo
    {
      var n :| n in todo;
      ghost var done := reply.failed.Keys - todo - u;
      assert reply.failed.Keys - (todo - {n}) - u == if n in u then done else done + {n};
      if n !in reply.unresolvable {
        RecordOneFailed(before, reply, done, n);
        if n !in statuses.m {
          statuses.m := statuses.m[n := Status(Unschedulable, [reply.failed[n]])];
        } else {
          var status := statuses.m[n];
          statuses.m := statuses.m[n := status.(reasons := status.reasons + [reply.failed[n]])];
        }
      }
      todo := todo - {n};
    }
  }

  lemma RecordOneFailed(before: Statuses, reply: FilterReply, f: set<NodeName>, n: NodeName)
    requires reply.Filtered? && f <= reply.failed.Keys && n in reply.failed && n !in f
    requires n !in reply.unresolvable
    ensures var now := MergedPart(before, reply, reply.unresolvable.Keys, f);
      MergedPart(before, reply, reply.unresolvable.Keys, f + {n}) == now[n := FailedStatus(now, n, reply.failed[n])]
  {
  }

  // ---------- the fold over the extenders ----------

  datatype ExtenderRun = ExtenderRun(result: Outcome<seq<NodeName>>, statuses: Statuses)

  function RunExtenders(extenders: seq<Extender>, nodes: seq<NodeName>, statuses: Statuses): ExtenderRun {
    if |extenders| == 0 || |nodes| == 0 then
      ExtenderRun(Ok(nodes), statuses)
    else if !extenders[0].interested then
      RunExtenders(extenders[1..], nodes, statuses)
    else
      match extenders[0].filter(nodes)
      case FilterError(e) =>
        if extenders[0].ignorable then RunExtenders(extenders[1..], nodes, statuses)
        else ExtenderRun(Err(e), statuses)
      case Filtered(feasible, _, _) =>
        RunExtenders(extenders[1..], feasible, Merged(statuses, extenders[0].filter(nodes)))
  }

  method FindNodesThatPassExtenders(extenders: seq<Extender>, nodes: seq<NodeName>, statuses: StatusMap)
    returns (r: Outcome<seq<NodeName>>)
    modifies statuses
    ensures ExtenderRun(r, statuses.m) == RunExtenders(extenders, nodes, old(statuses.m))
  {
    var feasibleNodes := nodes;
    var i := 0;
    while i < |extenders|
      invariant 0 <= i <= |extenders|
      invariant RunExtenders(extenders[i..], feasibleNodes, statuses.m) == RunExtenders(extenders, nodes, old(statuses.m))
    {
      ghost var rest := extenders[i..];
      assert rest[1..] == extenders[i + 1..];
      if |feasibleNodes| == 0 {
        break;
      }
      var extender := extenders[i];
      if extender.interested {
        var reply := extender.filter(feasibleNodes);
        if reply.FilterError? {
          if !extender.ignorable {
            return Err(reply.error);
          }
        } else {
          Record(statuses, reply);
          feasibleNodes := reply.feasible;
        }
      }
      i := i + 1;
    }
    return Ok(feasibleNodes);
  }

  // ---------- contracts of the extenders ----------

  // Filter returns a sublist of the nodes it is given.
  ghost predicate WellBehaved(e: Extender) {
    forall ns :: e.filter(ns).Filtered? ==> IsSublist(e.filter(ns).feasible, ns)
  }

  ghost predicate AllWellBehaved(extenders: seq<Extender>) {
    forall i :: 0 <= i < |extenders| ==> WellBehaved(extenders[i])
  }

  ghost function Reported(reply: FilterReply): set<NodeName>
    requires reply.Filtered?
  {
    reply.failed.Keys + reply.unresolvable.Keys
  }

  ghost function Dropped(reply: FilterReply, ns: seq<NodeName>): set<NodeName>
    requires reply.Filtered?
  {
    Elements(ns) - Elements(reply.feasible)
  }

  // An extender that reports no node but those it drops.
  ghost predicate ReportsOnlyDropped(e: Extender) {
    forall ns :: e.filter(ns).Filtered? ==> Reported(e.filter(ns)) <= Dropped(e.filter(ns), ns)
  }

  // An extender that reports exactly the nodes it drops.
  ghost predicate ReportsAllDropped(e: Extender) {
    forall ns :: e.filter(ns).Filtered? ==> Reported(e.filter(ns)) == Dropped(e.filter(ns), ns)
  }

  // ---------- the surviving nodes ----------

  // The list of nodes offered to the extender at position i.
  ghost function Offered(extenders: seq<Extender>, nodes: seq<NodeName>, i: nat): seq<NodeName>
    requires i <= |extenders|
  {
    if i == 0 then nodes
    else
      var before := Offered(extenders, nodes, i - 1);
      if |before| == 0 || !Answers(extenders[i - 1], before) then before
      else extenders[i - 1].filter(before).feasible
  }

  ghost predicate Answers(e: Extender, ns: seq<NodeName>) {
    e.interested && e.filter(ns).Filtered?
  }

  // The extender makes the whole search fail.
  ghost predicate Refuses(e: Extender, ns: seq<NodeName>) {
    |ns| > 0 && e.interested && e.filter(ns).FilterError? && !e.ignorable
  }

  lemma {:induction false} OfferedShift(extenders: seq<Extender>, nodes: seq<NodeName>, i: nat)
    requires 0 < |extenders| && i < |extenders|
    ensures Offered(extenders, nodes, i + 1) == Offered(extenders[1..], Offered(extenders, nodes, 1), i)
  {
    if i > 0 {
      OfferedShift(extenders, nodes, i - 1);
    }
  }

  lemma {:induction false} OfferedStaysEmpty(extenders: seq<Extender>, nodes: seq<NodeName>, i: nat)
    requires i <= |extenders| && |nodes| == 0
    ensures Offered(extenders, nodes, i) == nodes
  {
    if i > 0 {
      OfferedStaysEmpty(extenders, nodes, i - 1);
    }
  }

  // The search fails exactly when some extender that may not be ignored answers
  // with an error; otherwise it yields what the last extender leaves.
  lemma {:induction false} RunEndsWith(extenders: seq<Extender>, nodes: seq<NodeName>, statuses: Statuses)
    ensures var r := RunExtenders(extenders, nodes, statuses).result;
      && (r.Err? <==> exists i :: 0 <= i < |extenders| && Refuses(extenders[i], Offered(extenders, nodes, i)))
      && (!r.Err? ==> r == Ok(Offered(extenders, nodes, |extenders|)))
    decreases |extenders|
  {
    if |nodes| == 0 {
      forall i | 0 <= i <= |extenders| ensures Offered(extenders, nodes, i) == nodes {
        OfferedStaysEmpty(extenders, nodes, i);
      }
    } else if |extenders| > 0 {
      var rest := extenders[1..];
      var next := Offered(extenders, nodes, 1);
      assert Offered(extenders, nodes, 0) == nodes;
      forall i | 0 <= i < |extenders| ensures Offered(extenders, nodes, i + 1) == Offered(rest, next, i) {
        OfferedShift(extenders, nodes, i);
      }
      if Refuses(extenders[0], nodes) {
        assert Refuses(extenders[0], Offered(extenders, nodes, 0));
      } else {
        var statuses' := if Answers(extenders[0], nodes) then Merged(statuses, extenders[0].filter(nodes)) else statuses;
        RunEndsWith(rest, next, statuses');
        assert RunExtenders(extenders, nodes, statuses) == RunExtenders(rest, next, statuses');
        RefusalShift(extenders, nodes);
      }
    }
  }

  lemma RefusalShift(extenders: seq<Extender>, nodes: seq<NodeName>)
    requires |extenders| > 0 && !Refuses(extenders[0], nodes)
    ensures (exists i :: 0 <= i < |extenders| && Refuses(extenders[i], Offered(extenders, nodes, i)))
       <==> (exists i :: 0 <= i < |extenders| - 1 &&
               Refuses(extenders[1..][i], Offered(extenders[1..], Offered(extenders, nodes, 1), i)))
  {
    var rest, next := extenders[1..], Offered(extenders, nodes, 1);
    forall i | 0 <= i < |rest|
      ensures Refuses(rest[i], Offered(rest, next, i)) <==> Refuses(extenders[i + 1], Offered(extenders, nodes, i + 1))
    {
      OfferedShift(extenders, nodes, i);
    }
    if i :| 0 <= i < |extenders| && Refuses(extenders[i], Offered(extenders, nodes, i)) {
      assert i > 0;
      assert Refuses(rest[i - 1], Offered(rest, next, i - 1));
    }
  }

  // Each extender passes on a sublist of what the ones before it left.
  lemma {:induction false} OfferedShrinks(extenders: seq<Extender>, nodes: seq<NodeName>, i: nat, j: nat)
    requires AllWellBehaved(extenders) && i <= j <= |extenders|
    ensures IsSublist(Offered(extenders, nodes, j), Offered(extenders, nodes, i))
    decreases j
  {
    var a := Offered(extenders, nodes, j);
    if i == j {
      SublistReflexive(a);
    } else {
      var b := Offered(extenders, nodes, j - 1);
      OfferedShrinks(extenders, nodes, i, j - 1);
      if |b| == 0 || !Answers(extenders[j - 1], b) {
        assert a == b;
      } else {
        assert WellBehaved(extenders[j - 1]);
        assert a == extenders[j - 1].filter(b).feasible;
        SublistTransitive(a, b, Offered(extenders, nodes, i));
      }
    }
  }

  lemma SublistReflexive<T>(s: seq<T>)
    ensures IsSublist(s, s)
  {
    var at := seq(|s|, (i: nat) => i);
    assert SublistAt(s, s, at);
  }

  lemma SublistTransitive<T>(a: seq<T>, b: seq<T>, c: seq<T>)
    requires IsSublist(a, b) && IsSublist(b, c)
    ensures IsSublist(a, c)
  {
    var at1: seq<nat> :| SublistAt(a, b, at1);
    var at2: seq<nat> :| SublistAt(b, c, at2);
    var at := seq(|a|, i requires 0 <= i < |a| => at2[at1[i]]);
    assert SublistAt(a, c, at);
  }

  // A surviving node was let through by every extender that answered.
  lemma SurvivorsPassedEveryExtender(extenders: seq<Extender>, nodes: seq<NodeName>, statuses: Statuses, n: NodeName)
    requires AllWellBehaved(extenders)
    requires RunExtenders(extenders, nodes, statuses).result.Ok?
    requires n in RunExtenders(extenders, nodes, statuses).result.value
    ensures n in nodes
    ensures forall i :: 0 <= i < |extenders| && Answers(extenders[i], Offered(extenders, nodes, i))
              ==> n in extenders[i].filter(Offered(extenders, nodes, i)).feasible
  {
    RunEndsWith(extenders, nodes, statuses);
    InEveryOffer(extenders, nodes, n);
    forall i | 0 <= i < |extenders| && Answers(extenders[i], Offered(extenders, nodes, i))
      ensures n in extenders[i].filter(Offered(extenders, nodes, i)).feasible
    {
      assert n in Offered(extenders, nodes, i);
      assert n in Offered(extenders, nodes, i + 1);
    }
  }

  lemma InEveryOffer(extenders: seq<Extender>, nodes: seq<NodeName>, n: NodeName)
    requires AllWellBehaved(extenders)
    requires n in Offered(extenders, nodes, |extenders|)
    ensures forall i :: 0 <= i <= |extenders| ==> n in Offered(extenders, nodes, i)
    ensures n in nodes
  {
    var last := Offered(extenders, nodes, |extenders|);
    forall i | 0 <= i <= |extenders| ensures n in Offered(extenders, nodes, i) {
      OfferedShrinks(extenders, nodes, i, |extenders|);
      var at: seq<nat> :| SublistAt(last, Offered(extenders, nodes, i), at);
      var k :| 0 <= k < |last| && last[k] == n;
      assert Offered(extenders, nodes, i)[at[k]] == n;
    }
    assert n in Offered(extenders, nodes, 0);
  }

  // ---------- the status map ----------

  // later records everything earlier does: reasons are only extended, and an
  // UnschedulableAndUnresolvable node stays so.
  ghost predicate Extends(later: Statuses, earlier: Statuses) {
    forall n :: n in earlier ==>
      && n in later
      && earlier[n].reasons <= later[n].reasons
      && (later[n].code == earlier[n].code || later[n].code == UnschedulableAndUnresolvable)
  }

  lemma {:induction false} StatusesOnlyGrow(extenders: seq<Extender>, nodes: seq<NodeName>, statuses: Statuses)
    ensures Extends(RunExtenders(extenders, nodes, statuses).statuses, statuses)
    decreases |extenders|
  {
    if |extenders| > 0 && |nodes| > 0 {
      var e := extenders[0];
      if Answers(e, nodes) {
        var merged := Merged(statuses, e.filter(nodes));
        StatusesOnlyGrow(extenders[1..], e.filter(nodes).feasible, merged);
        ExtendsTransitive(RunExtenders(extenders, nodes, statuses).statuses, merged, statuses);
      } else if !Refuses(e, nodes) {
        StatusesOnlyGrow(extenders[1..], nodes, statuses);
      }
    }
  }

  lemma ExtendsTransitive(c: Statuses, b: Statuses, a: Statuses)
    requires Extends(c, b) && Extends(b, a)
    ensures Extends(c, a)
  {
  }

  // What the extenders report is recorded, and nothing else is.
  ghost predicate Bookkeeping(before: Statuses, nodes: seq<NodeName>, after: Statuses, left: seq<NodeName>) {
    && Distinct(left) && Elements(left) <= Elements(nodes)
    && Elements(left) !! after.Keys
    && before.Keys <= after.Keys <= before.Keys + (Elements(nodes) - Elements(left))
  }

  lemma {:induction false} DroppedNodesAreKept(extenders: seq<Extender>, nodes: seq<NodeName>, statuses: Statuses)
    requires AllWellBehaved(extenders) && Distinct(nodes) && Elements(nodes) !! statuses.Keys
    requires forall i :: 0 <= i < |extenders| ==> ReportsOnlyDropped(extenders[i])
    requires RunExtenders(extenders, nodes, statuses).result.Ok?
    ensures var r := RunExtenders(extenders, nodes, statuses);
      Bookkeeping(statuses, nodes, r.statuses, r.result.value)
    decreases |extenders|
  {
    if |extenders| > 0 && |nodes| > 0 {
      var e := extenders[0];
      if Answers(e, nodes) {
        var reply := e.filter(nodes);
        OneReply(e, nodes, statuses);
        DroppedNodesAreKept(extenders[1..], reply.feasible, Merged(statuses, reply));
      } else {
        DroppedNodesAreKept(extenders[1..], nodes, statuses);
      }
    }
  }

  lemma OneReply(e: Extender, nodes: seq<NodeName>, statuses: Statuses)
    requires WellBehaved(e) && ReportsOnlyDropped(e) && Answers(e, nodes)
    requires Distinct(nodes) && Elements(nodes) !! statuses.Keys
    ensures var reply := e.filter(nodes);
      Bookkeeping(statuses, nodes, Merged(statuses, reply), reply.feasible)
  {
  }

  // When every extender reports each node it drops, the number of feasible plus
  // recorded nodes is unchanged.
  lemma {:induction false} NodesAreConserved(extenders: seq<Extender>, nodes: seq<NodeName>, statuses: Statuses)
    requires AllWellBehaved(extenders) && Distinct(nodes) && Elements(nodes) !! statuses.Keys
    requires forall i :: 0 <= i < |extenders| ==> ReportsAllDropped(extenders[i])
    requires RunExtenders(extenders, nodes, statuses).result.Ok?
    ensures var r := RunExtenders(extenders, nodes, statuses);
      |r.result.value| + |r.statuses| == |nodes| + |statuses|
    decreases |extenders|
  {
    if |extenders| > 0 && |nodes| > 0 {
      var e := extenders[0];
      if Answers(e, nodes) {
        var reply := e.filter(nodes);
        OneReplyConserves(e, nodes, statuses);
        NodesAreConserved(extenders[1..], reply.feasible, Merged(statuses, reply));
      } else {
        NodesAreConserved(extenders[1..], nodes, statuses);
      }
    }
  }

  lemma OneReplyConserves(e: Extender, nodes: seq<NodeName>, statuses: Statuses)
    requires WellBehaved(e) && ReportsAllDropped(e) && Answers(e, nodes)
    requires Distinct(nodes) && Elements(nodes) !! statuses.Keys
    ensures var reply := e.filter(nodes);
      && Distinct(reply.feasible) && Elements(reply.feasible) !! Merged(statuses, reply).Keys
      && |reply.feasible| + |Merged(statuses, reply)| == |nodes| + |statuses|
  {
    var reply := e.filter(nodes);
    OneReply(e, nodes, statuses);
    SublistDistinct(reply.feasible, nodes);
    DistinctSize(reply.feasible);
    DistinctSize(nodes);
    MergedSize(statuses, reply, Dropped(reply, nodes));
    SplitSize(Elements(nodes), Elements(reply.feasible));
  }

  lemma MergedSize(statuses: Statuses, reply: FilterReply, dropped: set<NodeName>)
    requires reply.Filtered? && Reported(reply) == dropped && dropped !! statuses.Keys
    ensures |Merged(statuses, reply)| == |statuses| + |dropped|
  {
    var merged := Merged(statuses, reply);
    assert merged.Keys == statuses.Keys + dropped;
    assert |merged| == |merged.Keys| && |statuses| == |statuses.Keys|;
  }

  lemma SplitSize(all: set<NodeName>, kept: set<NodeName>)
    requires kept <= all
    ensures |all| == |kept| + |all - kept|
  {
  }
}
