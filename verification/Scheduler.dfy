// The scheduling algorithm of one cycle: findNodesThatPassFilters,
// findNodesThatFitPod and schedulePod (scheduler/schedule_one.go:395-663) as
// methods of the Scheduler, whose nextStartNodeIndex they rotate.
module Scheduler {
  import opened Common
  import opened Quota
  import opened FilterSearch
  import opened RoundRobin
  import opened NodeSearch
  import opened Feasibility
  import opened Extenders
  import opened ScoreOrder
  import opened Prioritize
  import opened Reservoir
  import opened HostSelection
  import opened Placements

  class Scheduler {
    const config: Config
    var nextStartNodeIndex: nat

    constructor (config: Config)
      ensures this.config == config && nextStartNodeIndex == 0
    {
      this.config := config;
      nextStartNodeIndex := 0;
    }

    method FindNodesThatPassFilters(fwk: Framework, nodes: seq<NodeName>, statuses: StatusMap, mode: Mode)
      returns (found: seq<NodeName>, err: Option<string>, ghost phase: Searching)
      requires |nodes| > 0 && Distinct(nodes) && Configured(config, fwk, nodes)
      modifies statuses
      ensures FilterPhase(fwk, SearchTask(config, fwk, nodes, nextStartNodeIndex), mode, phase)
      ensures found == phase.found && err == phase.err
      ensures statuses.m == old(statuses.m) + phase.recorded
    {
      var t := SearchTask(config, fwk, nodes, nextStartNodeIndex);
      if !fwk.hasFilterPlugins {
        found := TakeFromRing(t);
        err := None;
        phase := Searching(found, map[], None, false);
        assert statuses.m == statuses.m + phase.recorded;
      } else {
        found, err, phase := SearchNodes(t, statuses, mode);
      }
    }

    // Without filter plugins, the first numNodesToFind nodes of the ring.
    method TakeFromRing(t: Task) returns (found: seq<NodeName>)
      requires 0 < t.quota <= |t.nodes|
      ensures found == Ring(t)[..t.quota]
    {
      var feasibleNodes := new NodeName[t.quota](_ => "");
      for i := 0 to t.quota
        invariant feasibleNodes[..i] == Ring(t)[..i]
      {
        feasibleNodes[i] := t.At(i);
      }
      found := feasibleNodes[..];
    }

    method SearchNodes(t: Task, statuses: StatusMap, mode: Mode)
      returns (found: seq<NodeName>, err: Option<string>, ghost phase: Searching)
      requires Distinct(t.nodes)
      modifies statuses
      ensures statuses.m == old(statuses.m) + phase.recorded
      ensures found == phase.found && err == phase.err
      ensures Searched(t, found, phase.recorded, err, phase.interrupted)
      ensures phase.interrupted ==> MayInterrupt(mode)
      ensures mode.OneAtATime? ==> SearchedInOrder(t, found, phase.recorded, err)
    {
      var search := new NodeSearch(t);
      RunSearch(search, mode);
      ghost var s := search.State();
      SearchResult(t, s);
      if mode.OneAtATime? {
        RecordedRejections(t, s);
        InOrderCount(t, s);
      }
      found := CollectFound(search);
      RecordResult(search, statuses);
      err := search.errCh;
      phase := Searching(found, Recorded(t, s.rejected, |t.nodes|), err, search.interrupted);
    }

    method RunSearch(search: NodeSearch, mode: Mode)
      requires search.Valid() && search.State() == InitialSearch(search.task) && Distinct(search.task.nodes)
      modifies search`feasibleNodesLen, search`cancelled, search`errCh, search`owners, search`interrupted,
               search.pieces, search.feasibleNodes, search.result
      ensures search.Valid() && Quiescent(search.State())
      ensures search.interrupted ==> MayInterrupt(mode)
      ensures mode.OneAtATime? ==> RanInOrder(search.task, search.State())
    {
      match mode {
        case OneAtATime =>
          search.UntilInOrder();
        case Parallel(mayInterrupt) =>
          search.Until(mayInterrupt);
      }
    }

    // feasibleNodes[:feasibleNodesLen]
    method CollectFound(search: NodeSearch) returns (found: seq<NodeName>)
      requires search.Valid() && Quiescent(search.State())
      ensures forall k :: 0 <= k < |search.owners| ==> search.owners[k] < |search.task.nodes|
      ensures found == Found(search.task, search.State())
    {
      QuiescentSlots(search.task, search.State());
      ghost var s := search.State();
      found := [];
      for i := 0 to search.feasibleNodesLen
        invariant |found| == i
        invariant forall k :: 0 <= k < i ==> found[k] == search.task.At(s.owners[k])
      {
        assert s.feasible[i] == search.feasibleNodes[i];
        found := found + [search.feasibleNodes[i].value];
      }
    }

    // Every rejection seen goes into the status map.
    method RecordResult(search: NodeSearch, statuses: StatusMap)
      requires search.result.Length == |search.task.nodes|
      modifies statuses
      ensures statuses.m == old(statuses.m) + Recorded(search.task, search.result[..], |search.task.nodes|)
    {
      ghost var rejected := search.result[..];
      for i := 0 to search.result.Length
        invariant rejected == search.result[..]
        invariant statuses.m == old(statuses.m) + Recorded(search.task, rejected, i)
      {
        if search.result[i].Some? {
          statuses.m := statuses.m[search.task.At(i) := search.result[i].value];
        }
      }
    }

    // PreFilter rejected the pod: all nodes get the same status.
    method RejectAll(allNodes: seq<NodeName>, status: Status, statuses: StatusMap)
      modifies statuses
      ensures statuses.m == old(statuses.m) + map n | n in allNodes :: status
    {
      for i := 0 to |allNodes|
        invariant statuses.m == old(statuses.m) + map n | n in allNodes[..i] :: status
      {
        statuses.m := statuses.m[allNodes[i] := status];
        assert allNodes[..i + 1] == allNodes[..i] + [allNodes[i]];
      }
      assert allNodes[..|allNodes|] == allNodes;
    }

    method ApplyPreFilterResult(allNodes: seq<NodeName>, names: Option<set<NodeName>>, statuses: StatusMap)
      returns (nodes: seq<NodeName>)
      modifies statuses
      ensures nodes == Kept(allNodes, names)
      ensures statuses.m == old(statuses.m) + Excluded(allNodes, names)
    {
      nodes := [];
      for i := 0 to |allNodes|
        invariant nodes == Kept(allNodes[..i], names)
        invariant statuses.m == old(statuses.m) + Excluded(allNodes[..i], names)
      {
        KeepOneMore(allNodes, i, names);
        if names.Some? && allNodes[i] !in names.value {
          statuses.m := statuses.m[allNodes[i] := EXCLUDED];
          assert statuses.m == old(statuses.m) + Excluded(allNodes[..i], names)[allNodes[i] := EXCLUDED];
        } else {
          nodes := nodes + [allNodes[i]];
        }
      }
      assert allNodes[..|allNodes|] == allNodes;
    }

    // evaluateNominatedNode; an error only means that no node is returned.
    method EvaluateNominatedNode(fwk: Framework, nominated: NodeName, allNodes: seq<NodeName>, statuses: StatusMap, mode: Mode)
      returns (feasible: seq<NodeName>, ghost tried: Option<Searching>)
      requires Distinct(allNodes) && Configured(config, fwk, allNodes)
      modifies statuses
      ensures Tried(config, fwk, Some(nominated), allNodes, nextStartNodeIndex, mode, tried)
      ensures feasible == Yield(Nomination(config, tried, old(statuses.m)).result)
      ensures statuses.m == Nomination(config, tried, old(statuses.m)).statuses
    {
      feasible, tried := [], None;
      if nominated !in allNodes {
        return;
      }
      var found, err, phase := FindNodesThatPassFilters(fwk, [nominated], statuses, mode);
      tried := Some(phase);
      if err.Some? {
        return;
      }
      var r := FindNodesThatPassExtenders(config.extenders, found, statuses);
      if r.Ok? {
        feasible := r.value;
      }
    }

    method FindNodesThatFitPod(rq: Request, statuses: StatusMap)
      returns (r: Outcome<seq<NodeName>>, ghost route: Route, ghost fit: Fit)
      requires Distinct(rq.snapshot) && Configured(config, rq.fwk, rq.snapshot)
      modifies this`nextStartNodeIndex, statuses
      ensures Fits(config, rq, old(nextStartNodeIndex), old(statuses.m), route, fit)
      ensures r == fit.result && statuses.m == fit.statuses
      ensures nextStartNodeIndex == NextIndex(old(nextStartNodeIndex), fit.advance)
    {
      match rq.fwk.preFilter {
        case PreFilterFailed(error) =>
          return Err(error), NotSearched, Fit(Err(error), statuses.m, Stays);
        case PreFilterRejected(status) =>
          RejectAll(rq.snapshot, status, statuses);
          return Ok([]), NotSearched, Fit(Ok([]), statuses.m, Stays);
        case PreFilterPassed(_) =>
      }
      r, route, fit := FitAfterPreFilter(rq, statuses);
    }

    // The nominated node first, then the full search.
    method FitAfterPreFilter(rq: Request, statuses: StatusMap)
      returns (r: Outcome<seq<NodeName>>, ghost route: Route, ghost fit: Fit)
      requires Distinct(rq.snapshot) && Configured(config, rq.fwk, rq.snapshot) && rq.fwk.preFilter.PreFilterPassed?
      modifies this`nextStartNodeIndex, statuses
      ensures PassedPreFilter(config, rq, old(nextStartNodeIndex), old(statuses.m), route, fit)
      ensures r == fit.result && statuses.m == fit.statuses
      ensures nextStartNodeIndex == NextIndex(old(nextStartNodeIndex), fit.advance)
    {
      ghost var tried: Option<Searching> := None;
      if rq.nominated.Some? {
        var feasible;
        feasible, tried := EvaluateNominatedNode(rq.fwk, rq.nominated.value, rq.snapshot, statuses, rq.mode);
        if |feasible| > 0 {
          return Ok(feasible), Searches(tried, None), Fit(Ok(feasible), statuses.m, Stays);
        }
      }
      ghost var search;
      r, search, fit := SearchAndExtend(rq.fwk, rq.snapshot, statuses, rq.mode);
      route := Searches(tried, search);
    }

    // The full search: PreFilter's node set, the filter plugins, the extenders.
    method SearchAndExtend(fwk: Framework, allNodes: seq<NodeName>, statuses: StatusMap, mode: Mode)
      returns (r: Outcome<seq<NodeName>>, ghost search: Option<Searching>, ghost fit: Fit)
      requires Distinct(allNodes) && Configured(config, fwk, allNodes) && fwk.preFilter.PreFilterPassed?
      modifies this`nextStartNodeIndex, statuses
      ensures |Kept(allNodes, fwk.preFilter.nodeNames)| <= |allNodes|
      ensures FullSearch(config, fwk, SearchTask(config, fwk, Kept(allNodes, fwk.preFilter.nodeNames), old(nextStartNodeIndex)),
                         mode, search, old(statuses.m) + Excluded(allNodes, fwk.preFilter.nodeNames), fit)
      ensures r == fit.result && statuses.m == fit.statuses
      ensures nextStartNodeIndex == NextIndex(old(nextStartNodeIndex), fit.advance)
    {
      KeptMeaning(allNodes, fwk.preFilter.nodeNames);
      KeptNoMore(allNodes, fwk.preFilter.nodeNames);
      var nodes := ApplyPreFilterResult(allNodes, fwk.preFilter.nodeNames, statuses);
      if |nodes| == 0 {
        // The source takes a remainder modulo len(nodes).
        return Panic, None, Fit(Panic, statuses.m, Stays);
      }
      var found, err, phase, advance := FilterAndRotate(fwk, nodes, statuses, mode);
      search := Some(phase);
      if err.Some? {
        r := Err(err.value);
      } else {
        r := FindNodesThatPassExtenders(config.extenders, found, statuses);
      }
      fit := Fit(r, statuses.m, advance);
    }

    // The filter phase; nextStartNodeIndex moves on whether or not it fails.
    method FilterAndRotate(fwk: Framework, nodes: seq<NodeName>, statuses: StatusMap, mode: Mode)
      returns (found: seq<NodeName>, err: Option<string>, ghost phase: Searching, ghost advance: Advance)
      requires |nodes| > 0 && Distinct(nodes) && Configured(config, fwk, nodes)
      modifies this`nextStartNodeIndex, statuses
      ensures FilterPhase(fwk, SearchTask(config, fwk, nodes, old(nextStartNodeIndex)), mode, phase)
      ensures found == phase.found && err == phase.err
      ensures statuses.m == old(statuses.m) + phase.recorded
      ensures advance == Moves(|found| + |statuses.m|, |nodes|)
      ensures nextStartNodeIndex == NextIndex(old(nextStartNodeIndex), advance)
    {
      found, err, phase := FindNodesThatPassFilters(fwk, nodes, statuses, mode);
      var processedNodes := |found| + |statuses.m|;
      advance := Moves(processedNodes, |nodes|);
      nextStartNodeIndex := Rotated(nextStartNodeIndex, processedNodes, |nodes|);
    }

    // schedulePod.  The pod fits no node, or a step before failed: Err.
    method SchedulePod(rq: Request, draws: seq<nat>) returns (r: Outcome<ScheduleResult>, ghost pl: Placement)
      requires Distinct(rq.snapshot) && Configured(config, rq.fwk, rq.snapshot) && WellScored(rq.fwk)
      requires AllWellBehaved(config.extenders) && |draws| >= |rq.snapshot|
      modifies this`nextStartNodeIndex
      ensures Schedules(config, rq, old(nextStartNodeIndex), pl) && pl.result == r
      ensures nextStartNodeIndex == NextIndex(old(nextStartNodeIndex), pl.fit.advance)
      ensures r.Ok? ==> SoundHost(config, rq, pl.route, r.value.suggestedHost)
      ensures r.Ok? && rq.nominated.None? && ReportOnlyDropped(config.extenders) ==>
                1 <= r.value.feasibleNodes <= r.value.evaluatedNodes <= |rq.snapshot|
      ensures rq.nominated.None? || !MayInterrupt(rq.mode) ==> (r.Panic? <==> NothingKept(rq) && !NominationYields(config, rq))
      ensures !MayInterrupt(rq.mode) && r.Err? ==> HasCause(config, rq, old(nextStartNodeIndex), pl)
    {
      ghost var start := nextStartNodeIndex;
      r, pl := PlacePod(rq, draws);
      PanicsExactly(config, rq, start, pl);
      if r.Ok? {
        SuggestedHostIsSound(config, rq, start, pl);
        if rq.nominated.None? && ReportOnlyDropped(config.extenders) {
          CountsAreBounded(config, rq, start, pl);
        }
      }
      if !MayInterrupt(rq.mode) {
        FailsWithCause(config, rq, start, pl);
      }
    }

    method PlacePod(rq: Request, draws: seq<nat>) returns (r: Outcome<ScheduleResult>, ghost pl: Placement)
      requires Distinct(rq.snapshot) && Configured(config, rq.fwk, rq.snapshot) && WellScored(rq.fwk)
      requires AllWellBehaved(config.extenders) && |draws| >= |rq.snapshot|
      modifies this`nextStartNodeIndex
      ensures Schedules(config, rq, old(nextStartNodeIndex), pl) && pl.result == r
      ensures nextStartNodeIndex == NextIndex(old(nextStartNodeIndex), pl.fit.advance)
    {
      if rq.snapshotError.Some? || |rq.snapshot| == 0 {
        r := Err(if rq.snapshotError.Some? then rq.snapshotError.value else NO_NODES_AVAILABLE);
        pl := Placement(NotSearched, Fit(Ok([]), map[], Stays), r);
        return;
      }
      var diagnosis := new StatusMap();
      ghost var start := nextStartNodeIndex;
      var feasible, route, fit := FindNodesThatFitPod(rq, diagnosis);
      if feasible.Ok? {
        FeasibleFits(config, rq, start, map[], route, fit);
      }
      r := Conclude(rq, feasible, |diagnosis.m|, fit, draws);
      pl := Placement(route, fit, r);
    }

    method Conclude(rq: Request, feasible: Outcome<seq<NodeName>>, recorded: nat, ghost fit: Fit, draws: seq<nat>)
      returns (r: Outcome<ScheduleResult>)
      requires WellScored(rq.fwk) && feasible == fit.result && recorded == |fit.statuses|
      requires feasible.Ok? ==> |feasible.value| <= |draws|
      ensures Concludes(config, rq, fit, r)
    {
      match feasible {
        case Panic =>
          r := Panic;
        case Err(error) =>
          r := Err(error);
        case Ok(nodes) =>
          if |nodes| == 0 {
            r := Err(FIT_ERROR);
          } else if |nodes| == 1 {
            r := Ok(ScheduleResult(nodes[0], 1 + recorded, 1));
          } else {
            var choice := ChooseHost(rq.fwk, nodes, rq.scale, draws);
            match choice {
              case Ok(host) => r := Ok(ScheduleResult(host, |nodes| + recorded, |nodes|));
              case Err(error) => r := Err(error);
              case Panic => r := Panic;
            }
          }
      }
    }

    // prioritizeNodes and selectHost.
    method ChooseHost(fwk: Framework, feasible: seq<NodeName>, scale: int, draws: seq<nat>) returns (r: Outcome<NodeName>)
      requires |feasible| > 1 && |feasible| <= |draws| + 1 && WellScored(fwk)
      ensures match ScoringError(config, fwk, feasible)
              case Some(error) => r == Err(error)
              case None => r.Ok? && r.value in feasible && BestHost(config.extenders, fwk, feasible, scale, r.value)
    {
      var priorities :=
        PrioritizeNodes(config.extenders, fwk.hasScorePlugins, fwk.preScore(feasible), fwk.score(feasible), feasible, scale);
      if priorities.Err? {
        return Err(priorities.error);
      }
      ghost var scores := priorities.value;
      var list := new NodeScore[|priorities.value|](i requires 0 <= i < |priorities.value| => priorities.value[i]);
      assert list[..] == scores;
      SelectedIsBest(config.extenders, fwk, feasible, scale, scores, draws);
      var selection := SelectHost(list, NUMBER_OF_HIGHEST_SCORED_NODES_TO_REPORT, draws);
      r := Ok(selection.value.host);
    }
  }
}
