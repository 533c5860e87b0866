// What one scheduling cycle's algorithm answers (scheduler/schedule_one.go:395-663):
// the relation between a request, the scheduler's start index and the placement, and
// what follows from it.
module Placements {
  import opened Common
  import opened Quota
  import opened FilterSearch
  import opened RoundRobin
  import opened Feasibility
  import opened Extenders
  import opened ScoreOrder
  import opened Prioritize
  import opened Reservoir
  import opened HostSelection

  datatype PreFilterReply =
    | PreFilterPassed(nodeNames: Option<set<NodeName>>)   // None: all nodes
    | PreFilterRejected(status: Status)
    | PreFilterFailed(error: string)

  // The plugins of one profile as one scheduling cycle sees them.
  datatype Framework = Framework(
    preFilter: PreFilterReply,
    hasFilterPlugins: bool,
    filter: NodeName -> Status,
    hasScorePlugins: bool,
    preScore: seq<NodeName> -> Option<string>,
    score: seq<NodeName> -> ScoreReply,
    percentage: Option<int>)

  // How the pieces of a search are scheduled.
  datatype Mode = Parallel(mayInterrupt: bool) | OneAtATime

  predicate MayInterrupt(mode: Mode) {
    mode.Parallel? && mode.mayInterrupt
  }

  // The scheduler's configuration.
  datatype Config = Config(extenders: seq<Extender>, percentageOfNodesToScore: int)

  // One pod to schedule.
  datatype Request = Request(
    fwk: Framework,
    nominated: Option<NodeName>,
    snapshotError: Option<string>,
    snapshot: seq<NodeName>,
    scale: int,
    mode: Mode)

  // ---------- the size of a search ----------

  // The percentages the configuration allows, and a node count that fits in 32 bits.
  predicate Configured(cfg: Config, fwk: Framework, nodes: seq<NodeName>) {
    && |nodes| <= MAX_INT32
    && 0 <= ConfiguredPercentage(fwk.percentage, cfg.percentageOfNodesToScore) <= 100
  }

  predicate HasScoring(cfg: Config, fwk: Framework) {
    fwk.hasScorePlugins || exists i :: 0 <= i < |cfg.extenders| && cfg.extenders[i].prioritizing
  }

  predicate HasExtenderFilters(cfg: Config) {
    exists i :: 0 <= i < |cfg.extenders| && cfg.extenders[i].filtering
  }

  function NumNodesToFind(cfg: Config, fwk: Framework, nodes: seq<NodeName>): (q: nat)
    requires Configured(cfg, fwk, nodes)
    ensures |nodes| > 0 ==> 1 <= q <= |nodes|
  {
    QuotaBounds(fwk.percentage, cfg.percentageOfNodesToScore, |nodes|);
    if !HasExtenderFilters(cfg) && !HasScoring(cfg, fwk) then 1
    else NumFeasibleNodesToFind(fwk.percentage, cfg.percentageOfNodesToScore, |nodes|)
  }

  function SearchTask(cfg: Config, fwk: Framework, nodes: seq<NodeName>, start: nat): Task
    requires Configured(cfg, fwk, nodes)
  {
    Task(nodes, start, NumNodesToFind(cfg, fwk, nodes), fwk.filter)
  }

  // ---------- the filter phase ----------

  // What one call of findNodesThatPassFilters leaves.
  datatype Searching = Searching(found: seq<NodeName>, recorded: Statuses, err: Option<string>, interrupted: bool)

  ghost predicate FilterPhase(fwk: Framework, t: Task, mode: Mode, p: Searching) {
    if fwk.hasFilterPlugins then
      && Searched(t, p.found, p.recorded, p.err, p.interrupted)
      && (p.interrupted ==> MayInterrupt(mode))
      && (mode.OneAtATime? ==> SearchedInOrder(t, p.found, p.recorded, p.err))
    else
      t.quota <= |t.nodes| && p == Searching(Ring(t)[..t.quota], map[], None, false)
  }

  // found as the nodes that pass the filter phase on nodes.
  ghost predicate Passed(fwk: Framework, nodes: seq<NodeName>, found: seq<NodeName>) {
    && Distinct(found) && Elements(found) <= Elements(nodes)
    && (fwk.hasFilterPlugins ==> forall n :: n in found ==> fwk.filter(n).code == Success)
  }

  // recorded are the rejections of the same phase.
  ghost predicate Narrowed(fwk: Framework, nodes: seq<NodeName>, found: seq<NodeName>, recorded: Statuses) {
    Passed(fwk, nodes, found) && recorded.Keys <= Elements(nodes) - Elements(found)
  }

  lemma SearchNarrows(fwk: Framework, t: Task, found: seq<NodeName>, recorded: Statuses, err: Option<string>, interrupted: bool)
    requires t.filter == fwk.filter && Searched(t, found, recorded, err, interrupted)
    ensures Narrowed(fwk, t.nodes, found, recorded)
  {
    forall n | n in found ensures n in t.nodes && fwk.filter(n).code == Success && n !in recorded {
      assert n in Elements(found);
      assert n in PassingNodes(t);
    }
  }

  lemma RingNarrows(fwk: Framework, t: Task)
    requires Distinct(t.nodes) && t.quota <= |t.nodes| && !fwk.hasFilterPlugins
    ensures Narrowed(fwk, t.nodes, Ring(t)[..t.quota], map[])
    ensures |Ring(t)[..t.quota]| == t.quota
  {
    RingIsPermutation(t);
    forall n | n in Ring(t)[..t.quota] ensures n in t.nodes {
      assert n in Elements(Ring(t));
    }
  }

  lemma PhaseNarrows(fwk: Framework, t: Task, mode: Mode, p: Searching)
    requires t.filter == fwk.filter && Distinct(t.nodes) && FilterPhase(fwk, t, mode, p)
    ensures Narrowed(fwk, t.nodes, p.found, p.recorded)
  {
    if fwk.hasFilterPlugins {
      SearchNarrows(fwk, t, p.found, p.recorded, p.err, p.interrupted);
    } else {
      RingNarrows(fwk, t);
    }
  }

  // ---------- findNodesThatFitPod ----------

  // The nodes that survive the PreFilter result, in snapshot order.
  function Kept(all: seq<NodeName>, names: Option<set<NodeName>>): seq<NodeName> {
    if |all| == 0 then []
    else
      var rest := Kept(all[..|all| - 1], names);
      if names.None? || all[|all| - 1] in names.value then rest + [all[|all| - 1]] else rest
  }

  const EXCLUDED := Status(UnschedulableAndUnresolvable, ["node is filtered out by the prefilter result"])

  ghost function Excluded(all: seq<NodeName>, names: Option<set<NodeName>>): Statuses {
    map n | n in all && names.Some? && n !in names.value :: EXCLUDED
  }

  lemma {:induction false} KeptMeaning(all: seq<NodeName>, names: Option<set<NodeName>>)
    requires Distinct(all)
    ensures Distinct(Kept(all, names))
    ensures forall n :: n in Kept(all, names) <==> n in all && (names.Some? ==> n in names.value)
  {
    if |all| > 0 {
      var init, last := all[..|all| - 1], all[|all| - 1];
      KeptMeaning(init, names);
      assert all == init + [last] && last !in init;
    }
  }

  lemma {:induction false} KeptNoMore(all: seq<NodeName>, names: Option<set<NodeName>>)
    ensures |Kept(all, names)| <= |all|
    ensures |Kept(all, names)| == |all| ==> Kept(all, names) == all && Excluded(all, names) == map[]
  {
    if |all| > 0 {
      KeptNoMore(all[..|all| - 1], names);
      assert all == all[..|all| - 1] + [all[|all| - 1]];
    }
  }

  // One more node of the snapshot is kept or excluded.
  lemma KeepOneMore(all: seq<NodeName>, i: nat, names: Option<set<NodeName>>)
    requires i < |all|
    ensures if names.Some? && all[i] !in names.value then
              && Kept(all[..i + 1], names) == Kept(all[..i], names)
              && Excluded(all[..i + 1], names) == Excluded(all[..i], names)[all[i] := EXCLUDED]
            else
              && Kept(all[..i + 1], names) == Kept(all[..i], names) + [all[i]]
              && Excluded(all[..i + 1], names) == Excluded(all[..i], names)
  {
    assert all[..i + 1][..i] == all[..i];
    assert forall n :: n in all[..i + 1] <==> n in all[..i] || n == all[i];
  }

  lemma {:induction false} KeptEmpty(all: seq<NodeName>, names: Option<set<NodeName>>)
    ensures Kept(all, names) == [] <==> Misses(names, all)
  {
    if |all| > 0 {
      var init, last := all[..|all| - 1], all[|all| - 1];
      KeptEmpty(init, names);
      assert forall n :: n in all <==> n in init || n == last;
      assert last in all;
      assert Misses(names, all) <==> Misses(names, init) && names.Some? && last !in names.value;
      assert |Kept(all, names)| == 0 <==> |Kept(init, names)| == 0 && names.Some? && last !in names.value;
    }
  }

  // PreFilter's node set has no node of the snapshot.
  predicate Misses(names: Option<set<NodeName>>, all: seq<NodeName>) {
    forall n :: n in all ==> names.Some? && n !in names.value
  }

  // The extenders' part after a search, from the status map before it.
  function AfterFilters(cfg: Config, p: Searching, before: Statuses): ExtenderRun {
    if p.err.Some? then ExtenderRun(Err(p.err.value), before + p.recorded)
    else RunExtenders(cfg.extenders, p.found, before + p.recorded)
  }

  // The nominated node's search, if there was one, and the full search, if there was one.
  datatype Route = NotSearched | Searches(tried: Option<Searching>, search: Option<Searching>)

  function Yield(r: Outcome<seq<NodeName>>): seq<NodeName> {
    if r.Ok? then r.value else []
  }

  function Nomination(cfg: Config, tried: Option<Searching>, before: Statuses): ExtenderRun {
    if tried.Some? then AfterFilters(cfg, tried.value, before) else ExtenderRun(Ok([]), before)
  }

  // tried is the search for the nominated node.
  ghost predicate Tried(cfg: Config, fwk: Framework, nominated: Option<NodeName>, all: seq<NodeName>, start: nat, mode: Mode,
                        tried: Option<Searching>)
    requires Configured(cfg, fwk, all)
  {
    && (tried.Some? <==> nominated.Some? && nominated.value in all)
    && (tried.Some? ==> FilterPhase(fwk, SearchTask(cfg, fwk, [nominated.value], start), mode, tried.value))
  }

  type RingSize = n: nat | n > 0 witness 1

  // How far the start index moves along the ring.
  datatype Advance = Stays | Moves(processed: nat, n: RingSize)

  function NextIndex(start: nat, advance: Advance): nat {
    match advance
    case Stays => start
    case Moves(processed, n) => Rotated(start, processed, n)
  }

  // findNodesThatFitPod's answer: the feasible nodes, the status map and the move of
  // the start index.
  datatype Fit = Fit(result: Outcome<seq<NodeName>>, statuses: Statuses, advance: Advance)

  // The full search over the nodes that PreFilter keeps.
  ghost predicate FullSearch(cfg: Config, fwk: Framework, t: Task, mode: Mode, search: Option<Searching>, before: Statuses, fit: Fit) {
    if |t.nodes| == 0 then
      search.None? && fit == Fit(Panic, before, Stays)
    else
      && search.Some? && FilterPhase(fwk, t, mode, search.value)
      && ExtenderRun(fit.result, fit.statuses) == AfterFilters(cfg, search.value, before)
      && fit.advance == Moves(|search.value.found| + |before + search.value.recorded|, |t.nodes|)
  }

  ghost predicate PassedPreFilter(cfg: Config, rq: Request, start: nat, before: Statuses, route: Route, fit: Fit)
    requires Configured(cfg, rq.fwk, rq.snapshot) && rq.fwk.preFilter.PreFilterPassed?
  {
    && route.Searches?
    && Tried(cfg, rq.fwk, rq.nominated, rq.snapshot, start, rq.mode, route.tried)
    && AfterNomination(cfg, rq, start, Nomination(cfg, route.tried, before), route, fit)
  }

  // A nominated node that yields is the answer; otherwise its statuses stay and the
  // full search follows.
  ghost predicate AfterNomination(cfg: Config, rq: Request, start: nat, nomination: ExtenderRun, route: Route, fit: Fit)
    requires Configured(cfg, rq.fwk, rq.snapshot) && rq.fwk.preFilter.PreFilterPassed? && route.Searches?
  {
    var names := rq.fwk.preFilter.nodeNames;
    if Yield(nomination.result) != [] then
      route.search.None? && fit == Fit(nomination.result, nomination.statuses, Stays)
    else
      && |Kept(rq.snapshot, names)| <= |rq.snapshot|
      && FullSearch(cfg, rq.fwk, SearchTask(cfg, rq.fwk, Kept(rq.snapshot, names), start), rq.mode, route.search,
                    nomination.statuses + Excluded(rq.snapshot, names), fit)
  }

  ghost predicate Fits(cfg: Config, rq: Request, start: nat, before: Statuses, route: Route, fit: Fit)
    requires Configured(cfg, rq.fwk, rq.snapshot)
  {
    match rq.fwk.preFilter
    case PreFilterFailed(error) => route.NotSearched? && fit == Fit(Err(error), before, Stays)
    case PreFilterRejected(status) =>
      route.NotSearched? && fit == Fit(Ok([]), before + map n | n in rq.snapshot :: status, Stays)
    case PreFilterPassed(_) => PassedPreFilter(cfg, rq, start, before, route, fit)
  }

  // ---------- schedulePod ----------

  datatype ScheduleResult = ScheduleResult(suggestedHost: NodeName, evaluatedNodes: nat, feasibleNodes: nat)

  const NUMBER_OF_HIGHEST_SCORED_NODES_TO_REPORT := 3

  const NO_NODES_AVAILABLE := "no nodes available to schedule pods"

  const FIT_ERROR := "FitError"

  datatype Placement = Placement(route: Route, fit: Fit, result: Outcome<ScheduleResult>)

  // No feasible node has a better final total than host.
  ghost predicate BestHost(extenders: seq<Extender>, fwk: Framework, feasible: seq<NodeName>, scale: int, host: NodeName) {
    exists h :: 0 <= h < |feasible| && feasible[h] == host && BestIndex(extenders, fwk, feasible, scale, h)
  }

  ghost function Total(extenders: seq<Extender>, fwk: Framework, feasible: seq<NodeName>, scale: int, i: nat): int
    requires i < |feasible|
  {
    FinalTotal(extenders, fwk.hasScorePlugins, feasible, scale, fwk.score(feasible), i)
  }

  ghost predicate BestIndex(extenders: seq<Extender>, fwk: Framework, feasible: seq<NodeName>, scale: int, h: nat)
    requires h < |feasible|
  {
    forall i :: 0 <= i < |feasible| ==> Total(extenders, fwk, feasible, scale, i) <= Total(extenders, fwk, feasible, scale, h)
  }

  lemma SelectedIsBest(extenders: seq<Extender>, fwk: Framework, feasible: seq<NodeName>, scale: int,
                       list: seq<NodeScore>, draws: seq<nat>)
    requires |list| == |feasible| > 0 && |list| <= |draws| + 1
    requires forall i :: 0 <= i < |list| ==> list[i].name == feasible[i] && list[i].total == Total(extenders, fwk, feasible, scale, i)
    ensures var host := Select(list, NUMBER_OF_HIGHEST_SCORED_NODES_TO_REPORT, draws).host;
      host in feasible && BestHost(extenders, fwk, feasible, scale, host)
  {
    var h := SelectedIndex(list, NUMBER_OF_HIGHEST_SCORED_NODES_TO_REPORT, draws);
    assert BestIndex(extenders, fwk, feasible, scale, h);
  }

  // What makes prioritizeNodes fail.
  function ScoringError(cfg: Config, fwk: Framework, feasible: seq<NodeName>): Option<string> {
    if |cfg.extenders| == 0 && !fwk.hasScorePlugins then None
    else if fwk.preScore(feasible).Some? then fwk.preScore(feasible)
    else match fwk.score(feasible)
      case ScoreError(error) => Some(error)
      case Scored(_) => None
  }

  // From the feasible nodes to the result.
  ghost predicate Concludes(cfg: Config, rq: Request, fit: Fit, r: Outcome<ScheduleResult>) {
    match fit.result
    case Panic => r == Panic
    case Err(error) => r == Err(error)
    case Ok(feasible) =>
      if |feasible| == 0 then r == Err(FIT_ERROR)
      else if |feasible| == 1 then r == Ok(ScheduleResult(feasible[0], 1 + |fit.statuses|, 1))
      else match ScoringError(cfg, rq.fwk, feasible)
        case Some(error) => r == Err(error)
        case None =>
          && r.Ok?
          && r.value == ScheduleResult(r.value.suggestedHost, |feasible| + |fit.statuses|, |feasible|)
          && r.value.suggestedHost in feasible
          && BestHost(cfg.extenders, rq.fwk, feasible, rq.scale, r.value.suggestedHost)
  }

  ghost predicate SnapshotUsable(rq: Request) {
    rq.snapshotError.None? && |rq.snapshot| > 0
  }

  ghost predicate Schedules(cfg: Config, rq: Request, start: nat, pl: Placement)
    requires Configured(cfg, rq.fwk, rq.snapshot)
  {
    if !SnapshotUsable(rq) then
      && pl.route.NotSearched? && pl.fit.advance == Stays
      && pl.result == Err(if rq.snapshotError.Some? then rq.snapshotError.value else NO_NODES_AVAILABLE)
    else
      Fits(cfg, rq, start, map[], pl.route, pl.fit) && Concludes(cfg, rq, pl.fit, pl.result)
  }

  // ---------- what a suggested host has been through ----------

  // The contract of RunScorePlugins for every list of nodes.
  ghost predicate WellScored(fwk: Framework) {
    forall ns :: ScoresNodes(fwk.score(ns), ns)
  }

  ghost predicate LetThrough(extenders: seq<Extender>, found: seq<NodeName>, host: NodeName) {
    forall i :: 0 <= i < |extenders| && Answers(extenders[i], Offered(extenders, found, i))
      ==> host in extenders[i].filter(Offered(extenders, found, i)).feasible
  }

  lemma OfferedSurvive(extenders: seq<Extender>, found: seq<NodeName>, host: NodeName)
    requires AllWellBehaved(extenders) && host in Offered(extenders, found, |extenders|)
    ensures host in found && LetThrough(extenders, found, host)
  {
    InEveryOffer(extenders, found, host);
    forall i | 0 <= i < |extenders| && Answers(extenders[i], Offered(extenders, found, i))
      ensures host in extenders[i].filter(Offered(extenders, found, i)).feasible
    {
      assert host in Offered(extenders, found, i) && host in Offered(extenders, found, i + 1);
    }
  }

  // The search whose nodes the extenders were offered last.
  function Source(route: Route): Option<Searching>
    requires route.Searches?
  {
    if route.search.Some? then route.search else route.tried
  }

  // host is a snapshot node that passed the filter plugins and every extender
  // that answered; unless it was nominated, it is in PreFilter's node set.
  ghost predicate SoundHost(cfg: Config, rq: Request, route: Route, host: NodeName) {
    && host in rq.snapshot
    && (rq.fwk.hasFilterPlugins ==> rq.fwk.filter(host).code == Success)
    && rq.fwk.preFilter.PreFilterPassed?
    && route.Searches? && Source(route).Some?
    && LetThrough(cfg.extenders, Source(route).value.found, host)
    && (route.search.None? ==> rq.nominated == Some(host))
    && (route.search.Some? && rq.fwk.preFilter.nodeNames.Some? ==> host in rq.fwk.preFilter.nodeNames.value)
  }

  lemma FromPhase(cfg: Config, fwk: Framework, nodes: seq<NodeName>, start: nat, mode: Mode, p: Searching, before: Statuses,
                  host: NodeName)
    requires AllWellBehaved(cfg.extenders) && Configured(cfg, fwk, nodes) && Distinct(nodes)
    requires FilterPhase(fwk, SearchTask(cfg, fwk, nodes, start), mode, p)
    requires host in Yield(AfterFilters(cfg, p, before).result)
    ensures host in nodes && (fwk.hasFilterPlugins ==> fwk.filter(host).code == Success)
    ensures LetThrough(cfg.extenders, p.found, host)
  {
    RunEndsWith(cfg.extenders, p.found, before + p.recorded);
    OfferedSurvive(cfg.extenders, p.found, host);
    PhaseNarrows(fwk, SearchTask(cfg, fwk, nodes, start), mode, p);
    assert host in Elements(p.found);
  }

  // Every node that findNodesThatFitPod answers is sound.
  lemma FeasibleIsSound(cfg: Config, rq: Request, start: nat, before: Statuses, route: Route, fit: Fit, host: NodeName)
    requires AllWellBehaved(cfg.extenders) && Distinct(rq.snapshot) && Configured(cfg, rq.fwk, rq.snapshot)
    requires Fits(cfg, rq, start, before, route, fit) && host in Yield(fit.result)
    ensures SoundHost(cfg, rq, route, host)
  {
    var names := rq.fwk.preFilter.nodeNames;
    var nomination := Nomination(cfg, route.tried, before);
    if Yield(nomination.result) != [] {
      FromPhase(cfg, rq.fwk, [rq.nominated.value], start, rq.mode, route.tried.value, before, host);
    } else {
      KeptMeaning(rq.snapshot, names);
      FromPhase(cfg, rq.fwk, Kept(rq.snapshot, names), start, rq.mode, route.search.value,
                nomination.statuses + Excluded(rq.snapshot, names), host);
    }
  }

  // End-to-end soundness: the suggested host is sound, and best among the nodes that
  // the search found and the extenders left.
  lemma SuggestedHostIsSound(cfg: Config, rq: Request, start: nat, pl: Placement)
    requires AllWellBehaved(cfg.extenders) && Distinct(rq.snapshot) && Configured(cfg, rq.fwk, rq.snapshot)
    requires Schedules(cfg, rq, start, pl) && pl.result.Ok?
    ensures SoundHost(cfg, rq, pl.route, pl.result.value.suggestedHost)
    ensures pl.fit.result == Ok(Offered(cfg.extenders, Source(pl.route).value.found, |cfg.extenders|))
    ensures |pl.fit.result.value| > 1 ==>
              BestHost(cfg.extenders, rq.fwk, pl.fit.result.value, rq.scale, pl.result.value.suggestedHost)
  {
    FeasibleIsSound(cfg, rq, start, map[], pl.route, pl.fit, pl.result.value.suggestedHost);
    FeasibleIsOffered(cfg, rq, start, map[], pl.route, pl.fit);
  }

  lemma FeasibleIsOffered(cfg: Config, rq: Request, start: nat, before: Statuses, route: Route, fit: Fit)
    requires Configured(cfg, rq.fwk, rq.snapshot)
    requires Fits(cfg, rq, start, before, route, fit) && route.Searches? && fit.result.Ok?
    ensures Source(route).Some? && Source(route).value.err.None?
    ensures fit.result == Ok(Offered(cfg.extenders, Source(route).value.found, |cfg.extenders|))
  {
    var nomination := Nomination(cfg, route.tried, before);
    if Yield(nomination.result) != [] {
      RunEndsWith(cfg.extenders, route.tried.value.found, before + route.tried.value.recorded);
    } else {
      var marked := nomination.statuses + Excluded(rq.snapshot, rq.fwk.preFilter.nodeNames);
      RunEndsWith(cfg.extenders, route.search.value.found, marked + route.search.value.recorded);
    }
  }

  // The feasible nodes are distinct snapshot nodes, so there are no more of them.
  lemma FeasibleCount(extenders: seq<Extender>, all: seq<NodeName>, found: seq<NodeName>)
    requires AllWellBehaved(extenders) && Distinct(found) && Elements(found) <= Elements(all)
    ensures var feasible := Offered(extenders, found, |extenders|);
      Distinct(feasible) && Elements(feasible) <= Elements(all) && |feasible| <= |all|
  {
    var feasible := Offered(extenders, found, |extenders|);
    OfferedShrinks(extenders, found, 0, |extenders|);
    SublistDistinct(feasible, found);
    DistinctSize(feasible);
    SubsetSize(Elements(feasible), Elements(all));
    ElementsAtMost(all);
  }

  lemma {:induction false} ElementsAtMost<T>(s: seq<T>)
    ensures |Elements(s)| <= |s|
  {
    if |s| > 0 {
      var init := s[..|s| - 1];
      ElementsAtMost(init);
      assert s == init + [s[|s| - 1]];
      assert Elements(s) == Elements(init) + {s[|s| - 1]};
    }
  }

  // Disjoint accounts cannot exceed the snapshot.
  lemma AccountsFit(all: seq<NodeName>, feasible: seq<NodeName>, statuses: Statuses)
    requires Accounted(all, feasible, statuses)
    ensures |feasible| + |statuses| <= |all|
  {
    DistinctSize(feasible);
    SubsetSize(Elements(feasible) + statuses.Keys, Elements(all));
    ElementsAtMost(all);
  }

  // Feasible nodes and recorded nodes are disjoint sets of snapshot nodes.
  ghost predicate Accounted(all: seq<NodeName>, feasible: seq<NodeName>, statuses: Statuses) {
    && Distinct(feasible)
    && Elements(feasible) !! statuses.Keys
    && Elements(feasible) + statuses.Keys <= Elements(all)
  }

  ghost predicate ReportOnlyDropped(extenders: seq<Extender>) {
    forall i :: 0 <= i < |extenders| ==> ReportsOnlyDropped(extenders[i])
  }

  lemma ExtendersKeepAccounts(extenders: seq<Extender>, all: seq<NodeName>, found: seq<NodeName>, statuses: Statuses)
    requires AllWellBehaved(extenders) && ReportOnlyDropped(extenders)
    requires Accounted(all, found, statuses)
    requires RunExtenders(extenders, found, statuses).result.Ok?
    ensures var run := RunExtenders(extenders, found, statuses);
      Accounted(all, run.result.value, run.statuses)
  {
    DroppedNodesAreKept(extenders, found, statuses);
  }

  lemma FilterAccounts(fwk: Framework, all: seq<NodeName>, names: Option<set<NodeName>>, found: seq<NodeName>, recorded: Statuses)
    requires Distinct(all) && Narrowed(fwk, Kept(all, names), found, recorded)
    ensures Accounted(all, found, Excluded(all, names) + recorded)
  {
    KeptMeaning(all, names);
    forall n | n in found ensures n in Kept(all, names) {
      assert n in Elements(found);
    }
    forall n | n in recorded ensures n in Kept(all, names) && n !in found {
      assert n in Elements(Kept(all, names)) - Elements(found);
    }
  }

  // There are no more feasible nodes than snapshot nodes.
  lemma FeasibleFits(cfg: Config, rq: Request, start: nat, before: Statuses, route: Route, fit: Fit)
    requires AllWellBehaved(cfg.extenders) && Distinct(rq.snapshot) && Configured(cfg, rq.fwk, rq.snapshot)
    requires Fits(cfg, rq, start, before, route, fit) && fit.result.Ok?
    ensures |fit.result.value| <= |rq.snapshot|
  {
    if route.Searches? {
      FeasibleIsOffered(cfg, rq, start, before, route, fit);
      if route.search.Some? {
        var nodes := Kept(rq.snapshot, rq.fwk.preFilter.nodeNames);
        KeptMeaning(rq.snapshot, rq.fwk.preFilter.nodeNames);
        PhaseNarrows(rq.fwk, SearchTask(cfg, rq.fwk, nodes, start), rq.mode, route.search.value);
        FeasibleCount(cfg.extenders, nodes, route.search.value.found);
      } else {
        PhaseNarrows(rq.fwk, SearchTask(cfg, rq.fwk, [rq.nominated.value], start), rq.mode, route.tried.value);
        FeasibleCount(cfg.extenders, [rq.nominated.value], route.tried.value.found);
      }
    }
  }

  // Without a nominated node, and with extenders that report only nodes they drop,
  // feasible and recorded nodes are disjoint sets of snapshot nodes.
  lemma FitIsAccounted(cfg: Config, rq: Request, start: nat, route: Route, fit: Fit)
    requires AllWellBehaved(cfg.extenders) && ReportOnlyDropped(cfg.extenders)
    requires Distinct(rq.snapshot) && Configured(cfg, rq.fwk, rq.snapshot) && rq.nominated.None?
    requires Fits(cfg, rq, start, map[], route, fit) && fit.result.Ok?
    ensures Accounted(rq.snapshot, fit.result.value, fit.statuses)
  {
    if rq.fwk.preFilter.PreFilterPassed? {
      var names := rq.fwk.preFilter.nodeNames;
      var nodes, p := Kept(rq.snapshot, names), route.search.value;
      KeptMeaning(rq.snapshot, names);
      EmptyPlus(map[], Excluded(rq.snapshot, names));
      PhaseNarrows(rq.fwk, SearchTask(cfg, rq.fwk, nodes, start), rq.mode, p);
      FilterAccounts(rq.fwk, rq.snapshot, names, p.found, p.recorded);
      ExtendersKeepAccounts(cfg.extenders, rq.snapshot, p.found, Excluded(rq.snapshot, names) + p.recorded);
    }
  }

  lemma EmptyPlus(empty: Statuses, m: Statuses)
    requires empty == map[]
    ensures empty + m == m
  {
  }

  // 1 <= FeasibleNodes <= EvaluatedNodes <= snapshot size.
  lemma CountsAreBounded(cfg: Config, rq: Request, start: nat, pl: Placement)
    requires AllWellBehaved(cfg.extenders) && ReportOnlyDropped(cfg.extenders)
    requires Distinct(rq.snapshot) && Configured(cfg, rq.fwk, rq.snapshot) && rq.nominated.None?
    ensures Schedules(cfg, rq, start, pl) && pl.result.Ok? ==>
              1 <= pl.result.value.feasibleNodes <= pl.result.value.evaluatedNodes <= |rq.snapshot|
  {
    if Schedules(cfg, rq, start, pl) && pl.result.Ok? {
      FitIsAccounted(cfg, rq, start, pl.route, pl.fit);
      AccountsFit(rq.snapshot, pl.fit.result.value, pl.fit.statuses);
    }
  }

  // ---------- when the nominated node is the answer ----------

  // No extender refuses the nodes, and they leave some.
  ghost predicate Survive(extenders: seq<Extender>, nodes: seq<NodeName>) {
    && !Refused(extenders, nodes)
    && Offered(extenders, nodes, |extenders|) != []
  }

  ghost predicate Refused(extenders: seq<Extender>, nodes: seq<NodeName>) {
    exists i :: 0 <= i < |extenders| && Refuses(extenders[i], Offered(extenders, nodes, i))
  }

  // The nominated node is in the snapshot and passes filters and extenders.
  ghost predicate NominationYields(cfg: Config, rq: Request) {
    && rq.nominated.Some? && rq.nominated.value in rq.snapshot
    && (rq.fwk.hasFilterPlugins ==> rq.fwk.filter(rq.nominated.value).code == Success)
    && Survive(cfg.extenders, [rq.nominated.value])
  }

  lemma RunYields(extenders: seq<Extender>, nodes: seq<NodeName>, before: Statuses)
    ensures Yield(RunExtenders(extenders, nodes, before).result) != [] <==> Survive(extenders, nodes)
    ensures RunExtenders(extenders, nodes, before).result.Err? <==> Refused(extenders, nodes)
    ensures !RunExtenders(extenders, nodes, before).result.Panic?
  {
    RunEndsWith(extenders, nodes, before);
  }

  // The search for a single node.
  lemma SingleSearch(cfg: Config, fwk: Framework, n: NodeName, start: nat, mode: Mode, p: Searching)
    requires Configured(cfg, fwk, [n]) && FilterPhase(fwk, SearchTask(cfg, fwk, [n], start), mode, p)
    ensures p.found == [n] || p.found == []
    ensures p.found == [n] ==> (fwk.hasFilterPlugins ==> fwk.filter(n).code == Success)
    ensures !p.interrupted && (fwk.hasFilterPlugins ==> fwk.filter(n).code == Success) ==> p.found == [n] && p.err.None?
  {
    var t := SearchTask(cfg, fwk, [n], start);
    assert t.quota == 1;
    if fwk.hasFilterPlugins {
      SingleFound(t, n, p);
    } else {
      assert t.At(0) == n;
      assert Ring(t)[..1] == [n];
    }
  }

  lemma SingleFound(t: Task, n: NodeName, p: Searching)
    requires t.nodes == [n] && t.quota == 1
    requires Searched(t, p.found, p.recorded, p.err, p.interrupted)
    ensures p.found == [n] || p.found == []
    ensures p.found == [n] ==> t.filter(n).code == Success
    ensures !p.interrupted && t.filter(n).code == Success ==> p.found == [n] && p.err.None?
  {
    if |p.found| > 0 {
      assert p.found[0] in Elements(p.found);
    }
    if t.filter(n).code == Success {
      assert PassingNodes(t) == {n};
    }
  }

  lemma NominationOutcome(cfg: Config, rq: Request, start: nat, before: Statuses, tried: Option<Searching>)
    requires Configured(cfg, rq.fwk, rq.snapshot)
    requires Tried(cfg, rq.fwk, rq.nominated, rq.snapshot, start, rq.mode, tried)
    ensures Yield(Nomination(cfg, tried, before).result) != [] ==> NominationYields(cfg, rq)
    ensures NominationYields(cfg, rq) && !MayInterrupt(rq.mode) ==> Yield(Nomination(cfg, tried, before).result) != []
  {
    if tried.Some? {
      var p := tried.value;
      SingleSearch(cfg, rq.fwk, rq.nominated.value, start, rq.mode, p);
      RunYields(cfg.extenders, p.found, before + p.recorded);
      OfferedStaysEmpty(cfg.extenders, [], |cfg.extenders|);
    }
  }

  // ---------- the panic ----------

  // PreFilter passed the pod with a node set that has no node of the snapshot.
  ghost predicate NothingKept(rq: Request) {
    SnapshotUsable(rq) && rq.fwk.preFilter.PreFilterPassed? && Misses(rq.fwk.preFilter.nodeNames, rq.snapshot)
  }

  // The remainder by zero: without a nomination exactly when PreFilter keeps nothing;
  // with one, exactly when moreover the nominated node does not yield, as long as the
  // search for it is not interrupted.
  lemma PanicsExactly(cfg: Config, rq: Request, start: nat, pl: Placement)
    requires Configured(cfg, rq.fwk, rq.snapshot) && Schedules(cfg, rq, start, pl)
    ensures pl.result.Panic? ==> NothingKept(rq)
    ensures NothingKept(rq) && !NominationYields(cfg, rq) ==> pl.result.Panic?
    ensures rq.nominated.None? || !MayInterrupt(rq.mode) ==>
              (pl.result.Panic? <==> NothingKept(rq) && !NominationYields(cfg, rq))
  {
    if SnapshotUsable(rq) && rq.fwk.preFilter.PreFilterPassed? {
      NominationOutcome(cfg, rq, start, map[], pl.route.tried);
      KeptEmpty(rq.snapshot, rq.fwk.preFilter.nodeNames);
      NoPanicFromFilters(cfg, rq, start, pl);
    }
  }

  lemma NoPanicFromFilters(cfg: Config, rq: Request, start: nat, pl: Placement)
    requires Configured(cfg, rq.fwk, rq.snapshot) && SnapshotUsable(rq) && rq.fwk.preFilter.PreFilterPassed?
    requires Fits(cfg, rq, start, map[], pl.route, pl.fit)
    ensures pl.fit.result.Panic? <==>
              && Yield(Nomination(cfg, pl.route.tried, map[]).result) == []
              && Kept(rq.snapshot, rq.fwk.preFilter.nodeNames) == []
  {
    var nomination := Nomination(cfg, pl.route.tried, map[]);
    if Yield(nomination.result) == [] && pl.route.search.Some? {
      var p := pl.route.search.value;
      RunYields(cfg.extenders, p.found, nomination.statuses + Excluded(rq.snapshot, rq.fwk.preFilter.nodeNames) + p.recorded);
    }
  }

  // A snapshot of one node and a PreFilter set that names another.
  lemma PanicExample(cfg: Config, rq: Request, start: nat, pl: Placement)
    requires Configured(cfg, rq.fwk, rq.snapshot) && Schedules(cfg, rq, start, pl)
    requires rq.snapshotError.None? && rq.snapshot == ["a"] && rq.nominated.None?
    requires rq.fwk.preFilter == PreFilterPassed(Some({"b"}))
    ensures pl.result == Panic
  {
    PanicsExactly(cfg, rq, start, pl);
  }

  // ---------- when a pod is not placed ----------

  // The filters fail on a node that the search may look at.
  ghost predicate FilterFails(rq: Request) {
    && rq.fwk.preFilter.PreFilterPassed? && rq.fwk.hasFilterPlugins
    && exists n :: n in Kept(rq.snapshot, rq.fwk.preFilter.nodeNames) && rq.fwk.filter(n).code == Error
  }

  // The search found all it could or all it wanted, and the extenders left nothing.
  ghost predicate NoneLeft(cfg: Config, rq: Request, start: nat, route: Route)
    requires Configured(cfg, rq.fwk, rq.snapshot) && rq.fwk.preFilter.PreFilterPassed?
  {
    var nodes := Kept(rq.snapshot, rq.fwk.preFilter.nodeNames);
    && route.Searches? && route.search.Some? && |nodes| <= |rq.snapshot|
    && Offered(cfg.extenders, route.search.value.found, |cfg.extenders|) == []
    && FoundAll(rq.fwk, SearchTask(cfg, rq.fwk, nodes, start), route.search.value)
  }

  ghost predicate FoundAll(fwk: Framework, t: Task, p: Searching) {
    |p.found| == if fwk.hasFilterPlugins then Min(t.quota, |PassingNodes(t)|) else t.quota
  }

  // Why schedulePod answers an error.
  ghost predicate HasCause(cfg: Config, rq: Request, start: nat, pl: Placement)
    requires Configured(cfg, rq.fwk, rq.snapshot)
  {
    || !SnapshotUsable(rq)
    || !rq.fwk.preFilter.PreFilterPassed?
    || FilterFails(rq)
    || NoneLeft(cfg, rq, start, pl.route)
    || (pl.route.Searches? && pl.route.search.Some? && Refused(cfg.extenders, pl.route.search.value.found))
    || (pl.fit.result.Ok? && |pl.fit.result.value| > 1 && ScoringError(cfg, rq.fwk, pl.fit.result.value).Some?)
  }

  // Completeness: an uninterrupted schedulePod fails only for one of these causes, and
  // each of them but a filter error always makes it fail.
  lemma FailsWithCause(cfg: Config, rq: Request, start: nat, pl: Placement)
    requires Configured(cfg, rq.fwk, rq.snapshot) && Schedules(cfg, rq, start, pl) && !MayInterrupt(rq.mode)
    ensures pl.result.Err? ==> HasCause(cfg, rq, start, pl)
    ensures HasCause(cfg, rq, start, pl) && !FilterFails(rq) ==> pl.result.Err?
  {
    if SnapshotUsable(rq) && rq.fwk.preFilter.PreFilterPassed? {
      NoPanicFromFilters(cfg, rq, start, pl);
      if pl.route.search.Some? {
        SearchCause(cfg, rq, start, pl);
      }
    }
  }

  lemma SearchCause(cfg: Config, rq: Request, start: nat, pl: Placement)
    requires Configured(cfg, rq.fwk, rq.snapshot) && SnapshotUsable(rq) && !MayInterrupt(rq.mode)
    requires rq.fwk.preFilter.PreFilterPassed? && pl.route.Searches? && pl.route.search.Some?
    requires Fits(cfg, rq, start, map[], pl.route, pl.fit)
    ensures pl.fit.result.Err? ==> FilterFails(rq) || Refused(cfg.extenders, pl.route.search.value.found)
    ensures Refused(cfg.extenders, pl.route.search.value.found) ==> pl.fit.result.Err?
    ensures pl.fit.result == Ok([]) ==> NoneLeft(cfg, rq, start, pl.route)
    ensures NoneLeft(cfg, rq, start, pl.route) ==> pl.fit.result.Err? || pl.fit.result == Ok([])
  {
    var nomination := Nomination(cfg, pl.route.tried, map[]);
    var p := pl.route.search.value;
    var marked := nomination.statuses + Excluded(rq.snapshot, rq.fwk.preFilter.nodeNames);
    RunEndsWith(cfg.extenders, p.found, marked + p.recorded);
  }

  // A filter error is what schedulePod reports, in the words of a node that caused it.
  lemma FilterErrorIsReported(cfg: Config, rq: Request, start: nat, pl: Placement)
    requires Configured(cfg, rq.fwk, rq.snapshot) && rq.fwk.preFilter.PreFilterPassed?
    requires forall n :: n in rq.snapshot && rq.fwk.filter(n).code == Error ==> |rq.fwk.filter(n).reasons| == 1
    ensures Schedules(cfg, rq, start, pl) && SnapshotUsable(rq) && pl.route.Searches? && pl.route.search.Some?
              && pl.route.search.value.err.Some? ==>
              && pl.result == Err(pl.route.search.value.err.value)
              && exists n :: n in rq.snapshot && rq.fwk.filter(n) == Status(Error, [pl.route.search.value.err.value])
  {
    if Schedules(cfg, rq, start, pl) && SnapshotUsable(rq) && pl.route.Searches? && pl.route.search.Some?
      && pl.route.search.value.err.Some?
    {
      var nodes, p := Kept(rq.snapshot, rq.fwk.preFilter.nodeNames), pl.route.search.value;
      PhaseError(rq.fwk, SearchTask(cfg, rq.fwk, nodes, start), rq.mode, p);
      var n :| n in nodes && rq.fwk.filter(n).code == Error && p.err.value == ErrorText(rq.fwk.filter(n));
      KeptWithin(rq.snapshot, rq.fwk.preFilter.nodeNames, n);
      assert rq.fwk.filter(n).reasons == [p.err.value];
    }
  }

  lemma PhaseError(fwk: Framework, t: Task, mode: Mode, p: Searching)
    requires t.filter == fwk.filter && p.err.Some?
    ensures FilterPhase(fwk, t, mode, p) ==>
              exists n :: n in t.nodes && fwk.filter(n).code == Error && p.err.value == ErrorText(fwk.filter(n))
  {
  }

  lemma {:induction false} KeptWithin(all: seq<NodeName>, names: Option<set<NodeName>>, n: NodeName)
    requires n in Kept(all, names)
    ensures n in all
  {
    if |all| > 0 && n != all[|all| - 1] {
      KeptWithin(all[..|all| - 1], names, n);
    }
  }

  // Without extenders, nomination, filter and scoring errors: the pod is placed exactly
  // when a node that PreFilter keeps passes the filters, however the search interleaves.
  lemma PlacesExactly(cfg: Config, rq: Request, start: nat, pl: Placement)
    requires Configured(cfg, rq.fwk, rq.snapshot) && cfg.extenders == [] && !MayInterrupt(rq.mode)
    requires SnapshotUsable(rq) && rq.nominated.None? && rq.fwk.preFilter.PreFilterPassed? && rq.fwk.hasFilterPlugins
    ensures Schedules(cfg, rq, start, pl) && !FilterFails(rq) && !NothingKept(rq) && ScoringNeverFails(cfg, rq.fwk) ==>
              (pl.result.Ok? <==>
               exists n :: n in Kept(rq.snapshot, rq.fwk.preFilter.nodeNames) && rq.fwk.filter(n).code == Success)
  {
    if Schedules(cfg, rq, start, pl) && !FilterFails(rq) && !NothingKept(rq) && ScoringNeverFails(cfg, rq.fwk) {
      var nodes := Kept(rq.snapshot, rq.fwk.preFilter.nodeNames);
      KeptEmpty(rq.snapshot, rq.fwk.preFilter.nodeNames);
      SearchFindsSome(SearchTask(cfg, rq.fwk, nodes, start), pl.route.search.value);
    }
  }

  ghost predicate ScoringNeverFails(cfg: Config, fwk: Framework) {
    forall ns :: ScoringError(cfg, fwk, ns).None?
  }

  lemma SearchFindsSome(t: Task, p: Searching)
    requires t.quota > 0
    ensures Searched(t, p.found, p.recorded, p.err, p.interrupted) && !p.interrupted
              && (forall n :: n in t.nodes ==> t.filter(n).code != Error) ==>
              p.err.None? && (p.found != [] <==> exists n :: n in t.nodes && t.filter(n).code == Success)
  {
    if n :| n in t.nodes && t.filter(n).code == Success {
      assert n in PassingNodes(t);
    }
    if |p.found| > 0 {
      assert p.found[0] in Elements(p.found);
    }
  }

  // ---------- how many nodes a placement considers ----------

  // There is something to choose by, or an extender that may drop nodes.
  ghost predicate LooksBeyondOne(cfg: Config, fwk: Framework) {
    || fwk.hasScorePlugins
    || exists i :: 0 <= i < |cfg.extenders| && (cfg.extenders[i].prioritizing || cfg.extenders[i].filtering)
  }

  // The nodes that PreFilter keeps.
  ghost function KeptBy(rq: Request): seq<NodeName>
    requires rq.fwk.preFilter.PreFilterPassed?
  {
    Kept(rq.snapshot, rq.fwk.preFilter.nodeNames)
  }

  // Those of them that pass the filter plugins, if there are any.
  ghost function Fitting(rq: Request): set<NodeName>
    requires rq.fwk.preFilter.PreFilterPassed?
  {
    set n | n in KeptBy(rq) && (rq.fwk.hasFilterPlugins ==> rq.fwk.filter(n).code == Success)
  }

  // The wanted number: one without scoring and extender filters, otherwise the quota.
  ghost predicate IsWanted(cfg: Config, fwk: Framework, n: nat, wanted: int) {
    if LooksBeyondOne(cfg, fwk) then wanted == NumFeasibleNodesToFind(fwk.percentage, cfg.percentageOfNodesToScore, n)
    else wanted == 1
  }

  lemma WantedNumber(cfg: Config, fwk: Framework, nodes: seq<NodeName>)
    requires Configured(cfg, fwk, nodes)
    ensures IsWanted(cfg, fwk, |nodes|, NumNodesToFind(cfg, fwk, nodes))
  {
  }

  // A placement that was not decided by nomination, with an uninterrupted search that
  // met no error.
  ghost predicate CleanSearch(cfg: Config, rq: Request, start: nat, pl: Placement)
    requires Configured(cfg, rq.fwk, rq.snapshot)
  {
    && Schedules(cfg, rq, start, pl) && SnapshotUsable(rq) && !MayInterrupt(rq.mode)
    && pl.route.Searches? && pl.route.search.Some? && pl.route.search.value.err.None?
  }

  // Such a search finds as many of the fitting nodes as wanted.
  lemma FindsWanted(cfg: Config, rq: Request, start: nat, pl: Placement, wanted: int)
    requires Distinct(rq.snapshot) && Configured(cfg, rq.fwk, rq.snapshot) && rq.fwk.preFilter.PreFilterPassed?
    requires IsWanted(cfg, rq.fwk, |KeptBy(rq)|, wanted)
    ensures CleanSearch(cfg, rq, start, pl) ==>
              var found := pl.route.search.value.found;
              Distinct(found) && Elements(found) <= Fitting(rq) && |found| == Min(wanted, |Fitting(rq)|)
  {
    if CleanSearch(cfg, rq, start, pl) {
      var nodes := KeptBy(rq);
      KeptMeaning(rq.snapshot, rq.fwk.preFilter.nodeNames);
      KeptNoMore(rq.snapshot, rq.fwk.preFilter.nodeNames);
      WantedNumber(cfg, rq.fwk, nodes);
      PhaseFindsWanted(rq.fwk, SearchTask(cfg, rq.fwk, nodes, start), rq.mode, pl.route.search.value, Fitting(rq));
    }
  }

  lemma PhaseFindsWanted(fwk: Framework, t: Task, mode: Mode, p: Searching, fitting: set<NodeName>)
    requires Distinct(t.nodes) && t.filter == fwk.filter && !MayInterrupt(mode)
    requires fitting == set n | n in t.nodes && (fwk.hasFilterPlugins ==> fwk.filter(n).code == Success)
    ensures FilterPhase(fwk, t, mode, p) && p.err.None? ==>
              Distinct(p.found) && Elements(p.found) <= fitting && |p.found| == Min(t.quota, |fitting|)
  {
    if fwk.hasFilterPlugins {
      assert fitting == PassingNodes(t);
    } else if t.quota <= |t.nodes| {
      assert fitting == Elements(t.nodes);
      DistinctSize(t.nodes);
      RingIsPermutation(t);
      RingNarrows(fwk, t);
    }
  }

  // A small cluster with scoring or extender filters: the search finds every fitting node.
  lemma SmallClusterIsSearchedWhole(cfg: Config, rq: Request, start: nat, pl: Placement)
    requires Distinct(rq.snapshot) && Configured(cfg, rq.fwk, rq.snapshot) && rq.fwk.preFilter.PreFilterPassed?
    requires LooksBeyondOne(cfg, rq.fwk) && |KeptBy(rq)| < 100
    ensures CleanSearch(cfg, rq, start, pl) ==> Elements(pl.route.search.value.found) == Fitting(rq)
  {
    if CleanSearch(cfg, rq, start, pl) {
      var n := |KeptBy(rq)|;
      SmallCluster(rq.fwk.percentage, cfg.percentageOfNodesToScore, n);
      FindsWanted(cfg, rq, start, pl, n);
      FittingAreKept(rq);
      var found := pl.route.search.value.found;
      DistinctSize(found);
      SubsetSize(Elements(found), Fitting(rq));
    }
  }

  lemma FittingAreKept(rq: Request)
    requires rq.fwk.preFilter.PreFilterPassed?
    ensures |Fitting(rq)| <= |KeptBy(rq)|
  {
    ElementsAtMost(KeptBy(rq));
    SubsetSize(Fitting(rq), Elements(KeptBy(rq)));
  }

  // With neither, it stops at one node.
  lemma NothingToChooseBy(cfg: Config, rq: Request, start: nat, pl: Placement)
    requires Distinct(rq.snapshot) && Configured(cfg, rq.fwk, rq.snapshot) && rq.fwk.preFilter.PreFilterPassed?
    requires !LooksBeyondOne(cfg, rq.fwk)
    ensures CleanSearch(cfg, rq, start, pl) ==> |pl.route.search.value.found| == (if Fitting(rq) == {} then 0 else 1)
  {
    FindsWanted(cfg, rq, start, pl, 1);
    if Fitting(rq) != {} {
      var n :| n in Fitting(rq);
      assert |Fitting(rq)| > 0;
    }
  }

  // An extender that is not interested or lets every node through.
  ghost predicate KeepsAll(e: Extender) {
    forall ns :: e.interested ==> e.filter(ns).Filtered? && e.filter(ns).feasible == ns
  }

  lemma {:induction false} AllOffered(extenders: seq<Extender>, nodes: seq<NodeName>, i: nat)
    requires i <= |extenders| && forall j :: 0 <= j < |extenders| ==> KeepsAll(extenders[j])
    ensures Offered(extenders, nodes, i) == nodes
  {
    if i > 0 {
      AllOffered(extenders, nodes, i - 1);
      assert KeepsAll(extenders[i - 1]);
    }
  }

  // Then the feasible nodes are all fitting nodes, and the host is the best of them.
  lemma BestOfAllFitting(cfg: Config, rq: Request, start: nat, pl: Placement)
    requires Distinct(rq.snapshot) && Configured(cfg, rq.fwk, rq.snapshot) && rq.fwk.preFilter.PreFilterPassed?
    requires LooksBeyondOne(cfg, rq.fwk) && |KeptBy(rq)| < 100
    requires forall j :: 0 <= j < |cfg.extenders| ==> KeepsAll(cfg.extenders[j])
    ensures CleanSearch(cfg, rq, start, pl) && pl.result.Ok? ==>
              && pl.fit.result.Ok? && Elements(pl.fit.result.value) == Fitting(rq)
              && pl.result.value.feasibleNodes == |Fitting(rq)|
              && (|Fitting(rq)| > 1 ==>
                    BestHost(cfg.extenders, rq.fwk, pl.fit.result.value, rq.scale, pl.result.value.suggestedHost))
  {
    if CleanSearch(cfg, rq, start, pl) && pl.result.Ok? {
      SmallClusterIsSearchedWhole(cfg, rq, start, pl);
      SmallCluster(rq.fwk.percentage, cfg.percentageOfNodesToScore, |KeptBy(rq)|);
      FindsWanted(cfg, rq, start, pl, |KeptBy(rq)|);
      FeasibleIsOffered(cfg, rq, start, map[], pl.route, pl.fit);
      AllOffered(cfg.extenders, pl.route.search.value.found, |cfg.extenders|);
      DistinctSize(pl.route.search.value.found);
    }
  }

  // ---------- what the status map records ----------

  // A PreFilter rejection is recorded for every node of the snapshot, and for no other.
  lemma RejectionIsRecorded(cfg: Config, rq: Request, start: nat, pl: Placement)
    requires Configured(cfg, rq.fwk, rq.snapshot) && Schedules(cfg, rq, start, pl)
    requires SnapshotUsable(rq) && rq.fwk.preFilter.PreFilterRejected?
    ensures pl.result == Err(FIT_ERROR) && pl.fit.advance == Stays
    ensures forall n :: n in pl.fit.statuses <==> n in rq.snapshot
    ensures forall n :: n in pl.fit.statuses ==> pl.fit.statuses[n] == rq.fwk.preFilter.status
  {
  }

  // A node that PreFilter leaves out is unresolvable to the end, for PreFilter's reason
  // first of all.
  lemma ExcludedStayUnresolvable(cfg: Config, rq: Request, start: nat, pl: Placement, n: NodeName)
    requires Distinct(rq.snapshot) && Configured(cfg, rq.fwk, rq.snapshot) && rq.fwk.preFilter.PreFilterPassed?
    requires n in rq.snapshot && rq.fwk.preFilter.nodeNames.Some? && n !in rq.fwk.preFilter.nodeNames.value
    ensures Schedules(cfg, rq, start, pl) && SnapshotUsable(rq) && pl.route.Searches? && pl.route.search.Some? ==>
              && n in pl.fit.statuses && pl.fit.statuses[n].code == UnschedulableAndUnresolvable
              && ["node is filtered out by the prefilter result"] <= pl.fit.statuses[n].reasons
  {
    if Schedules(cfg, rq, start, pl) && SnapshotUsable(rq) && pl.route.Searches? && pl.route.search.Some? {
      var names, p := rq.fwk.preFilter.nodeNames, pl.route.search.value;
      var nomination := Nomination(cfg, pl.route.tried, map[]);
      var marked := nomination.statuses + Excluded(rq.snapshot, names);
      KeptMeaning(rq.snapshot, names);
      PhaseNarrows(rq.fwk, SearchTask(cfg, rq.fwk, KeptBy(rq), start), rq.mode, p);
      assert n !in Elements(KeptBy(rq));
      assert n in marked + p.recorded && (marked + p.recorded)[n] == EXCLUDED;
      StatusesOnlyGrow(cfg.extenders, p.found, marked + p.recorded);
    }
  }

  // Every node is evaluated: without nomination, in a small cluster with something to
  // choose by, and with extenders that report exactly what they drop, each snapshot node
  // is feasible or recorded.
  lemma EveryNodeIsEvaluated(cfg: Config, rq: Request, start: nat, pl: Placement)
    requires Distinct(rq.snapshot) && Configured(cfg, rq.fwk, rq.snapshot) && rq.fwk.preFilter.PreFilterPassed?
    requires LooksBeyondOne(cfg, rq.fwk) && |KeptBy(rq)| < 100 && rq.nominated.None?
    requires AllWellBehaved(cfg.extenders) && forall i :: 0 <= i < |cfg.extenders| ==> ReportsAllDropped(cfg.extenders[i])
    ensures CleanSearch(cfg, rq, start, pl) && pl.result.Ok? ==>
              pl.result.value.evaluatedNodes == |rq.snapshot| && pl.result.value.feasibleNodes == |Yield(pl.fit.result)|
  {
    if CleanSearch(cfg, rq, start, pl) {
      var p, excluded := pl.route.search.value, Excluded(rq.snapshot, rq.fwk.preFilter.nodeNames);
      EmptyPlus(map[], excluded);
      AllAccounted(cfg, rq, start, pl);
      ExtendersConserve(cfg, p, excluded, pl.fit);
      DisjointAccounts(rq.snapshot, p.found, excluded + p.recorded);
    }
    CountsAreThoseOfFit(cfg, rq, pl.fit, pl.result);
  }

  lemma CountsAreThoseOfFit(cfg: Config, rq: Request, fit: Fit, r: Outcome<ScheduleResult>)
    ensures Concludes(cfg, rq, fit, r) && r.Ok? ==>
              && fit.result.Ok? && r.value.feasibleNodes == |fit.result.value|
              && r.value.evaluatedNodes == |fit.result.value| + |fit.statuses|
  {
  }

  lemma ExtendersConserve(cfg: Config, p: Searching, before: Statuses, fit: Fit)
    requires AllWellBehaved(cfg.extenders) && forall i :: 0 <= i < |cfg.extenders| ==> ReportsAllDropped(cfg.extenders[i])
    requires p.err.None? && Distinct(p.found) && Elements(p.found) !! (before + p.recorded).Keys
    ensures ExtenderRun(fit.result, fit.statuses) == AfterFilters(cfg, p, before) && fit.result.Ok? ==>
              |fit.result.value| + |fit.statuses| == |p.found| + |before + p.recorded|
  {
    if RunExtenders(cfg.extenders, p.found, before + p.recorded).result.Ok? {
      NodesAreConserved(cfg.extenders, p.found, before + p.recorded);
    }
  }

  // Before the extenders, each snapshot node is excluded, rejected or found.
  lemma AllAccounted(cfg: Config, rq: Request, start: nat, pl: Placement)
    requires Distinct(rq.snapshot) && Configured(cfg, rq.fwk, rq.snapshot) && rq.fwk.preFilter.PreFilterPassed?
    requires LooksBeyondOne(cfg, rq.fwk) && |KeptBy(rq)| < 100
    ensures CleanSearch(cfg, rq, start, pl) ==>
              var found, recorded := pl.route.search.value.found, pl.route.search.value.recorded;
              var before := Excluded(rq.snapshot, rq.fwk.preFilter.nodeNames) + recorded;
              && Distinct(found) && Elements(found) !! before.Keys
              && Elements(found) + before.Keys == Elements(rq.snapshot)
  {
    if CleanSearch(cfg, rq, start, pl) {
      var p := pl.route.search.value;
      KeptMeaning(rq.snapshot, rq.fwk.preFilter.nodeNames);
      PhaseNarrows(rq.fwk, SearchTask(cfg, rq.fwk, KeptBy(rq), start), rq.mode, p);
      FilterAccounts(rq.fwk, rq.snapshot, rq.fwk.preFilter.nodeNames, p.found, p.recorded);
      SmallClusterIsSearchedWhole(cfg, rq, start, pl);
      SmallCluster(rq.fwk.percentage, cfg.percentageOfNodesToScore, |KeptBy(rq)|);
      WantedNumber(cfg, rq.fwk, KeptBy(rq));
      WholePhase(rq.fwk, SearchTask(cfg, rq.fwk, KeptBy(rq), start), rq.mode, p, Fitting(rq));
      NothingForgotten(rq, p.found, p.recorded);
    }
  }

  lemma NothingForgotten(rq: Request, found: seq<NodeName>, recorded: Statuses)
    requires Distinct(rq.snapshot) && rq.fwk.preFilter.PreFilterPassed?
    requires Elements(found) + recorded.Keys == Elements(KeptBy(rq))
    ensures Elements(found) + (Excluded(rq.snapshot, rq.fwk.preFilter.nodeNames) + recorded).Keys == Elements(rq.snapshot)
  {
    KeptMeaning(rq.snapshot, rq.fwk.preFilter.nodeNames);
    var all := Elements(found) + (Excluded(rq.snapshot, rq.fwk.preFilter.nodeNames) + recorded).Keys;
    forall n ensures n in all <==> n in Elements(rq.snapshot) {
      assert n in Elements(KeptBy(rq)) <==> n in Elements(found) || n in recorded;
    }
  }

  // A phase whose quota is the number of nodes leaves no node out.
  lemma WholePhase(fwk: Framework, t: Task, mode: Mode, p: Searching, fitting: set<NodeName>)
    requires Distinct(t.nodes) && t.quota == |t.nodes| && t.filter == fwk.filter && !MayInterrupt(mode)
    requires fitting == set n | n in t.nodes && (fwk.hasFilterPlugins ==> fwk.filter(n).code == Success)
    ensures FilterPhase(fwk, t, mode, p) && p.err.None? && Elements(p.found) == fitting ==>
              Elements(p.found) + p.recorded.Keys == Elements(t.nodes)
  {
    if FilterPhase(fwk, t, mode, p) && p.err.None? && Elements(p.found) == fitting {
      DistinctSize(t.nodes);
      if fwk.hasFilterPlugins && |p.found| == t.quota {
        DistinctSize(p.found);
        SubsetSize(Elements(p.found), Elements(t.nodes));
      } else if !fwk.hasFilterPlugins {
        assert fitting == Elements(t.nodes);
      }
    }
  }

  lemma DisjointAccounts(all: seq<NodeName>, found: seq<NodeName>, statuses: Statuses)
    requires Distinct(all) && Distinct(found) && Elements(found) !! statuses.Keys
    requires Elements(found) + statuses.Keys == Elements(all)
    ensures |found| + |statuses| == |all|
  {
    DistinctSize(all);
    DistinctSize(found);
    assert |statuses| == |statuses.Keys|;
  }

  // ---------- the rotation ----------

  // Without nomination and narrowing, one cycle moves the start index to the end of
  // its window of the ring, and records exactly the window's nodes.
  lemma CycleRotates(cfg: Config, rq: Request, start: nat, pl: Placement)
    requires Distinct(rq.snapshot) && Configured(cfg, rq.fwk, rq.snapshot) && Schedules(cfg, rq, start, pl)
    requires SnapshotUsable(rq) && rq.nominated.None? && rq.fwk.preFilter == PreFilterPassed(None)
    requires rq.fwk.hasFilterPlugins ==> rq.mode.OneAtATime?
    ensures pl.route.Searches? && pl.route.search.Some?
    ensures var cycle := Cycle(SearchTask(cfg, rq.fwk, rq.snapshot, start), rq.fwk.hasFilterPlugins);
      && NextIndex(start, pl.fit.advance) == NextStart(cycle)
      && Elements(pl.route.search.value.found) + pl.route.search.value.recorded.Keys == Window(cycle)
  {
    CycleMoves(cfg, rq, start, pl);
    EndOfWindow(Cycle(SearchTask(cfg, rq.fwk, rq.snapshot, start), rq.fwk.hasFilterPlugins), pl.fit.advance);
  }

  lemma CycleMoves(cfg: Config, rq: Request, start: nat, pl: Placement)
    requires Configured(cfg, rq.fwk, rq.snapshot) && Schedules(cfg, rq, start, pl)
    requires SnapshotUsable(rq) && rq.nominated.None? && rq.fwk.preFilter == PreFilterPassed(None)
    requires rq.fwk.hasFilterPlugins ==> rq.mode.OneAtATime?
    ensures pl.route.Searches? && pl.route.search.Some?
    ensures var cycle := Cycle(SearchTask(cfg, rq.fwk, rq.snapshot, start), rq.fwk.hasFilterPlugins);
      && pl.fit.advance == Moves(Processed(cycle), |rq.snapshot|)
      && Elements(pl.route.search.value.found) + pl.route.search.value.recorded.Keys == Window(cycle)
  {
    KeptAll(rq.snapshot);
    EmptyPlus(map[], map[]);
    FullSearchMoves(cfg, rq.fwk, SearchTask(cfg, rq.fwk, Kept(rq.snapshot, None), start), rq.mode, pl.route.search,
                    map[] + Excluded(rq.snapshot, None), pl.fit);
  }

  lemma FullSearchMoves(cfg: Config, fwk: Framework, t: Task, mode: Mode, search: Option<Searching>, before: Statuses, fit: Fit)
    requires 0 < t.quota <= |t.nodes| && before == map[]
    requires fwk.hasFilterPlugins ==> mode.OneAtATime?
    ensures FullSearch(cfg, fwk, t, mode, search, before, fit) ==>
              && search.Some?
              && fit.advance == Moves(Processed(Cycle(t, fwk.hasFilterPlugins)), |t.nodes|)
              && Elements(search.value.found) + search.value.recorded.Keys == Window(Cycle(t, fwk.hasFilterPlugins))
  {
    if search.Some? {
      EmptyPlus(before, search.value.recorded);
      PhaseCoversWindow(fwk, t, mode, search.value);
    }
  }

  lemma EndOfWindow(c: Cycle, advance: Advance)
    requires |c.task.nodes| > 0
    ensures advance == Moves(Processed(c), |c.task.nodes|) ==> NextIndex(c.task.start, advance) == NextStart(c)
  {
  }

  lemma PhaseCoversWindow(fwk: Framework, t: Task, mode: Mode, p: Searching)
    requires |t.nodes| > 0 && t.quota <= |t.nodes|
    ensures FilterPhase(fwk, t, mode, p) && (fwk.hasFilterPlugins ==> mode.OneAtATime?) ==>
              && |p.found| + |p.recorded| == Processed(Cycle(t, fwk.hasFilterPlugins))
              && Elements(p.found) + p.recorded.Keys == Window(Cycle(t, fwk.hasFilterPlugins))
  {
    if !fwk.hasFilterPlugins {
      PrefixIsWindow(t);
    }
  }

  lemma {:induction false} KeptAll(all: seq<NodeName>)
    ensures Kept(all, None) == all && Excluded(all, None) == map[]
  {
    if |all| > 0 {
      KeptAll(all[..|all| - 1]);
      assert all == all[..|all| - 1] + [all[|all| - 1]];
    }
  }

  lemma PrefixIsWindow(t: Task)
    requires t.quota <= |t.nodes|
    ensures Elements(Ring(t)[..t.quota]) == FirstNodes(t, t.quota) && |Ring(t)[..t.quota]| == t.quota
  {
    var prefix := Ring(t)[..t.quota];
    forall i | i in Below(t.quota) ensures Ring(t)[i] in Elements(prefix) {
      assert prefix[i] == Ring(t)[i];
    }
    forall n | n in Elements(prefix) ensures n in FirstNodes(t, t.quota) {
      var i :| 0 <= i < |prefix| && prefix[i] == n;
      assert i in Below(t.quota) && Ring(t)[i] == n;
    }
  }
}
