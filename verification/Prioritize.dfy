// prioritizeNodes (scheduler/schedule_one.go:749-864): plugin scores plus the
// scores the extenders' goroutines merge under one mutex.
module Prioritize {
  import opened Common
  import opened ScoreOrder
  import opened Extenders

  datatype ScoreReply = ScoreError(error: string) | Scored(scores: seq<NodeScore>)

  // scale is MaxNodeScore / MaxExtenderPriority of the scheduler framework.
  function FinalScore(score: int, weight: int, scale: int): int {
    score * weight * scale
  }

  // ---------- reference definitions ----------

  function Sum(scores: seq<PluginScore>): int {
    if |scores| == 0 then 0 else Sum(scores[..|scores| - 1]) + scores[|scores| - 1].score
  }

  ghost predicate Balanced(s: NodeScore) {
    s.total == Sum(s.scores)
  }

  // What the first k entries of one extender's list give to a node.
  function ListGives(list: seq<HostPriority>, weight: int, scale: int, n: NodeName, k: nat): int
    requires k <= |list|
  {
    if k == 0 then
      0
    else
      ListGives(list, weight, scale, n, k - 1)
      + (if list[k - 1].host == n then FinalScore(list[k - 1].score, weight, scale) else 0)
  }

  function ExtenderGives(e: Extender, nodes: seq<NodeName>, scale: int, n: NodeName): int {
    if !e.interested then 0
    else
      match e.prioritize(nodes)
      case PriorityError => 0
      case Prioritized(list, weight) => ListGives(list, weight, scale, n, |list|)
  }

  // What the extenders in done among the first k give to a node.
  function ExtendersGive(extenders: seq<Extender>, nodes: seq<NodeName>, scale: int, n: NodeName,
                         done: set<nat>, k: nat): int
    requires k <= |extenders|
  {
    if k == 0 then
      0
    else
      ExtendersGive(extenders, nodes, scale, n, done, k - 1)
      + (if k - 1 in done then ExtenderGives(extenders[k - 1], nodes, scale, n) else 0)
  }

  lemma {:induction false} OneMoreGives(extenders: seq<Extender>, nodes: seq<NodeName>, scale: int, n: NodeName,
                                        done: set<nat>, i: nat, k: nat)
    requires k <= |extenders| && i < |extenders| && i !in done
    ensures ExtendersGive(extenders, nodes, scale, n, done + {i}, k)
         == ExtendersGive(extenders, nodes, scale, n, done, k)
          + (if i < k then ExtenderGives(extenders[i], nodes, scale, n) else 0)
  {
    if k > 0 {
      OneMoreGives(extenders, nodes, scale, n, done, i, k - 1);
    }
  }

  // What all extenders together give to a node, in configuration order.
  function AllGive(extenders: seq<Extender>, nodes: seq<NodeName>, scale: int, n: NodeName): int {
    if |extenders| == 0 then
      0
    else
      AllGive(extenders[..|extenders| - 1], nodes, scale, n)
      + ExtenderGives(extenders[|extenders| - 1], nodes, scale, n)
  }

  // An extender that is not interested gives nothing, started or not.
  lemma {:induction false} OnlyInterestedGive(extenders: seq<Extender>, nodes: seq<NodeName>, scale: int, n: NodeName,
                                              done: set<nat>, k: nat)
    requires k <= |extenders|
    requires forall i: nat :: i < |extenders| && extenders[i].interested ==> i in done
    ensures ExtendersGive(extenders, nodes, scale, n, done, k)
         == AllGive(extenders[..k], nodes, scale, n)
  {
    if k > 0 {
      OnlyInterestedGive(extenders, nodes, scale, n, done, k - 1);
      assert extenders[..k][..k - 1] == extenders[..k - 1];
    }
  }

  // ---------- points ----------

  // The scores that the first k entries of a list give to a node, unscaled.
  function ScoresFor(list: seq<HostPriority>, n: NodeName, k: nat): int
    requires k <= |list|
  {
    if k == 0 then 0
    else ScoresFor(list, n, k - 1) + (if list[k - 1].host == n then list[k - 1].score else 0)
  }

  // An extender's weighted points for a node; none if it is not interested or fails.
  function PointsOf(e: Extender, nodes: seq<NodeName>, n: NodeName): int {
    if e.interested && e.prioritize(nodes).Prioritized? then
      var reply := e.prioritize(nodes);
      reply.weight * ScoresFor(reply.list, n, |reply.list|)
    else 0
  }

  function Points(extenders: seq<Extender>, nodes: seq<NodeName>, n: NodeName): int {
    if |extenders| == 0 then 0
    else Points(extenders[..|extenders| - 1], nodes, n) + PointsOf(extenders[|extenders| - 1], nodes, n)
  }

  lemma {:induction false} ListIsScaled(list: seq<HostPriority>, weight: int, scale: int, n: NodeName, k: nat)
    requires k <= |list|
    ensures ListGives(list, weight, scale, n, k) == scale * (weight * ScoresFor(list, n, k))
  {
    if k > 0 {
      ListIsScaled(list, weight, scale, n, k - 1);
      if list[k - 1].host == n {
        Spread(scale, weight, ScoresFor(list, n, k - 1), list[k - 1].score);
      }
    } else {
      Spread(scale, weight, 0, 0);
    }
  }

  lemma Spread(scale: int, weight: int, a: int, b: int)
    ensures scale * (weight * (a + b)) == scale * (weight * a) + b * weight * scale
    ensures scale * (weight * 0) == 0
  {
    assert weight * (a + b) == weight * a + weight * b;
    assert scale * (weight * a + weight * b) == scale * (weight * a) + scale * (weight * b);
    assert scale * (weight * b) == b * weight * scale;
  }

  lemma SumScales(scale: int, a: int, b: int)
    ensures scale * (a + b) == scale * a + scale * b
    ensures scale * 0 == 0
  {
  }

  // What the extenders give together is the scale times their points.
  lemma {:induction false} AllIsScaled(extenders: seq<Extender>, nodes: seq<NodeName>, scale: int, n: NodeName)
    ensures AllGive(extenders, nodes, scale, n) == scale * Points(extenders, nodes, n)
  {
    if |extenders| > 0 {
      var init, e := extenders[..|extenders| - 1], extenders[|extenders| - 1];
      AllIsScaled(init, nodes, scale, n);
      SumScales(scale, Points(init, nodes, n), PointsOf(e, nodes, n));
      if e.interested && e.prioritize(nodes).Prioritized? {
        var reply := e.prioritize(nodes);
        ListIsScaled(reply.list, reply.weight, scale, n, |reply.list|);
      }
    }
  }

  // ---------- the shared map ----------

  type Board = map<NodeName, NodeScore>

  ghost function TotalOn(board: Board, n: NodeName): int {
    if n in board then board[n].total else 0
  }

  ghost predicate BalancedBoard(board: Board) {
    forall n :: n in board ==> Balanced(board[n]) && board[n].name == n
  }

  // allNodeExtendersScores together with the mutex that guards it: a goroutine
  // holds the mutex for the whole of Merge.
  class ExtenderScores {
    var byNode: Board

    constructor ()
      ensures byNode == map[]
    {
      byNode := map[];
    }

    // The critical section of one goroutine.
    method Merge(extender: string, list: seq<HostPriority>, weight: int, scale: int)
      requires BalancedBoard(byNode)
      modifies this
      ensures BalancedBoard(byNode)
      ensures forall n :: TotalOn(byNode, n) == TotalOn(old(byNode), n) + ListGives(list, weight, scale, n, |list|)
      ensures forall n :: TotalOn(byNode, n) == TotalOn(old(byNode), n) + scale * (weight * ScoresFor(list, n, |list|))
    {
      var i := 0;
      while i < |list|
        invariant 0 <= i <= |list|
        invariant BalancedBoard(byNode)
        invariant forall n :: TotalOn(byNode, n) == TotalOn(old(byNode), n) + ListGives(list, weight, scale, n, i)
      {
        Add(extender, list[i].host, FinalScore(list[i].score, weight, scale));
        i := i + 1;
      }
      forall n ensures ListGives(list, weight, scale, n, |list|) == scale * (weight * ScoresFor(list, n, |list|)) {
        ListIsScaled(list, weight, scale, n, |list|);
      }
    }

    method Add(extender: string, host: NodeName, finalScore: int)
      requires BalancedBoard(byNode)
      modifies this
      ensures BalancedBoard(byNode)
      ensures forall n :: TotalOn(byNode, n) == TotalOn(old(byNode), n) + if n == host then finalScore else 0
    {
      var entry := if host in byNode then byNode[host] else NodeScore(host, [], 0);
      var added := NodeScore(entry.name, entry.scores + [PluginScore(extender, finalScore)], entry.total + finalScore);
      assert added.scores[..|added.scores| - 1] == entry.scores;
      assert Sum(added.scores) == Sum(entry.scores) + finalScore;
      assert entry.total == Sum(entry.scores) && entry.name == host;
      byNode := byNode[host := added];
    }
  }

  // ---------- combining ----------

  lemma {:induction false} SumConcat(a: seq<PluginScore>, b: seq<PluginScore>)
    ensures Sum(a + b) == Sum(a) + Sum(b)
  {
    if |b| == 0 {
      assert a + b == a;
    } else {
      SumConcat(a, b[..|b| - 1]);
      assert (a + b)[..|a + b| - 1] == a + b[..|b| - 1];
    }
  }

  function WithExtra(s: NodeScore, board: Board, n: NodeName): NodeScore {
    if n in board then s.(scores := s.scores + board[n].scores, total := s.total + board[n].total) else s
  }

  lemma WithExtraBalanced(s: NodeScore, board: Board, n: NodeName)
    requires Balanced(s) && BalancedBoard(board)
    ensures Balanced(WithExtra(s, board, n))
    ensures WithExtra(s, board, n).total == s.total + TotalOn(board, n)
  {
    if n in board {
      SumConcat(s.scores, board[n].scores);
    }
  }

  // RunScorePlugins: one balanced entry per node, in node order.
  ghost predicate ScoresNodes(reply: ScoreReply, nodes: seq<NodeName>) {
    reply.Scored? ==>
      && |reply.scores| == |nodes|
      && forall i :: 0 <= i < |nodes| ==> reply.scores[i].name == nodes[i] && Balanced(reply.scores[i])
  }

  // The goroutines, one for each interested extender.  They reach the mutex in
  // any order; each round lets any of those still running go next.
  method CollectExtenderScores(extenders: seq<Extender>, nodes: seq<NodeName>, scale: int) returns (board: ExtenderScores)
    ensures fresh(board) && BalancedBoard(board.byNode)
    ensures forall n :: TotalOn(board.byNode, n) == AllGive(extenders, nodes, scale, n)
    ensures forall n :: TotalOn(board.byNode, n) == scale * Points(extenders, nodes, n)
  {
    board := new ExtenderScores();
    var interested := set i: nat | i < |extenders| && extenders[i].interested;
    var running := interested;
    ghost var done: set<nat> := {};
    forall n ensures ExtendersGive(extenders, nodes, scale, n, {}, |extenders|) == 0 {
      NoneGives(extenders, nodes, scale, n, |extenders|);
    }
    while running != {}
      invariant running <= interested && done == interested - running
      invariant BalancedBoard(board.byNode)
      invariant forall n :: TotalOn(board.byNode, n) == ExtendersGive(extenders, nodes, scale, n, done, |extenders|)
      decreases running
    {
      var i :| i in running;
      var reply := extenders[i].prioritize(nodes);
      if reply.Prioritized? {
        board.Merge(extenders[i].name, reply.list, reply.weight, scale);
      }
      forall n ensures TotalOn(board.byNode, n) == ExtendersGive(extenders, nodes, scale, n, done + {i}, |extenders|) {
        OneMoreGives(extenders, nodes, scale, n, done, i, |extenders|);
      }
      running := running - {i};
      done := done + {i};
    }
    forall n ensures TotalOn(board.byNode, n) == AllGive(extenders, nodes, scale, n) {
      OnlyInterestedGive(extenders, nodes, scale, n, done, |extenders|);
      assert extenders[..|extenders|] == extenders;
    }
    forall n ensures AllGive(extenders, nodes, scale, n) == scale * Points(extenders, nodes, n) {
      AllIsScaled(extenders, nodes, scale, n);
    }
  }

  lemma {:induction false} NoneGives(extenders: seq<Extender>, nodes: seq<NodeName>, scale: int, n: NodeName, k: nat)
    requires k <= |extenders|
    ensures ExtendersGive(extenders, nodes, scale, n, {}, k) == 0
  {
    if k > 0 {
      NoneGives(extenders, nodes, scale, n, k - 1);
    }
  }

  // The final total of a node, whatever the order in which the goroutines ran.
  ghost function FinalTotal(extenders: seq<Extender>, hasScorePlugins: bool, nodes: seq<NodeName>, scale: int,
                            score: ScoreReply, i: nat): int
    requires i < |nodes|
  {
    if |extenders| == 0 && !hasScorePlugins then
      1
    else if score.Scored? && i < |score.scores| then
      score.scores[i].total + AllGive(extenders, nodes, scale, nodes[i])
    else
      0
  }

  // A total is the plugins' total plus the scaled points.
  lemma TotalIsScaled(extenders: seq<Extender>, hasScorePlugins: bool, nodes: seq<NodeName>, scale: int, score: ScoreReply, i: nat)
    requires i < |nodes| && score.Scored? && |score.scores| == |nodes|
    requires |extenders| > 0 || hasScorePlugins
    ensures FinalTotal(extenders, hasScorePlugins, nodes, scale, score, i)
         == score.scores[i].total + scale * Points(extenders, nodes, nodes[i])
  {
    AllIsScaled(extenders, nodes, scale, nodes[i]);
  }

  // An extender that gives one node the top priority, which the scale maps to
  // maxNodeScore, adds weight times maxNodeScore to that node and nothing to the others.
  lemma TopPriority(e: Extender, nodes: seq<NodeName>, scale: int, n: NodeName, maxPriority: int, maxNodeScore: int, weight: int)
    requires scale * maxPriority == maxNodeScore
    requires e.interested && e.prioritize(nodes) == Prioritized([HostPriority(n, maxPriority)], weight)
    ensures scale * PointsOf(e, nodes, n) == weight * maxNodeScore
    ensures forall other :: other != n ==> PointsOf(e, nodes, other) == 0
  {
    OneEntry(HostPriority(n, maxPriority), n);
    Reorder(scale, weight, maxPriority);
    forall other | other != n ensures PointsOf(e, nodes, other) == 0 {
      OneEntry(HostPriority(n, maxPriority), other);
    }
  }

  lemma OneEntry(entry: HostPriority, n: NodeName)
    ensures ScoresFor([entry], n, 1) == if entry.host == n then entry.score else 0
  {
    assert ScoresFor([entry], n, 0) == 0;
  }

  lemma Reorder(a: int, b: int, c: int)
    ensures a * (b * c) == b * (a * c)
  {
  }

  lemma OnlyExtender(e: Extender, nodes: seq<NodeName>, n: NodeName)
    ensures Points([e], nodes, n) == PointsOf(e, nodes, n)
  {
    assert [e][..0] == [];
    assert Points([], nodes, n) == 0;
  }

  // As the only extender, it makes that node the better of two exactly when the
  // plugins prefer the other by less than weight times maxNodeScore.
  lemma TopPriorityOverturns(e: Extender, hasScorePlugins: bool, nodes: seq<NodeName>, scale: int, score: ScoreReply,
                             i: nat, j: nat, maxPriority: int, maxNodeScore: int, weight: int)
    requires i < |nodes| && j < |nodes| && nodes[i] != nodes[j] && score.Scored? && |score.scores| == |nodes|
    requires scale * maxPriority == maxNodeScore
    requires e.interested && e.prioritize(nodes) == Prioritized([HostPriority(nodes[i], maxPriority)], weight)
    ensures FinalTotal([e], hasScorePlugins, nodes, scale, score, i) == score.scores[i].total + weight * maxNodeScore
    ensures FinalTotal([e], hasScorePlugins, nodes, scale, score, j) == score.scores[j].total
    ensures FinalTotal([e], hasScorePlugins, nodes, scale, score, i) > FinalTotal([e], hasScorePlugins, nodes, scale, score, j)
       <==> score.scores[j].total - score.scores[i].total < weight * maxNodeScore
  {
    TopPriority(e, nodes, scale, nodes[i], maxPriority, maxNodeScore, weight);
    OnlyExtender(e, nodes, nodes[i]);
    OnlyExtender(e, nodes, nodes[j]);
    TotalIsScaled([e], hasScorePlugins, nodes, scale, score, i);
    TotalIsScaled([e], hasScorePlugins, nodes, scale, score, j);
    SumScales(scale, 0, 0);
  }

  method PrioritizeNodes(extenders: seq<Extender>, hasScorePlugins: bool, preScore: Option<string>,
                         score: ScoreReply, nodes: seq<NodeName>, scale: int)
    returns (r: Outcome<seq<NodeScore>>)
    requires ScoresNodes(score, nodes)
    ensures !r.Panic?
    ensures r.Err? <==> (|extenders| > 0 || hasScorePlugins) && (preScore.Some? || score.ScoreError?)
    ensures r.Err? ==> r.error == if preScore.Some? then preScore.value else score.error
    ensures r.Ok? ==>
      && |r.value| == |nodes|
      && forall i :: 0 <= i < |nodes| ==>
           && r.value[i].name == nodes[i]
           && r.value[i].total == FinalTotal(extenders, hasScorePlugins, nodes, scale, score, i)
           && r.value[i].total == (if |extenders| == 0 && !hasScorePlugins then 1
                                   else score.scores[i].total + scale * Points(extenders, nodes, nodes[i]))
           && (|extenders| > 0 || hasScorePlugins ==> Balanced(r.value[i]))
  {
    if |extenders| == 0 && !hasScorePlugins {
      var result: seq<NodeScore> := [];
      for i := 0 to |nodes|
        invariant |result| == i
        invariant forall j :: 0 <= j < i ==> result[j] == NodeScore(nodes[j], [], 1)
      {
        result := result + [NodeScore(nodes[i], [], 1)];
      }
      return Ok(result);
    }
    if preScore.Some? {
      return Err(preScore.value);
    }
    if score.ScoreError? {
      return Err(score.error);
    }
    var nodesScores := score.scores;
    if |extenders| > 0 {
      var board := CollectExtenderScores(extenders, nodes, scale);
      for i := 0 to |nodes|
        invariant |nodesScores| == |nodes|
        invariant forall j :: 0 <= j < i ==> nodesScores[j] == WithExtra(score.scores[j], board.byNode, nodes[j])
        invariant forall j :: i <= j < |nodes| ==> nodesScores[j] == score.scores[j]
      {
        nodesScores := nodesScores[i := WithExtra(nodesScores[i], board.byNode, nodes[i])];
      }
      forall i | 0 <= i < |nodes|
        ensures Balanced(nodesScores[i]) && nodesScores[i].name == nodes[i]
        ensures nodesScores[i].total == score.scores[i].total + AllGive(extenders, nodes, scale, nodes[i])
      {
        WithExtraBalanced(score.scores[i], board.byNode, nodes[i]);
      }
    }
    return Ok(nodesScores);
  }
}
