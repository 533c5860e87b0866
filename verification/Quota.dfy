// How many feasible nodes one scheduling cycle looks for
// (scheduler/schedule_one.go:665-693), with the source's 32-bit arithmetic.
module Quota {
  import opened Common

  const MIN_FEASIBLE_NODES_TO_FIND := 100
  const MIN_FEASIBLE_NODES_PERCENTAGE_TO_FIND := 5
  const MAX_INT32 := 0x7FFF_FFFF

  predicate IsInt32(x: int) {
    -MAX_INT32 - 1 <= x <= MAX_INT32
  }

  // Two's-complement wrap-around to 32 bits.
  function WrapInt32(x: int): (w: int)
    ensures IsInt32(w)
    ensures IsInt32(x) ==> w == x
  {
    (x + MAX_INT32 + 1) % (2 * (MAX_INT32 + 1)) - MAX_INT32 - 1
  }

  // Go's integer division truncates toward zero.
  function TruncatedDiv(x: int, d: nat): int
    requires d > 0
  {
    if x >= 0 then x / d else -(-x / d)
  }

  function EffectivePercentage(profile: Option<int>, global: int, numAllNodes: int): int {
    var percentage := if profile.Some? then profile.value else global;
    if percentage == 0 then
      Max(50 - TruncatedDiv(numAllNodes, 125), MIN_FEASIBLE_NODES_PERCENTAGE_TO_FIND)
    else
      percentage
  }

  function NumFeasibleNodesToFind(profile: Option<int>, global: int, numAllNodes: int): int {
    if numAllNodes < MIN_FEASIBLE_NODES_TO_FIND then
      numAllNodes
    else
      var percentage := EffectivePercentage(profile, global, numAllNodes);
      var numNodes := TruncatedDiv(WrapInt32(numAllNodes * percentage), 100);
      if numNodes < MIN_FEASIBLE_NODES_TO_FIND then MIN_FEASIBLE_NODES_TO_FIND else numNodes
  }

  function ConfiguredPercentage(profile: Option<int>, global: int): int {
    if profile.Some? then profile.value else global
  }

  // For every cluster size and every percentage in 0..100 the quota lies between
  // min(n, 100) and n, even when the product wraps around in 32 bits.
  lemma QuotaBounds(profile: Option<int>, global: int, n: int)
    requires 0 <= n <= MAX_INT32
    requires 0 <= ConfiguredPercentage(profile, global) <= 100
    ensures Min(n, MIN_FEASIBLE_NODES_TO_FIND) <= NumFeasibleNodesToFind(profile, global, n) <= n
  {
    if n >= MIN_FEASIBLE_NODES_TO_FIND {
      var p := EffectivePercentage(profile, global, n);
      assert 0 <= p <= 100;
      ProductBounds(n, p);
      var w := WrapInt32(n * p);
      if n * p > MAX_INT32 {
        assert w <= MAX_INT32 < 100 * n;
      }
      if w >= 0 {
        assert w <= 100 * n;
        assert w / 100 <= n;
      }
    }
  }

  lemma ProductBounds(n: int, p: int)
    requires n >= 0 && 0 <= p <= 100
    ensures 0 <= n * p <= 100 * n
  {
  }

  // While the product fits in 32 bits, the feasible list fits in the node list
  // exactly when the cluster is small or the percentage is at most 100.
  lemma QuotaWithinListIff(profile: Option<int>, global: int, n: int)
    requires 0 <= n <= MAX_INT32
    requires IsInt32(n * EffectivePercentage(profile, global, n))
    ensures NumFeasibleNodesToFind(profile, global, n) <= n
       <==> n < MIN_FEASIBLE_NODES_TO_FIND || ConfiguredPercentage(profile, global) <= 100
  {
    var p := EffectivePercentage(profile, global, n);
    if n >= MIN_FEASIBLE_NODES_TO_FIND {
      assert p <= 100 <==> ConfiguredPercentage(profile, global) <= 100;
      if p > 100 {
        ProductAtLeast(n, p);
        assert n * p >= 101 * n >= 100 * (n + 1);
        assert n * p / 100 >= n + 1;
      } else if p >= 0 {
        ProductBounds(n, p);
        assert n * p / 100 <= n;
      } else {
        ProductNegative(n, p);
      }
    }
  }

  lemma ProductAtLeast(n: int, p: int)
    requires n >= 0 && p >= 101
    ensures n * p >= 101 * n
  {
  }

  lemma ProductNegative(n: int, p: int)
    requires n > 0 && p < 0
    ensures n * p < 0
  {
  }

  // ---------- the exact quota ----------

  // A profile's percentage, even zero, decides alone.
  lemma ProfileDecides(p: int, global: int, otherGlobal: int, n: int)
    ensures NumFeasibleNodesToFind(Some(p), global, n) == NumFeasibleNodesToFind(Some(p), otherGlobal, n)
    ensures NumFeasibleNodesToFind(Some(p), global, n) == NumFeasibleNodesToFind(None, p, n)
  {
  }

  // Every node of a small cluster.
  lemma SmallCluster(profile: Option<int>, global: int, n: int)
    requires n < 100
    ensures NumFeasibleNodesToFind(profile, global, n) == n
  {
  }

  // k is p percent of n, rounded down.
  predicate IsPercent(k: int, p: int, n: int) {
    100 * k <= n * p < 100 * (k + 1)
  }

  // A configured percentage p of at least 100 nodes: p percent of them, but no fewer
  // than 100.  A negative percentage counts as too small.
  lemma ConfiguredQuota(p: int, global: int, n: int, k: int)
    requires n >= 100 && p != 0 && IsInt32(n * p) && IsPercent(k, p, n)
    ensures NumFeasibleNodesToFind(Some(p), global, n) == Max(100, k)
    ensures NumFeasibleNodesToFind(None, p, n) == Max(100, k)
  {
    if p < 0 {
      ProductNegative(n, p);
    } else {
      PercentageProduct(n, p);
    }
  }

  // The adaptive percentage: one less than 50 for every 125 nodes, but no less than 5.
  lemma AdaptiveQuotaExactly(n: int, d: int, p: int, k: int)
    requires n >= 100 && 125 * d <= n < 125 * (d + 1)
    requires p == (if d <= 45 then 50 - d else 5)
    requires IsInt32(n * p) && IsPercent(k, p, n)
    ensures NumFeasibleNodesToFind(None, 0, n) == Max(100, k)
  {
    assert n / 125 == d;
    PercentageProduct(n, p);
  }

  // A larger percentage never lowers the quota.
  lemma QuotaGrowsWithPercentage(p: int, q: int, global: int, n: int)
    requires 1 <= p <= q && 0 <= n && IsInt32(n * q)
    ensures NumFeasibleNodesToFind(Some(p), global, n) <= NumFeasibleNodesToFind(Some(q), global, n)
  {
    PercentageProduct(n, p);
    ProductGrows(n, p, q);
  }

  lemma ProductGrows(n: nat, p: int, q: int)
    requires p <= q
    ensures n * p <= n * q
  {
  }

  // With the adaptive default, at least 5 percent of the nodes are looked for,
  // and from 5625 nodes on exactly 5 percent.
  lemma AdaptiveQuota(n: int)
    requires MIN_FEASIBLE_NODES_TO_FIND <= n && IsInt32(n * 50)
    ensures var q := NumFeasibleNodesToFind(None, 0, n);
      && 20 * (q + 1) > n
      && (n >= 5625 ==> q == n * 5 / 100)
  {
    var p := EffectivePercentage(None, 0, n);
    assert 5 <= p <= 50;
    AdaptiveProduct(n, p);
    assert n * p / 100 >= n * 5 / 100;
  }

  lemma AdaptiveProduct(n: int, p: int)
    requires n >= 0 && 5 <= p <= 50
    ensures n * 5 <= n * p <= n * 50
  {
  }

  // ---------- where the adaptive quota falls ----------

  function AdaptivePercentage(n: nat): int {
    EffectivePercentage(None, 0, n)
  }

  function Adaptive(n: nat): int {
    NumFeasibleNodesToFind(None, 0, n)
  }

  lemma AdaptiveValue(n: nat)
    requires IsInt32(n * AdaptivePercentage(n))
    ensures Adaptive(n) == if n < 100 then n else Max(100, n * AdaptivePercentage(n) / 100)
  {
    PercentageProduct(n, AdaptivePercentage(n));
  }

  lemma PercentageProduct(n: nat, p: int)
    requires p >= 0
    ensures n * p >= 0
  {
  }

  lemma SmallerProduct(n: nat, p: nat)
    ensures n * p <= (n + 1) * p
  {
  }

  // With the same percentage one more node cannot lower the quota.
  lemma SamePercentage(n: nat)
    requires AdaptivePercentage(n) == AdaptivePercentage(n + 1)
    requires IsInt32((n + 1) * AdaptivePercentage(n + 1))
    ensures Adaptive(n) <= Adaptive(n + 1)
  {
    var p := AdaptivePercentage(n);
    SmallerProduct(n, p);
    PercentageProduct(n, p);
    AdaptiveValue(n);
    AdaptiveValue(n + 1);
  }

  // The percentage falls, by one, exactly when the size reaches a multiple of 125
  // up to 5625.
  lemma PercentageFalls(n: nat)
    ensures AdaptivePercentage(n) != AdaptivePercentage(n + 1) <==> (n + 1) % 125 == 0 && n + 1 <= 5625
    ensures (n + 1) % 125 == 0 && n + 1 <= 5625 ==>
              AdaptivePercentage(n + 1) == 50 - (n + 1) / 125 && AdaptivePercentage(n) == 51 - (n + 1) / 125
  {
  }

  // The two products where the percentage falls: the first is larger by 126m - 51.
  lemma ProductsAtFall(m: int)
    requires 1 <= m <= 45
    ensures (125 * m - 1) * (51 - m) == 125 * m * (50 - m) + 126 * m - 51
    ensures 0 <= 125 * m * (50 - m) <= 78125
    ensures m >= 2 ==> (125 * m - 1) * (51 - m) >= 10100
  {
    var q := m * (50 - m);
    assert q == 625 - (m - 25) * (m - 25);
    assert (m - 25) * (m - 25) >= 0;
    assert 125 * m * (50 - m) == 125 * q;
    assert q == (m - 2) * (48 - m) + 96;
    assert m >= 2 ==> (m - 2) * (48 - m) >= 0;
  }

  lemma FallLowersQuota(n: nat, m: int)
    requires 1 <= m <= 45 && n + 1 == 125 * m
    ensures Adaptive(n + 1) < Adaptive(n) <==> m >= 2
  {
    ProductsAtFall(m);
    PercentageFalls(n);
    AdaptiveValue(n);
    AdaptiveValue(n + 1);
  }

  // One more node lowers the adaptive quota exactly when it makes the cluster's size
  // a multiple of 125 from 250 to 5625.
  lemma AdaptiveQuotaFallsExactlyAt(n: nat)
    requires IsInt32((n + 1) * AdaptivePercentage(n + 1))
    ensures Adaptive(n + 1) < Adaptive(n) <==> (n + 1) % 125 == 0 && 250 <= n + 1 <= 5625
  {
    PercentageFalls(n);
    if (n + 1) % 125 == 0 && n + 1 <= 5625 {
      FallLowersQuota(n, (n + 1) / 125);
    } else {
      SamePercentage(n);
    }
  }
}
