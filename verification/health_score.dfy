/** The weighted health score (utils/health_score.py). */
module HealthScore {
  import opened Thresholds
  import opened Seqs

  const SEVERITY_PENALTY: map<string, int> :=
    map["normal" := 0, "warning" := 25, "high" := 50, "critical" := 100]

  /** Penalty of a status; an unknown status costs nothing. */
  function SeverityPenalty(status: string): (p: int)
    ensures 0 <= p <= 100
    ensures ParseTier(status).None? ==> p == 0
  {
    if status in SEVERITY_PENALTY then SEVERITY_PENALTY[status] else 0
  }

  /** A more severe tier never carries a smaller penalty; normal costs 0 and critical the full 100. */
  lemma PenaltyMonotone(t1: Tier, t2: Tier)
    requires Rank(t1) <= Rank(t2)
    ensures SeverityPenalty(TierName(t1)) <= SeverityPenalty(TierName(t2))
    ensures SeverityPenalty(TierName(Normal)) == 0 && SeverityPenalty(TierName(Critical)) == 100
  {
  }

  /** Does the scorer take `item` into account? */
  predicate Weighted(weights: map<string, real>, item: AnalysisItem) {
    item.metric in weights
  }

  function ItemWeight(weights: map<string, real>, item: AnalysisItem): real {
    if item.metric in weights then weights[item.metric] else 0.0
  }

  /** What one item adds to `total_penalty`. */
  function Contribution(weights: map<string, real>, item: AnalysisItem): real {
    ItemWeight(weights, item) * SeverityPenalty(item.status) as real
  }

  /** Left-to-right sum of `f` over the items, the shape of both accumulators. */
  function Sum(items: seq<AnalysisItem>, f: AnalysisItem -> real): real {
    if items == [] then 0.0 else Sum(items[..|items| - 1], f) + f(items[|items| - 1])
  }

  /** Sum of the weights of the weighted items (the loop's `total_weight`). */
  function TotalWeight(items: seq<AnalysisItem>, weights: map<string, real>): real {
    Sum(items, item => ItemWeight(weights, item))
  }

  /** Sum of weight * penalty over the weighted items (the loop's `total_penalty`). */
  function TotalPenalty(items: seq<AnalysisItem>, weights: map<string, real>): real {
    Sum(items, item => Contribution(weights, item))
  }

  /** Python's `int(x)` on a float: truncation toward zero. */
  function Trunc(x: real): (n: int)
    ensures x >= 0.0 ==> n >= 0 && n as real <= x < n as real + 1.0
    ensures x < 0.0 ==> n <= 0 && n as real - 1.0 < x <= n as real
  {
    if x >= 0.0 then x.Floor else -((-x).Floor)
  }

  /** `max(lo, min(x, hi))`. */
  function Clamp(x: int, lo: int, hi: int): int {
    var capped := if x < hi then x else hi;
    if capped < lo then lo else capped
  }

  /**
   * The score calculate_health_score returns: the maximum for an empty list or a zero total
   * weight, otherwise max - (total penalty / total weight) truncated and clamped.
   */
  function HealthScoreOf(items: seq<AnalysisItem>, weights: map<string, real>, minScore: int, maxScore: int): (r: int)
    ensures items == [] ==> r == maxScore
    ensures TotalWeight(items, weights) == 0.0 ==> r == maxScore
    ensures minScore <= maxScore ==> minScore <= r <= maxScore
  {
    if items == [] then maxScore
    else
      var totalWeight := TotalWeight(items, weights);
      if totalWeight == 0.0 then maxScore
      else Clamp(Trunc(maxScore as real - TotalPenalty(items, weights) / totalWeight), minScore, maxScore)
  }

  /** calculate_health_score: one pass accumulating the two totals, then normalise and clamp. */
  method CalculateHealthScore(results: seq<AnalysisItem>, weights: map<string, real>, minScore: int, maxScore: int)
    returns (score: int)
    ensures score == HealthScoreOf(results, weights, minScore, maxScore)
  {
    if results == [] {
      return maxScore;
    }
    var totalPenalty := 0.0;
    var totalWeight := 0.0;
    for i := 0 to |results|
      invariant totalPenalty == TotalPenalty(results[..i], weights)
      invariant totalWeight == TotalWeight(results[..i], weights)
    {
      assert results[..i + 1][..i] == results[..i];
      var item := results[i];
      if item.metric !in weights {
        continue;
      }
      var weight := weights[item.metric];
      var penalty := SeverityPenalty(item.status);
      totalPenalty := totalPenalty + weight * penalty as real;
      totalWeight := totalWeight + weight;
    }
    assert results[..|results|] == results;
    if totalWeight == 0.0 {
      return maxScore;
    }
    var normalizedPenalty := totalPenalty / totalWeight;
    var rawScore := maxScore as real - normalizedPenalty;
    var truncated := Trunc(rawScore);
    score := Clamp(truncated, minScore, maxScore);
  }

  // ---------------------------------------------------------------------------
  // Properties of the score
  // ---------------------------------------------------------------------------

  lemma SumSnoc(items: seq<AnalysisItem>, x: AnalysisItem, f: AnalysisItem -> real)
    ensures Sum(items + [x], f) == Sum(items, f) + f(x)
  {
    assert (items + [x])[..|items + [x]| - 1] == items;
  }

  /** Dropping the items that `p` rejects does not change a sum to which they add nothing. */
  lemma {:induction false} SumIgnoresRejected(items: seq<AnalysisItem>, p: AnalysisItem -> bool, f: AnalysisItem -> real)
    requires forall i :: 0 <= i < |items| && !p(items[i]) ==> f(items[i]) == 0.0
    ensures Sum(Filter(items, p), f) == Sum(items, f)
  {
    if items != [] {
      var init, last := items[..|items| - 1], items[|items| - 1];
      SumIgnoresRejected(init, p, f);
      if p(last) {
        SumSnoc(Filter(init, p), last, f);
      }
    }
  }

  /** Replacing one item changes a sum by the difference of that item's values. */
  lemma {:induction false} SumPointUpdate(items: seq<AnalysisItem>, f: AnalysisItem -> real, k: nat, x: AnalysisItem)
    requires k < |items|
    ensures Sum(items[k := x], f) == Sum(items, f) - f(items[k]) + f(x)
  {
    var n := |items|;
    var updated := items[k := x];
    if k < n - 1 {
      assert updated[..n - 1] == items[..n - 1][k := x];
      SumPointUpdate(items[..n - 1], f, k, x);
    } else {
      assert updated[..n - 1] == items[..n - 1];
    }
  }

  /** The score only depends on the items whose metric is weighted. */
  lemma UnweightedItemsIgnored(items: seq<AnalysisItem>, weights: map<string, real>, minScore: int, maxScore: int)
    ensures HealthScoreOf(Filter(items, item => Weighted(weights, item)), weights, minScore, maxScore)
         == HealthScoreOf(items, weights, minScore, maxScore)
  {
    var p := (item: AnalysisItem) => Weighted(weights, item);
    SumIgnoresRejected(items, p, item => ItemWeight(weights, item));
    SumIgnoresRejected(items, p, item => Contribution(weights, item));
  }

  /** Changing the status of an item whose metric has no weight never changes the score. */
  lemma UnweightedStatusIrrelevant(items: seq<AnalysisItem>, weights: map<string, real>, minScore: int, maxScore: int,
                                   k: nat, status: string)
    requires k < |items| && items[k].metric !in weights
    ensures HealthScoreOf(items[k := items[k].(status := status)], weights, minScore, maxScore)
         == HealthScoreOf(items, weights, minScore, maxScore)
  {
    var x := items[k].(status := status);
    SumPointUpdate(items, item => ItemWeight(weights, item), k, x);
    SumPointUpdate(items, item => Contribution(weights, item), k, x);
  }

  lemma {:induction false} TotalWeightNonnegative(items: seq<AnalysisItem>, weights: map<string, real>)
    requires forall m :: m in weights ==> weights[m] >= 0.0
    ensures TotalWeight(items, weights) >= 0.0
  {
    if items != [] {
      TotalWeightNonnegative(items[..|items| - 1], weights);
      assert ItemWeight(weights, items[|items| - 1]) >= 0.0;
    }
  }

  lemma TruncMonotone(x: real, y: real)
    requires x <= y
    ensures Trunc(x) <= Trunc(y)
  {
  }

  lemma DivideMonotone(a: real, b: real, c: real)
    requires a <= b && c > 0.0
    ensures a / c <= b / c
  {
  }

  /**
   * With non-negative weights, giving one item a status with a larger penalty (a more severe
   * tier, see PenaltyMonotone) never increases the score.
   */
  lemma WorseStatusNeverRaisesScore(items: seq<AnalysisItem>, weights: map<string, real>, minScore: int, maxScore: int,
                                    k: nat, status: string)
    requires forall m :: m in weights ==> weights[m] >= 0.0
    requires k < |items|
    requires SeverityPenalty(items[k].status) <= SeverityPenalty(status)
    ensures HealthScoreOf(items[k := items[k].(status := status)], weights, minScore, maxScore)
         <= HealthScoreOf(items, weights, minScore, maxScore)
  {
    var x := items[k].(status := status);
    var updated := items[k := x];
    SumPointUpdate(items, item => ItemWeight(weights, item), k, x);
    SumPointUpdate(items, item => Contribution(weights, item), k, x);
    TotalWeightNonnegative(items, weights);
    ContributionMonotone(weights, items[k], x);
    var tw := TotalWeight(items, weights);
    assert TotalWeight(updated, weights) == tw;
    assert TotalPenalty(items, weights) <= TotalPenalty(updated, weights);
    if tw != 0.0 {
      DivideMonotone(TotalPenalty(items, weights), TotalPenalty(updated, weights), tw);
      TruncMonotone(maxScore as real - TotalPenalty(updated, weights) / tw,
                    maxScore as real - TotalPenalty(items, weights) / tw);
    }
  }

  lemma ContributionMonotone(weights: map<string, real>, a: AnalysisItem, b: AnalysisItem)
    requires forall m :: m in weights ==> weights[m] >= 0.0
    requires a.metric == b.metric && SeverityPenalty(a.status) <= SeverityPenalty(b.status)
    ensures Contribution(weights, a) <= Contribution(weights, b)
  {
    var w := ItemWeight(weights, a);
    assert w >= 0.0;
    assert w * SeverityPenalty(a.status) as real <= w * SeverityPenalty(b.status) as real;
  }

  /** Total penalty is zero when every status is "normal". */
  lemma {:induction false} AllNormalNoPenalty(items: seq<AnalysisItem>, weights: map<string, real>)
    requires forall i :: 0 <= i < |items| ==> items[i].status == "normal"
    ensures TotalPenalty(items, weights) == 0.0
  {
    if items != [] {
      AllNormalNoPenalty(items[..|items| - 1], weights);
    }
  }

  /** Total penalty is 100 times the total weight when every status is "critical". */
  lemma {:induction false} AllCriticalFullPenalty(items: seq<AnalysisItem>, weights: map<string, real>)
    requires forall i :: 0 <= i < |items| ==> items[i].status == "critical"
    ensures TotalPenalty(items, weights) == 100.0 * TotalWeight(items, weights)
  {
    if items != [] {
      AllCriticalFullPenalty(items[..|items| - 1], weights);
    }
  }

  /** A list where every metric is "normal" scores the maximum. */
  lemma AllNormalScoresMax(items: seq<AnalysisItem>, weights: map<string, real>, minScore: int, maxScore: int)
    requires minScore <= maxScore
    requires forall i :: 0 <= i < |items| ==> items[i].status == "normal"
    ensures HealthScoreOf(items, weights, minScore, maxScore) == maxScore
  {
    AllNormalNoPenalty(items, weights);
  }

  /** On the range (0, 100), a list where every weighted metric is "critical" and some weight counts scores 0. */
  lemma AllCriticalScoresZero(items: seq<AnalysisItem>, weights: map<string, real>)
    requires forall i :: 0 <= i < |items| ==> items[i].status == "critical"
    requires TotalWeight(items, weights) != 0.0
    ensures HealthScoreOf(items, weights, 0, 100) == 0
  {
    AllCriticalFullPenalty(items, weights);
  }

  /** Positive weights and at least one weighted item give a non-zero total weight. */
  lemma {:induction false} PositiveWeightsCount(items: seq<AnalysisItem>, weights: map<string, real>, k: nat)
    requires forall m :: m in weights ==> weights[m] > 0.0
    requires k < |items| && items[k].metric in weights
    ensures TotalWeight(items, weights) > 0.0
  {
    var n := |items|;
    TotalWeightNonnegative(items[..n - 1], weights);
    if k < n - 1 {
      PositiveWeightsCount(items[..n - 1], weights, k);
    }
  }

  /** One critical cpu beside normal ram and disk, with the configured weights: 100 - 30/0.85 truncates to 64. */
  lemma CriticalCpuScenario()
    ensures HealthScoreOf([AnalysisItem("cpu", 92.0, "critical"), AnalysisItem("ram", 50.0, "normal"),
                           AnalysisItem("disk", 40.0, "normal")],
                          map["cpu" := 0.30, "ram" := 0.30, "disk" := 0.25, "network" := 0.10, "temperature" := 0.05],
                          0, 100) == 64
  {
    var a, b, c := AnalysisItem("cpu", 92.0, "critical"), AnalysisItem("ram", 50.0, "normal"),
                   AnalysisItem("disk", 40.0, "normal");
    var weights := map["cpu" := 0.30, "ram" := 0.30, "disk" := 0.25, "network" := 0.10, "temperature" := 0.05];
    var fw, fp := (item: AnalysisItem) => ItemWeight(weights, item), (item: AnalysisItem) => Contribution(weights, item);
    assert weights["cpu"] == 0.30 && weights["ram"] == 0.30 && weights["disk"] == 0.25;
    assert fw(a) == 0.30 && fw(b) == 0.30 && fw(c) == 0.25;
    assert SeverityPenalty("critical") == 100 && SeverityPenalty("normal") == 0;
    assert fp(a) == 30.0 && fp(b) == 0.0 && fp(c) == 0.0;
    assert [a] == [] + [a] && [a, b] == [a] + [b] && [a, b, c] == [a, b] + [c];
    SumSnoc([], a, fw);  SumSnoc([a], b, fw);  SumSnoc([a, b], c, fw);
    SumSnoc([], a, fp);  SumSnoc([a], b, fp);  SumSnoc([a, b], c, fp);
    assert Sum([a, b, c], fw) == 0.85;
    assert Sum([a, b, c], fp) == 30.0;
    assert TotalWeight([a, b, c], weights) == 0.85;
    assert TotalPenalty([a, b, c], weights) == 30.0;
    assert 100.0 - 30.0 / 0.85 == 1100.0 / 17.0;
  }

  /**
   * Cpu and ram absent; disk, network and temperature all high, with the configured weights: in
   * exact reals 100 - 20/0.4 is exactly 50 (the source's float sums land just below 50).
   */
  lemma AllHighWithoutCpuRamScenario()
    ensures HealthScoreOf([AnalysisItem("disk", 80.0, "high"), AnalysisItem("network", 40.0, "high"),
                           AnalysisItem("temperature", 80.0, "high")],
                          map["cpu" := 0.30, "ram" := 0.30, "disk" := 0.25, "network" := 0.10, "temperature" := 0.05],
                          0, 100) == 50
  {
    var a, b, c := AnalysisItem("disk", 80.0, "high"), AnalysisItem("network", 40.0, "high"),
                   AnalysisItem("temperature", 80.0, "high");
    var weights := map["cpu" := 0.30, "ram" := 0.30, "disk" := 0.25, "network" := 0.10, "temperature" := 0.05];
    var fw, fp := (item: AnalysisItem) => ItemWeight(weights, item), (item: AnalysisItem) => Contribution(weights, item);
    assert weights["disk"] == 0.25 && weights["network"] == 0.10 && weights["temperature"] == 0.05;
    assert fw(a) == 0.25 && fw(b) == 0.10 && fw(c) == 0.05;
    assert SeverityPenalty("high") == 50;
    assert fp(a) == 12.5 && fp(b) == 5.0 && fp(c) == 2.5;
    assert [a] == [] + [a] && [a, b] == [a] + [b] && [a, b, c] == [a, b] + [c];
    SumSnoc([], a, fw);  SumSnoc([a], b, fw);  SumSnoc([a, b], c, fw);
    SumSnoc([], a, fp);  SumSnoc([a], b, fp);  SumSnoc([a, b], c, fp);
    assert Sum([a, b, c], fw) == 0.4;
    assert Sum([a, b, c], fp) == 20.0;
    assert TotalWeight([a, b, c], weights) == 0.4;
    assert TotalPenalty([a, b, c], weights) == 20.0;
    assert 100.0 - 20.0 / 0.4 == 50.0;
  }
}
