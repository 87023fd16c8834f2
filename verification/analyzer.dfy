/** One monitoring cycle: classify, alert, score, suggest, estimate risk (core/analyzer.py). */
module Analyzer {
  import opened Wrappers
  import opened Thresholds
  import opened Seqs
  import HealthScore
  import Alerts
  import Suggestions
  import Settings

  /** Upload and download rates in MB/s. */
  datatype Network = Network(uploadMbS: real, downloadMbS: real)

  /**
   * The fields of a metrics snapshot the analyzer reads. `ram` and `disk` hold the "percent"
   * entry; `None` stands for an absent (or empty) entry.
   */
  datatype Snapshot = Snapshot(cpu: Option<real>, ram: Option<real>, disk: Option<real>,
                               network: Option<Network>, temperature: Option<real>)

  /** `last_analysis`: the record one cycle produces. */
  datatype AnalysisRecord = AnalysisRecord(analysis: seq<AnalysisItem>, healthScore: int,
                                           suggestions: seq<string>, failureRisk: int)

  /** The metrics a cycle looks at, in the order it looks at them. */
  const MONITORED_METRICS: seq<string> := ["cpu", "ram", "disk", "network", "temperature"]

  /** Position of a metric in MONITORED_METRICS (5 for any other name). */
  function MetricRank(m: string): nat {
    if m == "cpu" then 0 else if m == "ram" then 1 else if m == "disk" then 2
    else if m == "network" then 3 else if m == "temperature" then 4 else 5
  }

  /**
   * `_analyze_metric`: no result for an unregistered metric or an absent value; otherwise the
   * value with the tier `get_status` gives it against the metric's own table.
   */
  function AnalyzeMetric(name: string, value: Option<real>): (r: Option<AnalysisItem>)
    ensures r.Some? <==> name in THRESHOLD_MAP && value.Some?
    ensures r.Some? ==>
      (r.value.metric == name && r.value.value == value.value
       && r.value.status == TierName(GetStatus(value.value, THRESHOLD_MAP[name])))
  {
    if name !in THRESHOLD_MAP || value.None? then None
    else Some(AnalysisItem(name, value.value, TierName(GetStatus(value.value, THRESHOLD_MAP[name]))))
  }

  /** The value classified for the network: upload plus download. */
  function NetworkValue(network: Option<Network>): Option<real> {
    match network
    case None => None
    case Some(n) => Some(n.uploadMbS + n.downloadMbS)
  }

  /** The value the cycle classifies for metric `m`. */
  function ValueOf(snap: Snapshot, m: string): Option<real> {
    if m == "cpu" then snap.cpu else if m == "ram" then snap.ram else if m == "disk" then snap.disk
    else if m == "network" then NetworkValue(snap.network) else if m == "temperature" then snap.temperature
    else None
  }

  /** The items one metric adds to `analysis_results`: none or one. */
  function Step(name: string, value: Option<real>): seq<AnalysisItem> {
    match AnalyzeMetric(name, value)
    case None => []
    case Some(item) => [item]
  }

  /** `analysis_results` for a snapshot. */
  function Classify(snap: Snapshot): (r: seq<AnalysisItem>)
    ensures |r| <= |MONITORED_METRICS|
  {
    Step("cpu", snap.cpu) + Step("ram", snap.ram) + Step("disk", snap.disk)
    + Step("network", NetworkValue(snap.network)) + Step("temperature", snap.temperature)
  }

  /** Every result is a monitored metric, carries the value read for it and the tier of that value. */
  ghost predicate Faithful(snap: Snapshot, r: seq<AnalysisItem>) {
    forall i :: 0 <= i < |r| ==>
      (r[i].metric in MONITORED_METRICS
       && ValueOf(snap, r[i].metric) == Some(r[i].value)
       && r[i].status == TierName(GetStatus(r[i].value, THRESHOLD_MAP[r[i].metric])))
  }

  /** Results appear in MONITORED_METRICS order, each metric at most once, all ranked below `bound`. */
  ghost predicate OrderedBelow(r: seq<AnalysisItem>, bound: nat) {
    (forall i, j :: 0 <= i < j < |r| ==> MetricRank(r[i].metric) < MetricRank(r[j].metric))
    && forall i :: 0 <= i < |r| ==> MetricRank(r[i].metric) < bound
  }

  lemma AppendStep(snap: Snapshot, prefix: seq<AnalysisItem>, name: string, value: Option<real>)
    requires name in MONITORED_METRICS && value == ValueOf(snap, name)
    requires Faithful(snap, prefix) && OrderedBelow(prefix, MetricRank(name))
    ensures Faithful(snap, prefix + Step(name, value))
    ensures OrderedBelow(prefix + Step(name, value), MetricRank(name) + 1)
  {
  }

  /** Each result is faithful to the snapshot, and results follow MONITORED_METRICS order without repeats. */
  lemma ClassifyWellFormed(snap: Snapshot)
    ensures Faithful(snap, Classify(snap))
    ensures OrderedBelow(Classify(snap), |MONITORED_METRICS|)
  {
    var a := Step("cpu", snap.cpu);
    AppendStep(snap, [], "cpu", snap.cpu);
    assert [] + a == a;
    var b := Step("ram", snap.ram);
    AppendStep(snap, a, "ram", snap.ram);
    var c := Step("disk", snap.disk);
    AppendStep(snap, a + b, "disk", snap.disk);
    var d := Step("network", NetworkValue(snap.network));
    AppendStep(snap, a + b + c, "network", NetworkValue(snap.network));
    var e := Step("temperature", snap.temperature);
    AppendStep(snap, a + b + c + d, "temperature", snap.temperature);
  }

  /** Every monitored metric with a value is classified, and only those. */
  lemma ClassifyComplete(snap: Snapshot, m: string)
    requires m in MONITORED_METRICS
    ensures (exists i :: 0 <= i < |Classify(snap)| && Classify(snap)[i].metric == m) <==> ValueOf(snap, m).Some?
  {
    var r := Classify(snap);
    ClassifyWellFormed(snap);
    if ValueOf(snap, m).Some? {
      var item := AnalysisItem(m, ValueOf(snap, m).value, TierName(GetStatus(ValueOf(snap, m).value, THRESHOLD_MAP[m])));
      assert item in r;
    }
  }

  /** The network value classified is the sum of the upload and download rates. */
  lemma NetworkIsSumOfRates(snap: Snapshot)
    requires snap.network.Some?
    ensures exists i ::
      (0 <= i < |Classify(snap)| && Classify(snap)[i].metric == "network"
       && Classify(snap)[i].value == snap.network.value.uploadMbS + snap.network.value.downloadMbS)
  {
    ClassifyComplete(snap, "network");
  }

  /** The alert queue: the results whose status is not "normal". */
  function NonNormal(items: seq<AnalysisItem>): seq<AnalysisItem> {
    Filter(items, (item: AnalysisItem) => item.status != "normal")
  }

  /** The alert queue keeps the order of the results and holds every non-normal result and nothing else. */
  lemma AlertQueueExact(items: seq<AnalysisItem>)
    ensures IsSubsequence(NonNormal(items), items)
    ensures forall i :: 0 <= i < |NonNormal(items)| ==> NonNormal(items)[i].status != "normal"
    ensures forall i :: 0 <= i < |items| && items[i].status != "normal" ==> items[i] in NonNormal(items)
  {
    FilterIsSubsequence(items, (item: AnalysisItem) => item.status != "normal");
  }

  /** Triggering only non-normal alerts never dispatches a message for a "normal" status. */
  lemma {:induction false} NormalNeverDispatched(enabled: bool, channels: Settings.ChannelFlags, st: Alerts.AlertState,
                                                 alerts: seq<AnalysisItem>, now: real)
    requires forall i :: 0 <= i < |alerts| ==> alerts[i].status != "normal"
    ensures forall i :: |st.log| <= i < |Alerts.TriggerAll(enabled, channels, st, alerts, now).log| ==>
      Alerts.TriggerAll(enabled, channels, st, alerts, now).log[i].status != "normal"
  {
    if alerts != [] {
      var init := alerts[..|alerts| - 1];
      NormalNeverDispatched(enabled, channels, st, init, now);
      var mid := Alerts.TriggerAll(enabled, channels, st, init, now);
      var r := Alerts.Trigger(enabled, channels, mid, alerts[|alerts| - 1], now);
      assert r == Alerts.TriggerAll(enabled, channels, st, alerts, now);
      assert alerts[|alerts| - 1].status != "normal";
      forall i | |st.log| <= i < |r.log|
        ensures r.log[i].status != "normal"
      {
        if i < |mid.log| {
          assert r.log[i] == r.log[..|mid.log|][i] == mid.log[i];
          assert mid.log[i].status != "normal";
        } else {
          assert r.log[i].status == alerts[|alerts| - 1].status;
        }
      }
    }
  }

  // ---------------------------------------------------------------------------
  // Failure risk
  // ---------------------------------------------------------------------------

  /** Risk added by one result: warning 10, high 20, critical 35, anything else 0. */
  function RiskIncrement(status: string): nat {
    if status == "warning" then 10
    else if status == "high" then 20
    else if status == "critical" then 35
    else 0
  }

  /** The accumulated, unclamped risk. */
  function RiskSum(items: seq<AnalysisItem>): nat {
    if items == [] then 0 else RiskSum(items[..|items| - 1]) + RiskIncrement(items[|items| - 1].status)
  }

  /** `_estimate_failure_risk`: the accumulated risk capped at 100. */
  function FailureRisk(items: seq<AnalysisItem>): (r: int)
    ensures 0 <= r <= 100
    ensures RiskSum(items) < 100 ==> r == RiskSum(items)
    ensures RiskSum(items) >= 100 ==> r == 100
  {
    if RiskSum(items) < 100 then RiskSum(items) else 100
  }

  function CountStatus(items: seq<AnalysisItem>, status: string): nat {
    if items == [] then 0
    else CountStatus(items[..|items| - 1], status) + (if items[|items| - 1].status == status then 1 else 0)
  }

  /** The accumulated risk is 10 per warning, 20 per high and 35 per critical result. */
  lemma {:induction false} RiskSumByTierCounts(items: seq<AnalysisItem>)
    ensures RiskSum(items)
         == 10 * CountStatus(items, "warning") + 20 * CountStatus(items, "high") + 35 * CountStatus(items, "critical")
  {
    if items != [] {
      RiskSumByTierCounts(items[..|items| - 1]);
    }
  }

  /** The failure risk is min(100, 10 per warning + 20 per high + 35 per critical result). */
  lemma FailureRiskClosedForm(items: seq<AnalysisItem>)
    ensures var sum := 10 * CountStatus(items, "warning") + 20 * CountStatus(items, "high")
                       + 35 * CountStatus(items, "critical");
            FailureRisk(items) == if sum < 100 then sum else 100
  {
    RiskSumByTierCounts(items);
  }

  /** Five critical results sum to 175 and are capped at 100; one warning and one high give 30. */
  lemma RiskScenarios()
    ensures FailureRisk([AnalysisItem("cpu", 95.0, "critical"), AnalysisItem("ram", 95.0, "critical"),
                         AnalysisItem("disk", 99.0, "critical"), AnalysisItem("network", 30.0, "critical"),
                         AnalysisItem("temperature", 90.0, "critical")]) == 100
    ensures FailureRisk([AnalysisItem("cpu", 65.0, "warning"), AnalysisItem("ram", 85.0, "high")]) == 30
  {
    var five := [AnalysisItem("cpu", 95.0, "critical"), AnalysisItem("ram", 95.0, "critical"),
                 AnalysisItem("disk", 99.0, "critical"), AnalysisItem("network", 30.0, "critical"),
                 AnalysisItem("temperature", 90.0, "critical")];
    assert RiskSum(five[..1]) == 35 by { assert five[..1][..0] == []; }
    assert RiskSum(five[..2]) == 70 by { assert five[..2][..1] == five[..1]; }
    assert RiskSum(five[..3]) == 105 by { assert five[..3][..2] == five[..2]; }
    assert RiskSum(five[..4]) == 140 by { assert five[..4][..3] == five[..3]; }
    assert RiskSum(five) == 175 by { assert five[..4] == five[..|five| - 1]; }
    var two := [AnalysisItem("cpu", 65.0, "warning"), AnalysisItem("ram", 85.0, "high")];
    assert RiskSum(two[..1]) == 10 by { assert two[..1][..0] == []; }
    assert RiskSum(two) == 30 by { assert two[..1] == two[..|two| - 1]; }
  }

  /** The record a cycle produces for a snapshot, given the suggestion table. */
  function CycleRecord(snap: Snapshot, rules: Suggestions.Rules): (r: AnalysisRecord)
    ensures r.analysis == Classify(snap)
    ensures Settings.HEALTH_SCORE_MIN <= r.healthScore <= Settings.HEALTH_SCORE_MAX
    ensures 0 <= r.failureRisk <= 100
    ensures Suggestions.NoDuplicates(r.suggestions)
  {
    var items := Classify(snap);
    AnalysisRecord(
      items,
      HealthScore.HealthScoreOf(items, Settings.HEALTH_SCORE_WEIGHTS, Settings.HEALTH_SCORE_MIN, Settings.HEALTH_SCORE_MAX),
      if Settings.AUTO_SUGGEST_OPTIMIZATION then Suggestions.Dedup(Suggestions.Matched(rules, items)) else [],
      FailureRisk(items))
  }

  /**
   * One metric's block of `analyze_metrics`: when the snapshot has a value, its result joins the
   * results and, unless it is normal, the alert queue.
   */
  method Collect(name: string, value: Option<real>, results: seq<AnalysisItem>, queue: seq<AnalysisItem>)
    returns (results': seq<AnalysisItem>, queue': seq<AnalysisItem>)
    ensures results' == results + Step(name, value)
    ensures queue' == queue + NonNormal(Step(name, value))
  {
    results', queue' := results, queue;
    if value.Some? {
      var result := AnalyzeMetric(name, value);
      if result.Some? {
        results' := results' + [result.value];
        if result.value.status != "normal" {
          queue' := queue' + [result.value];
        }
      }
    }
  }

  /** The metric-by-metric part of a cycle: the results and the alert queue, in check order. */
  method CollectResults(metrics: Snapshot) returns (analysisResults: seq<AnalysisItem>, alertQueue: seq<AnalysisItem>)
    ensures analysisResults == Classify(metrics)
    ensures alertQueue == NonNormal(analysisResults)
  {
    ghost var a, b, c, d, e := Step("cpu", metrics.cpu), Step("ram", metrics.ram), Step("disk", metrics.disk),
      Step("network", NetworkValue(metrics.network)), Step("temperature", metrics.temperature);
    analysisResults, alertQueue := Collect("cpu", metrics.cpu, [], []);
    assert analysisResults == a && alertQueue == NonNormal(a);
    analysisResults, alertQueue := Collect("ram", metrics.ram, analysisResults, alertQueue);
    analysisResults, alertQueue := Collect("disk", metrics.disk, analysisResults, alertQueue);
    analysisResults, alertQueue := Collect("network", NetworkValue(metrics.network), analysisResults, alertQueue);
    analysisResults, alertQueue := Collect("temperature", metrics.temperature, analysisResults, alertQueue);
    AlertQueueIsFilter(a, b, c, d, e);
  }

  class SystemAnalyzer {
    /** `self.last_analysis`; `None` before the first cycle. */
    var lastAnalysis: Option<AnalysisRecord>
    /** The shared alert manager and suggestion engine. */
    const alertManager: Alerts.AlertManager
    const suggestionEngine: Suggestions.SuggestionEngine

    constructor(alertManager: Alerts.AlertManager, suggestionEngine: Suggestions.SuggestionEngine)
      ensures this.alertManager == alertManager && this.suggestionEngine == suggestionEngine
      ensures lastAnalysis == None
    {
      this.alertManager := alertManager;
      this.suggestionEngine := suggestionEngine;
      lastAnalysis := None;
    }

    /**
     * `analyze_metrics` at time `now`: the non-normal results go to the alert manager in order,
     * and `last_analysis` is overwritten with, and equals, the returned record.
     */
    method AnalyzeMetrics(metrics: Snapshot, now: real) returns (record: AnalysisRecord)
      requires alertManager.Valid()
      modifies this, alertManager
      ensures alertManager.Valid()
      ensures record == CycleRecord(metrics, suggestionEngine.rules)
      ensures lastAnalysis == Some(record)
      ensures alertManager.State()
           == Alerts.TriggerAll(alertManager.enabled, alertManager.channels, old(alertManager.State()),
                                NonNormal(Classify(metrics)), now)
    {
      var analysisResults, alertQueue := CollectResults(metrics);
      DispatchAlerts(alertQueue, now);
      var healthScore := HealthScore.CalculateHealthScore(
        analysisResults, Settings.HEALTH_SCORE_WEIGHTS, Settings.HEALTH_SCORE_MIN, Settings.HEALTH_SCORE_MAX);
      var suggestions: seq<string> := [];
      if Settings.AUTO_SUGGEST_OPTIMIZATION {
        suggestions := suggestionEngine.Generate(analysisResults);
      }
      var failureRisk := EstimateFailureRisk(analysisResults);
      lastAnalysis := Some(AnalysisRecord(analysisResults, healthScore, suggestions, failureRisk));
      record := lastAnalysis.value;
    }

    /** The loop of `analyze_metrics` that hands each queued alert to `trigger_alert`, in order. */
    method DispatchAlerts(alertQueue: seq<AnalysisItem>, now: real)
      requires alertManager.Valid()
      modifies alertManager
      ensures alertManager.Valid()
      ensures alertManager.State()
           == Alerts.TriggerAll(alertManager.enabled, alertManager.channels, old(alertManager.State()), alertQueue, now)
    {
      for k := 0 to |alertQueue|
        invariant alertManager.Valid()
        invariant alertManager.State()
               == Alerts.TriggerAll(alertManager.enabled, alertManager.channels, old(alertManager.State()),
                                    alertQueue[..k], now)
      {
        assert alertQueue[..k + 1][..k] == alertQueue[..k];
        alertManager.TriggerAlert(alertQueue[k].metric, alertQueue[k].status, alertQueue[k].value, now);
      }
      assert alertQueue[..|alertQueue|] == alertQueue;
    }

    /** `_estimate_failure_risk`: accumulate the increments, cap at 100, then scan the risk levels. */
    method EstimateFailureRisk(analysisResults: seq<AnalysisItem>) returns (risk: int)
      ensures risk == FailureRisk(analysisResults)
    {
      risk := 0;
      for k := 0 to |analysisResults|
        invariant risk == RiskSum(analysisResults[..k])
      {
        assert analysisResults[..k + 1][..k] == analysisResults[..k];
        var status := analysisResults[k].status;
        if status == "warning" {
          risk := risk + 10;
        } else if status == "high" {
          risk := risk + 20;
        } else if status == "critical" {
          risk := risk + 35;
        }
      }
      assert analysisResults[..|analysisResults|] == analysisResults;
      risk := if risk < 100 then risk else 100;
      // every level returns the same value: the scan does not change the result
      for k := 0 to |FAILURE_RISK_THRESHOLDS| {
        if risk <= FAILURE_RISK_THRESHOLDS[k].1 {
          return;
        }
      }
    }
  }

  /** Results gathered block by block, and their non-normal parts, line up with one filter of the whole. */
  lemma {:induction false} AlertQueueIsFilter(a: seq<AnalysisItem>, b: seq<AnalysisItem>, c: seq<AnalysisItem>,
                                              d: seq<AnalysisItem>, e: seq<AnalysisItem>)
    ensures NonNormal(a + b + c + d + e)
         == NonNormal(a) + NonNormal(b) + NonNormal(c) + NonNormal(d) + NonNormal(e)
  {
    var p := (item: AnalysisItem) => item.status != "normal";
    FilterConcat(a, b, p);
    FilterConcat(a + b, c, p);
    FilterConcat(a + b + c, d, p);
    FilterConcat(a + b + c + d, e, p);
  }
}
