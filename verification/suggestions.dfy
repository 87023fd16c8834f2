/** Remediation suggestions looked up per (metric, status) (core/suggestions.py). */
module Suggestions {
  import opened Thresholds
  import Seqs

  /** metric -> status -> suggestion texts. */
  type Rules = map<string, map<string, seq<string>>>

  /** The statuses that have an entry for every metric. */
  const RULED_STATUSES: set<string> := {"warning", "high", "critical"}

  /** The metrics the table covers. */
  const RULED_METRICS: set<string> := {"cpu", "ram", "disk", "network", "temperature"}

  /**
   * `_load_rules`: the fixed table. It covers the five monitored metrics, each with exactly the
   * tiers warning, high and critical; "normal" has no entry. The per-metric entries are built by
   * methods so that the verifier sees their texts only inside their own bodies.
   */
  method LoadRules() returns (rules: Rules)
    ensures rules.Keys == RULED_METRICS
    ensures forall m :: m in rules ==> rules[m].Keys == RULED_STATUSES
    ensures forall m :: m in rules ==> "normal" !in rules[m]
  {
    var cpu := CpuRules();
    var ram := RamRules();
    var disk := DiskRules();
    var network := NetworkRules();
    var temperature := TemperatureRules();
    rules := map["cpu" := cpu, "ram" := ram, "disk" := disk, "network" := network, "temperature" := temperature];
  }

  method CpuRules() returns (r: map<string, seq<string>>)
    ensures r.Keys == RULED_STATUSES
  {
    r := map[
      "warning" := [
        "Close unnecessary background applications.",
        "Check for high CPU-consuming processes."
      ],
      "high" := [
        "Restart heavy applications.",
        "Scan system for malware or runaway processes.",
        "Consider upgrading CPU or optimizing workloads."
      ],
      "critical" := [
        "Immediate action required: stop non-essential services.",
        "System may overheat or become unstable.",
        "Restart system if safe to do so."
      ]
    ];
  }

  method RamRules() returns (r: map<string, seq<string>>)
    ensures r.Keys == RULED_STATUSES
  {
    r := map[
      "warning" := [
        "Close unused browser tabs and applications.",
        "Monitor memory usage of running programs."
      ],
      "high" := [
        "Clear memory-intensive background services.",
        "Increase swap memory if supported."
      ],
      "critical" := [
        "System memory exhausted — risk of crash.",
        "Restart system and consider adding more RAM."
      ]
    ];
  }

  method DiskRules() returns (r: map<string, seq<string>>)
    ensures r.Keys == RULED_STATUSES
  {
    r := map[
      "warning" := [
        "Clean temporary files and unused data.",
        "Check disk usage by large folders."
      ],
      "high" := [
        "Move data to external storage.",
        "Uninstall unused applications."
      ],
      "critical" := [
        "Disk almost full — system performance severely impacted.",
        "Free disk space immediately or upgrade storage."
      ]
    ];
  }

  method NetworkRules() returns (r: map<string, seq<string>>)
    ensures r.Keys == RULED_STATUSES
  {
    r := map[
      "warning" := [
        "Check background downloads or uploads.",
        "Monitor network usage per application."
      ],
      "high" := [
        "Limit bandwidth-heavy applications.",
        "Check for unauthorized network activity."
      ],
      "critical" := [
        "Possible network congestion or misuse detected.",
        "Disconnect unnecessary devices and investigate traffic."
      ]
    ];
  }

  method TemperatureRules() returns (r: map<string, seq<string>>)
    ensures r.Keys == RULED_STATUSES
  {
    r := map[
      "warning" := [
        "Ensure proper ventilation around the system.",
        "Clean dust from fans and vents."
      ],
      "high" := [
        "Reduce system load immediately.",
        "Check cooling system or fan operation."
      ],
      "critical" := [
        "Critical overheating detected.",
        "Shut down system to prevent hardware damage."
      ]
    ];
  }

  /** Does the table have an entry for this item's metric and status? */
  predicate HasRule(rules: Rules, item: AnalysisItem) {
    item.metric in rules && item.status in rules[item.metric]
  }

  /** The texts one item contributes; none when its metric or status is not in the table. */
  function RulesFor(rules: Rules, item: AnalysisItem): seq<string> {
    if HasRule(rules, item) then rules[item.metric][item.status] else []
  }

  /** All matched texts, item after item, duplicates included (the list before deduplication). */
  function Matched(rules: Rules, items: seq<AnalysisItem>): seq<string> {
    if items == [] then []
    else Matched(rules, items[..|items| - 1]) + RulesFor(rules, items[|items| - 1])
  }

  predicate NoDuplicates(s: seq<string>) {
    forall i, j :: 0 <= i < j < |s| ==> s[i] != s[j]
  }

  /** `list(dict.fromkeys(s))`: each text once, kept where it first occurs. */
  function Dedup(s: seq<string>): (r: seq<string>)
    ensures NoDuplicates(r)
    ensures forall x :: x in r <==> x in s
  {
    if s == [] then []
    else
      var d := Dedup(s[..|s| - 1]);
      if s[|s| - 1] in d then d else d + [s[|s| - 1]]
  }

  /** Index of the first occurrence of `x` in `s`. */
  function FirstIndex(s: seq<string>, x: string): (i: nat)
    requires x in s
    ensures i < |s| && s[i] == x && x !in s[..i]
  {
    if s[0] == x then 0 else 1 + FirstIndex(s[1..], x)
  }

  lemma FirstIndexInPrefix(s: seq<string>, n: nat, x: string)
    requires n <= |s| && x in s[..n]
    ensures FirstIndex(s, x) == FirstIndex(s[..n], x)
  {
    var j := FirstIndex(s[..n], x);
    assert s[..n][..j] == s[..j];
  }

  /** Deduplication keeps first-occurrence order: earlier in the output means first seen earlier. */
  lemma {:induction false} DedupKeepsFirstOccurrenceOrder(s: seq<string>)
    ensures forall i, j :: 0 <= i < j < |Dedup(s)| ==>
      FirstIndex(s, Dedup(s)[i]) < FirstIndex(s, Dedup(s)[j])
  {
    if s != [] {
      var n := |s| - 1;
      var init, last := s[..n], s[n];
      var d := Dedup(init);
      DedupKeepsFirstOccurrenceOrder(init);
      forall x | x in d
        ensures FirstIndex(s, x) == FirstIndex(init, x) < n
      {
        FirstIndexInPrefix(s, n, x);
      }
      if last !in d {
        assert last !in init;
        assert FirstIndex(s, last) == n;
      }
      forall i, j | 0 <= i < j < |Dedup(s)|
        ensures FirstIndex(s, Dedup(s)[i]) < FirstIndex(s, Dedup(s)[j])
      {
        if j < |d| {
          assert Dedup(s)[i] == d[i] && Dedup(s)[j] == d[j];
        } else {
          assert Dedup(s)[i] == d[i] && Dedup(s)[j] == last;
        }
      }
    }
  }

  /** A text is matched exactly when some input item's entry lists it. */
  lemma {:induction false} MatchedMembership(rules: Rules, items: seq<AnalysisItem>, x: string)
    ensures x in Matched(rules, items) <==> exists i :: 0 <= i < |items| && x in RulesFor(rules, items[i])
  {
    if items != [] {
      var init := items[..|items| - 1];
      MatchedMembership(rules, init, x);
      if x in Matched(rules, init) {
        var i :| 0 <= i < |init| && x in RulesFor(rules, init[i]);
        assert items[i] == init[i];
      }
      if exists i :: 0 <= i < |items| && x in RulesFor(rules, items[i]) {
        var i :| 0 <= i < |items| && x in RulesFor(rules, items[i]);
        if i < |init| {
          assert init[i] == items[i];
        }
      }
    }
  }

  /** Items without an entry contribute nothing: dropping them leaves the matched texts unchanged. */
  lemma {:induction false} UnmatchedItemsContributeNothing(rules: Rules, items: seq<AnalysisItem>)
    ensures Matched(rules, items) == Matched(rules, Seqs.Filter(items, item => HasRule(rules, item)))
  {
    if items != [] {
      var init, last := items[..|items| - 1], items[|items| - 1];
      var f := Seqs.Filter(init, item => HasRule(rules, item));
      UnmatchedItemsContributeNothing(rules, init);
      if HasRule(rules, last) {
        assert (f + [last])[..|f + [last]| - 1] == f;
      }
    }
  }

  /** With no entry for "normal", an all-normal (or empty) input matches no text at all. */
  lemma {:induction false} AllNormalYieldsNothing(rules: Rules, items: seq<AnalysisItem>)
    requires forall m :: m in rules ==> "normal" !in rules[m]
    requires forall i :: 0 <= i < |items| ==> items[i].status == "normal"
    ensures Matched(rules, items) == []
    ensures Dedup(Matched(rules, items)) == []
  {
    if items != [] {
      AllNormalYieldsNothing(rules, items[..|items| - 1]);
      assert !HasRule(rules, items[|items| - 1]);
    }
  }

  class SuggestionEngine {
    /** `self.rules`, set once by the constructor. */
    var rules: Rules

    constructor()
      ensures rules.Keys == RULED_METRICS
      ensures forall m :: m in rules ==> rules[m].Keys == RULED_STATUSES
      ensures forall m :: m in rules ==> "normal" !in rules[m]
    {
      var table := LoadRules();
      rules := table;
    }

    /**
     * `generate`: extend the list with each item's texts, then deduplicate. The result has no
     * duplicates, holds exactly the texts of the matched entries, and keeps first-seen order.
     * It does not modify the engine.
     */
    method Generate(analysisResults: seq<AnalysisItem>) returns (unique: seq<string>)
      ensures unique == Dedup(Matched(rules, analysisResults))
      ensures NoDuplicates(unique)
      ensures forall x :: x in unique <==> exists i :: 0 <= i < |analysisResults| && x in RulesFor(rules, analysisResults[i])
    {
      var suggestions: seq<string> := [];
      for k := 0 to |analysisResults|
        invariant suggestions == Matched(rules, analysisResults[..k])
      {
        assert analysisResults[..k + 1][..k] == analysisResults[..k];
        var item := analysisResults[k];
        if item.metric in rules {
          var metricRules := rules[item.metric];
          if item.status in metricRules {
            suggestions := suggestions + metricRules[item.status];
          }
        }
      }
      assert analysisResults[..|analysisResults|] == analysisResults;
      unique := Dedup(suggestions);
      forall x
        ensures x in unique <==> exists i :: 0 <= i < |analysisResults| && x in RulesFor(rules, analysisResults[i])
      {
        MatchedMembership(rules, analysisResults, x);
      }
    }
  }
}
