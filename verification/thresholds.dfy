/** Severity tiers, the per-metric threshold tables and the tier classifier (config/thresholds.py). */
module Thresholds {
  import opened Wrappers

  /** The four severity tiers, in increasing order of severity. */
  datatype Tier = Normal | Warning | High | Critical

  function Rank(t: Tier): nat {
    match t
    case Normal => 0
    case Warning => 1
    case High => 2
    case Critical => 3
  }

  /** The status string the source stores for a tier. */
  function TierName(t: Tier): string {
    match t
    case Normal => "normal"
    case Warning => "warning"
    case High => "high"
    case Critical => "critical"
  }

  /** The tier a status string names, if any. */
  function ParseTier(s: string): (r: Option<Tier>)
    ensures forall t :: r == Some(t) <==> s == TierName(t)
  {
    if s == "normal" then Some(Normal)
    else if s == "warning" then Some(Warning)
    else if s == "high" then Some(High)
    else if s == "critical" then Some(Critical)
    else None
  }

  /** One classified metric: the `{"metric", "value", "status"}` record passed between components. */
  datatype AnalysisItem = AnalysisItem(metric: string, value: real, status: string)

  /** Lower bound of each tier for one metric. */
  datatype ThresholdTable = ThresholdTable(normal: real, warning: real, high: real, critical: real)

  /** The bounds are non-decreasing: normal <= warning <= high <= critical. */
  predicate Ordered(table: ThresholdTable) {
    table.normal <= table.warning <= table.high <= table.critical
  }

  /** The lower bound of tier `t` in `table`. */
  function Bound(table: ThresholdTable, t: Tier): real {
    match t
    case Normal => table.normal
    case Warning => table.warning
    case High => table.high
    case Critical => table.critical
  }

  const CPU_THRESHOLDS := ThresholdTable(0.0, 60.0, 75.0, 90.0)
  const RAM_THRESHOLDS := ThresholdTable(0.0, 65.0, 80.0, 90.0)
  const DISK_THRESHOLDS := ThresholdTable(0.0, 70.0, 85.0, 95.0)
  const NETWORK_THRESHOLDS := ThresholdTable(0.0, 5.0, 10.0, 20.0)
  const TEMPERATURE_THRESHOLDS := ThresholdTable(0.0, 60.0, 75.0, 85.0)
  const DISK_IO_THRESHOLDS := ThresholdTable(0.0, 50.0, 100.0, 200.0)
  const PROCESS_COUNT_THRESHOLDS := ThresholdTable(0.0, 200.0, 300.0, 400.0)
  const LOAD_AVERAGE_THRESHOLDS := ThresholdTable(0.0, 1.5, 3.0, 5.0)

  /** Metric name to its threshold table. */
  const THRESHOLD_MAP: map<string, ThresholdTable> := map[
    "cpu" := CPU_THRESHOLDS,
    "ram" := RAM_THRESHOLDS,
    "disk" := DISK_THRESHOLDS,
    "network" := NETWORK_THRESHOLDS,
    "temperature" := TEMPERATURE_THRESHOLDS,
    "disk_io" := DISK_IO_THRESHOLDS,
    "process_count" := PROCESS_COUNT_THRESHOLDS,
    "load_average" := LOAD_AVERAGE_THRESHOLDS
  ]

  /** Failure-risk levels with their lower bounds, in the dictionary's iteration order. */
  const FAILURE_RISK_THRESHOLDS: seq<(string, int)> :=
    [("low", 0), ("medium", 40), ("high", 70), ("critical", 90)]

  /**
   * The tier of `value`: the most severe tier, scanning critical, high, warning, whose lower
   * bound `value` reaches; "normal" otherwise. The table's own "normal" bound is never read.
   * On an ordered table the tier is at least `t` exactly when `value` reaches `t`'s bound
   * (for t above Normal), which fixes the tier uniquely.
   */
  function GetStatus(value: real, table: ThresholdTable): (t: Tier)
    ensures value >= table.critical ==> t == Critical
    ensures t == Normal ==> value < table.warning
    ensures Ordered(table) ==>
      forall u :: u != Normal ==> (Rank(t) >= Rank(u) <==> value >= Bound(table, u))
  {
    if value >= table.critical then Critical
    else if value >= table.high then High
    else if value >= table.warning then Warning
    else Normal
  }

  /** Boundaries are inclusive at the low end of each tier. */
  lemma BoundaryInclusive(table: ThresholdTable)
    requires table.warning <= table.high < table.critical
    ensures GetStatus(table.high, table) == High
    ensures GetStatus(table.critical, table) == Critical
    ensures table.warning < table.high ==> GetStatus(table.warning, table) == Warning
  {
  }

  /** On an ordered table, a value is "normal" exactly when it is strictly below the warning bound. */
  lemma NormalIffBelowWarning(value: real, table: ThresholdTable)
    requires Ordered(table)
    ensures GetStatus(value, table) == Normal <==> value < table.warning
  {
    assert Rank(GetStatus(value, table)) >= Rank(Warning) <==> value >= table.warning;
  }

  /** The "normal" entry of a table never influences the classification. */
  lemma NormalBoundUnused(value: real, table: ThresholdTable, other: real)
    ensures GetStatus(value, table.(normal := other)) == GetStatus(value, table)
  {
  }

  /** A larger value never gets a less severe tier when the table is ordered. */
  lemma GetStatusMonotone(v1: real, v2: real, table: ThresholdTable)
    requires table.warning <= table.high <= table.critical
    requires v1 <= v2
    ensures Rank(GetStatus(v1, table)) <= Rank(GetStatus(v2, table))
  {
  }

  /** Every registered table is ordered. */
  lemma ThresholdMapOrdered()
    ensures forall name :: name in THRESHOLD_MAP ==> Ordered(THRESHOLD_MAP[name])
  {
  }

  /** Alert priorities. */
  datatype Priority = LOW | MEDIUM | HIGH | CRITICAL

  function PriorityRank(p: Priority): nat {
    match p
    case LOW => 0
    case MEDIUM => 1
    case HIGH => 2
    case CRITICAL => 3
  }

  const ALERT_PRIORITY: map<string, Priority> :=
    map["normal" := LOW, "warning" := MEDIUM, "high" := HIGH, "critical" := CRITICAL]

  /** The priority of a status; an unknown status gets LOW. */
  function PriorityFor(status: string): (p: Priority)
    ensures ParseTier(status).None? ==> p == LOW
    ensures forall t :: status == TierName(t) ==> PriorityRank(p) == Rank(t)
  {
    if status in ALERT_PRIORITY then ALERT_PRIORITY[status] else LOW
  }

  /** The tier-to-priority mapping preserves and reflects the order, so it is injective. */
  lemma PriorityOrderPreserving(t1: Tier, t2: Tier)
    ensures Rank(t1) <= Rank(t2) <==>
      PriorityRank(PriorityFor(TierName(t1))) <= PriorityRank(PriorityFor(TierName(t2)))
    ensures t1 != t2 ==> PriorityFor(TierName(t1)) != PriorityFor(TierName(t2))
  {
  }
}
