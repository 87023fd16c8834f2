/** The dashboard's health engine and its own alert cooldown (dashboard/app.py). */
module Dashboard {
  import opened Wrappers
  import Analyzer
  import Alerts
  import Settings

  /** The dashboard's three-level verdict. */
  datatype HealthStatus = Healthy | Warning | Critical

  /** The "health" entry the dashboard adds to an analysis. */
  datatype Health = Health(score: int, status: HealthStatus, message: string, problems: seq<string>,
                           reasons: seq<string>, suggestions: seq<string>, showAlert: bool)

  /** An analysis record together with the "health" entry added to it. */
  datatype EnrichedAnalysis = EnrichedAnalysis(analysis: Analyzer.AnalysisRecord, health: Health)

  /** One dashboard rule: what it reports and the points it takes off the score. */
  datatype Rule = Rule(problem: string, reason: string, suggestion: string, penalty: nat)

  const CPU_RULE: Rule := Rule("CPU Overloaded", "Too many heavy processes running", "Background processes band karo", 40)
  const RAM_RULE: Rule := Rule("RAM Almost Full", "Memory heavy apps chal rahi hain", "System restart ya startup apps kam karo", 40)
  const DISK_RULE: Rule := Rule("Disk Usage High", "Disk space kam hai", "Unused files delete karo", 20)

  /** `ALERT_COOLDOWN` of the dashboard, in seconds. */
  const ALERT_COOLDOWN: real := 300.0

  /** `now - LAST_ALERT_TIME > ALERT_COOLDOWN`: the dashboard may raise its alert again. */
  predicate AlertDue(last: real, now: real) {
    now - last > ALERT_COOLDOWN
  }

  /** The rules that fire for the readings, in cpu, ram, disk order (all thresholds strict). */
  function Triggered(cpu: real, ram: real, disk: real): seq<Rule> {
    (if cpu > 85.0 then [CPU_RULE] else [])
    + (if ram > 90.0 then [RAM_RULE] else [])
    + (if disk > 85.0 then [DISK_RULE] else [])
  }

  function TotalPenalty(rules: seq<Rule>): nat {
    if rules == [] then 0 else TotalPenalty(rules[..|rules| - 1]) + rules[|rules| - 1].penalty
  }

  /** Status thresholds: Critical up to 40, Warning up to 70, Healthy above. */
  function StatusOf(score: int): (s: HealthStatus)
    ensures s == Critical <==> score <= 40
    ensures s == Warning <==> 40 < score <= 70
    ensures s == Healthy <==> score > 70
  {
    if score <= 40 then Critical else if score <= 70 then Warning else Healthy
  }

  function MessageOf(status: HealthStatus): string {
    match status
    case Critical => "⚠️ High risk: system crash ho sakta hai"
    case Warning => "⚠️ System pressure me hai"
    case Healthy => "✅ System healthy hai"
  }

  /**
   * The health verdict for the readings before the cooldown is consulted: the score is 100 less
   * the penalties of the rules that fire, and the three lists hold one entry per fired rule.
   */
  function Assess(cpu: real, ram: real, disk: real): (h: Health)
    ensures 0 <= h.score <= 100
    ensures |h.problems| == |h.reasons| == |h.suggestions| == |Triggered(cpu, ram, disk)|
    ensures forall i :: 0 <= i < |h.problems| ==>
      (h.problems[i] == Triggered(cpu, ram, disk)[i].problem
       && h.reasons[i] == Triggered(cpu, ram, disk)[i].reason
       && h.suggestions[i] == Triggered(cpu, ram, disk)[i].suggestion)
    ensures h.status == StatusOf(h.score) && h.message == MessageOf(h.status)
    ensures !h.showAlert
  {
    var rules := Triggered(cpu, ram, disk);
    var score := 100 - TotalPenalty(rules);
    Health(if score < 0 then 0 else score, StatusOf(score), MessageOf(StatusOf(score)),
           Column(rules, ProblemOf), Column(rules, ReasonOf), Column(rules, SuggestionOf), false)
  }

  function ProblemOf(r: Rule): string { r.problem }
  function ReasonOf(r: Rule): string { r.reason }
  function SuggestionOf(r: Rule): string { r.suggestion }

  /** One entry per rule, in rule order. */
  function Column(rules: seq<Rule>, pick: Rule -> string): (c: seq<string>)
    ensures |c| == |rules|
    ensures forall i :: 0 <= i < |rules| ==> c[i] == pick(rules[i])
  {
    if rules == [] then [] else Column(rules[..|rules| - 1], pick) + [pick(rules[|rules| - 1])]
  }

  /** Firing one more rule appends its entries to the lists and takes its penalty off. */
  lemma AppendRule(rules: seq<Rule>, r: Rule)
    ensures Column(rules + [r], ProblemOf) == Column(rules, ProblemOf) + [r.problem]
    ensures Column(rules + [r], ReasonOf) == Column(rules, ReasonOf) + [r.reason]
    ensures Column(rules + [r], SuggestionOf) == Column(rules, SuggestionOf) + [r.suggestion]
    ensures TotalPenalty(rules + [r]) == TotalPenalty(rules) + r.penalty
  {
    assert (rules + [r])[..|rules|] == rules;
  }

  lemma {:induction false} TotalPenaltyConcat(a: seq<Rule>, b: seq<Rule>)
    ensures TotalPenalty(a + b) == TotalPenalty(a) + TotalPenalty(b)
  {
    if b == [] {
      assert a + b == a;
    } else {
      assert (a + b)[..|a + b| - 1] == a + b[..|b| - 1];
      assert (a + b)[|a + b| - 1] == b[|b| - 1];
      TotalPenaltyConcat(a, b[..|b| - 1]);
    }
  }

  lemma OptionalPenalty(fires: bool, rule: Rule)
    ensures TotalPenalty(if fires then [rule] else []) == if fires then rule.penalty else 0
  {
    if fires {
      assert [rule][..0] == [];
    }
  }

  /** The fired rules take off 40 for cpu above 85, 40 for ram above 90 and 20 for disk above 85. */
  lemma PenaltyFormula(cpu: real, ram: real, disk: real)
    ensures TotalPenalty(Triggered(cpu, ram, disk))
         == (if cpu > 85.0 then 40 else 0) + (if ram > 90.0 then 40 else 0) + (if disk > 85.0 then 20 else 0)
  {
    var a := if cpu > 85.0 then [CPU_RULE] else [];
    var b := if ram > 90.0 then [RAM_RULE] else [];
    var c := if disk > 85.0 then [DISK_RULE] else [];
    OptionalPenalty(cpu > 85.0, CPU_RULE);
    OptionalPenalty(ram > 90.0, RAM_RULE);
    OptionalPenalty(disk > 85.0, DISK_RULE);
    assert Triggered(cpu, ram, disk) == a + b + c;
    TotalPenaltyConcat(a + b, c);
    TotalPenaltyConcat(a, b);
  }

  /** The score is 100 less 40 for cpu above 85, 40 for ram above 90 and 20 for disk above 85. */
  lemma ScoreFormula(cpu: real, ram: real, disk: real)
    ensures Assess(cpu, ram, disk).score
         == 100 - (if cpu > 85.0 then 40 else 0) - (if ram > 90.0 then 40 else 0) - (if disk > 85.0 then 20 else 0)
  {
    PenaltyFormula(cpu, ram, disk);
  }

  /**
   * Critical needs two overloaded resources among which cpu or ram: both cpu and ram, or one of
   * them together with the disk. The disk alone never makes the system Critical.
   */
  lemma CriticalIff(cpu: real, ram: real, disk: real)
    ensures Assess(cpu, ram, disk).status == Critical
        <==> (cpu > 85.0 && ram > 90.0) || ((cpu > 85.0 || ram > 90.0) && disk > 85.0)
    ensures cpu <= 85.0 && ram <= 90.0 ==> Assess(cpu, ram, disk).status == Healthy
  {
    ScoreFormula(cpu, ram, disk);
  }

  /**
   * The dashboard's alert fires strictly after its cooldown, while the alert manager fires at
   * exactly the cooldown: 300 seconds after a firing the alert manager alerts again and the
   * dashboard does not. Whenever the dashboard's alert is due, the alert manager would fire too.
   */
  lemma CooldownBoundaryDiffers(key: string, last: real, now: real)
    ensures Alerts.CanFire(map[key := last], key, last + Settings.ALERT_COOLDOWN_SECONDS)
    ensures !AlertDue(last, last + Settings.ALERT_COOLDOWN_SECONDS)
    ensures AlertDue(last, now) ==> Alerts.CanFire(map[key := last], key, now)
  {
  }

  class DashboardState {
    /** `LAST_ALERT_TIME`: when the dashboard last raised its alert (0 at start). */
    var lastAlertTime: real

    constructor()
      ensures lastAlertTime == 0.0
    {
      lastAlertTime := 0.0;
    }

    /**
     * `enrich_analysis` at time `now`: missing readings count as 0; the alert is shown, and
     * `LAST_ALERT_TIME` moves to `now`, only for a Critical verdict more than the cooldown after
     * the last shown alert.
     */
    method EnrichAnalysis(metrics: Analyzer.Snapshot, analysis: Analyzer.AnalysisRecord, now: real)
      returns (enriched: EnrichedAnalysis)
      modifies this
      ensures var verdict := Assess(metrics.cpu.GetOr(0.0), metrics.ram.GetOr(0.0), metrics.disk.GetOr(0.0));
        var fires := verdict.status == Critical && AlertDue(old(lastAlertTime), now);
        enriched == EnrichedAnalysis(analysis, verdict.(showAlert := fires))
        && lastAlertTime == (if fires then now else old(lastAlertTime))
    {
      var cpu := metrics.cpu.GetOr(0.0);
      var ram := metrics.ram.GetOr(0.0);
      var disk := metrics.disk.GetOr(0.0);
      var score, problems, reasons, suggestions := Diagnose(cpu, ram, disk);

      var showAlert := false;
      var status: HealthStatus;
      if score <= 40 {
        status := Critical;
        if AlertDue(lastAlertTime, now) {
          showAlert := true;
          lastAlertTime := now;
        }
      } else if score <= 70 {
        status := Warning;
      } else {
        status := Healthy;
      }
      var health := Health(if score < 0 then 0 else score, status, MessageOf(status), problems, reasons, suggestions, showAlert);
      enriched := EnrichedAnalysis(analysis, health);
    }
  }

  /**
   * The rule checks of `enrich_analysis`: the score after the decrements and the three lists,
   * which match the verdict of `Assess`.
   */
  method Diagnose(cpu: real, ram: real, disk: real)
    returns (score: int, problems: seq<string>, reasons: seq<string>, suggestions: seq<string>)
    ensures 0 <= score <= 100 && score == Assess(cpu, ram, disk).score
    ensures problems == Assess(cpu, ram, disk).problems
    ensures reasons == Assess(cpu, ram, disk).reasons
    ensures suggestions == Assess(cpu, ram, disk).suggestions
  {
    ghost var rules: seq<Rule>;
    rules, score, problems, reasons, suggestions := CheckRule(cpu > 85.0, CPU_RULE, [], 100, [], [], []);
    rules, score, problems, reasons, suggestions := CheckRule(ram > 90.0, RAM_RULE, rules, score, problems, reasons, suggestions);
    rules, score, problems, reasons, suggestions := CheckRule(disk > 85.0, DISK_RULE, rules, score, problems, reasons, suggestions);
    assert rules == Triggered(cpu, ram, disk);
    PenaltyFormula(cpu, ram, disk);
  }

  /** The score and the lists are those of the rules fired so far. */
  ghost predicate Tracks(rules: seq<Rule>, score: int, problems: seq<string>, reasons: seq<string>, suggestions: seq<string>) {
    score == 100 - TotalPenalty(rules) && problems == Column(rules, ProblemOf)
    && reasons == Column(rules, ReasonOf) && suggestions == Column(rules, SuggestionOf)
  }

  /** One rule block of `enrich_analysis`: when the rule fires, decrement the score and append its entries. */
  method CheckRule(fires: bool, rule: Rule, ghost rules: seq<Rule>, score: int, problems: seq<string>,
                   reasons: seq<string>, suggestions: seq<string>)
    returns (ghost rules': seq<Rule>, score': int, problems': seq<string>, reasons': seq<string>, suggestions': seq<string>)
    requires Tracks(rules, score, problems, reasons, suggestions)
    ensures rules' == rules + (if fires then [rule] else [])
    ensures Tracks(rules', score', problems', reasons', suggestions')
  {
    rules', score', problems', reasons', suggestions' := rules, score, problems, reasons, suggestions;
    if fires {
      AppendRule(rules, rule);
      rules' := rules + [rule];
      score' := score - rule.penalty;
      problems' := problems + [rule.problem];
      reasons' := reasons + [rule.reason];
      suggestions' := suggestions + [rule.suggestion];
    } else {
      assert rules + [] == rules;
    }
  }
}
