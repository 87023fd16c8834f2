/** Averages, date filtering and the daily score of the report generator (reports/system_report_generator.py). */
module Reports {
  import opened Wrappers
  import opened Decimal
  import opened Seqs
  import opened Thresholds
  import TimeUtils
  import HealthScore

  /** A CSV row: column name to cell text. */
  type Row = map<string, string>

  /** `row.get(column)`. */
  function Cell(row: Row, column: string): Option<string> {
    if column in row then Some(row[column]) else None
  }

  // ---------------------------------------------------------------------------
  // _to_float
  // ---------------------------------------------------------------------------

  /** Index of the first '.' in `s`, or `|s|` when there is none. */
  function DotIndex(s: string): (k: nat)
    ensures k <= |s|
    ensures forall i :: 0 <= i < k ==> s[i] != '.'
    ensures k < |s| ==> s[k] == '.'
  {
    if s == [] then 0 else if s[0] == '.' then 0 else 1 + DotIndex(s[1..])
  }

  /**
   * `float(s)` on plain decimal text: an optional sign, then digits with at most one '.', and
   * at least one digit; `None` where Python raises ValueError.
   */
  function ParseDecimal(s: string): (r: Option<real>)
    ensures s != [] && AllDigits(s) ==> r == Some(DigitsValue(s) as real)
    ensures r.Some? ==> s != []
    ensures r.Some? && s[0] == '-' ==> r.value <= 0.0
    ensures r.Some? && s[0] != '-' ==> r.value >= 0.0
  {
    if |s| > 0 && s[0] == '-' then
      match ParseUnsigned(s[1..])
      case None => None
      case Some(magnitude) => Some(-magnitude)
    else if |s| > 0 && s[0] == '+' then ParseUnsigned(s[1..])
    else
      assert s != [] && AllDigits(s) ==> IsDigit(s[0]);
      ParseUnsigned(s)
  }

  /** Digits with at most one '.', and at least one digit: the text after an optional sign. */
  function ParseUnsigned(body: string): (r: Option<real>)
    ensures body != [] && AllDigits(body) ==> r == Some(DigitsValue(body) as real)
    ensures r.Some? ==> body != [] && r.value >= 0.0
  {
    var k := DotIndex(body);
    assert AllDigits(body) ==> body[..k] == body && k == |body| by {
      if AllDigits(body) {
        DigitsHaveNoDot(body);
        assert body[..|body|] == body;
      }
    }
    var whole := body[..k];
    var fraction := if k < |body| then body[k + 1..] else [];
    if !AllDigits(whole) || !AllDigits(fraction) || |whole| + |fraction| == 0 then None
    else Some(Magnitude(whole, fraction))
  }

  /** The value of "whole.fraction" for two digit runs. */
  function Magnitude(whole: string, fraction: string): (m: real)
    requires AllDigits(whole) && AllDigits(fraction)
    ensures m >= 0.0
    ensures fraction == [] ==> m == DigitsValue(whole) as real
  {
    DigitsValue(whole) as real + DigitsValue(fraction) as real / Pow10(|fraction|) as real
  }

  /** `_to_float`: the parsed value, or 0.0 for a missing or unparseable cell. */
  function ToFloat(value: Option<string>): (r: real)
    ensures value.None? ==> r == 0.0
    ensures value.Some? && ParseDecimal(value.value).None? ==> r == 0.0
    ensures value.Some? && value.value != [] && AllDigits(value.value) ==> r == DigitsValue(value.value) as real
  {
    if value.None? then 0.0
    else match ParseDecimal(value.value)
      case None => 0.0
      case Some(x) => x
  }

  lemma DigitsHaveNoDot(s: string)
    requires AllDigits(s)
    ensures DotIndex(s) == |s|
  {
    if s != [] {
      DigitsHaveNoDot(s[1..]);
    }
  }

  /** In digits followed by '.', the first '.' is the one right after the digits. */
  lemma {:induction false} DotAfterDigits(a: string, b: string)
    requires AllDigits(a)
    ensures DotIndex(a + "." + b) == |a|
  {
    if a != [] {
      assert (a + "." + b)[1..] == a[1..] + "." + b;
      DotAfterDigits(a[1..], b);
    }
  }

  /** Digits, a '.', then digits read as the whole part plus the fraction. */
  lemma ParseDigitsDotDigits(a: string, b: string)
    requires a != [] && AllDigits(a) && AllDigits(b)
    ensures ParseDecimal(a + "." + b) == Some(Magnitude(a, b))
  {
    var s := a + "." + b;
    assert IsDigit(s[0]);
    assert ParseDecimal(s) == ParseUnsigned(s);
    DotAfterDigits(a, b);
    assert s[..|a|] == a && s[|a| + 1..] == b;
  }

  /** A leading '-' before text that starts with a digit negates what the text reads as. */
  lemma ParseDecimalNegated(u: string)
    requires u != [] && IsDigit(u[0])
    ensures ParseDecimal("-" + u).Some? <==> ParseDecimal(u).Some?
    ensures ParseDecimal(u).Some? ==> ParseDecimal("-" + u).value == -ParseDecimal(u).value
  {
    assert ("-" + u)[0] == '-' && ("-" + u)[1..] == u;
  }

  /** Every text "A.B" of digit runs A (non-empty) and B reads as A + B / 10^|B|. */
  lemma ParseDecimalReadsFraction(a: string, b: string)
    requires a != [] && AllDigits(a) && AllDigits(b)
    ensures ParseDecimal(a + "." + b).Some?
    ensures ParseDecimal(a + "." + b).value == DigitsValue(a) as real + DigitsValue(b) as real / Decimal.Pow10(|b|) as real
  {
    ParseDigitsDotDigits(a, b);
  }

  /** Every text "-A.B" of digit runs A (non-empty) and B reads as -(A + B / 10^|B|). */
  lemma ParseDecimalReadsNegativeFraction(a: string, b: string)
    requires a != [] && AllDigits(a) && AllDigits(b)
    ensures ParseDecimal("-" + (a + "." + b)).Some?
    ensures ParseDecimal("-" + (a + "." + b)).value
         == -(DigitsValue(a) as real + DigitsValue(b) as real / Decimal.Pow10(|b|) as real)
  {
    var u := a + "." + b;
    ParseDigitsDotDigits(a, b);
    assert u[0] == a[0];
    ParseDecimalNegated(u);
  }

  /** A cell holding "A.B" or "-A.B" of digit runs reads as A + B / 10^|B| or its negation. */
  lemma ToFloatReadsFractions(a: string, b: string)
    requires a != [] && AllDigits(a) && AllDigits(b)
    ensures ToFloat(Some(a + "." + b)) == DigitsValue(a) as real + DigitsValue(b) as real / Decimal.Pow10(|b|) as real
    ensures ToFloat(Some("-" + (a + "." + b)))
         == -(DigitsValue(a) as real + DigitsValue(b) as real / Decimal.Pow10(|b|) as real)
  {
    ParseDecimalReadsFraction(a, b);
    ParseDecimalReadsNegativeFraction(a, b);
  }

  /** A cell holding a written whole number reads back as that number. */
  lemma ToFloatReadsWholeNumbers(n: nat)
    ensures ToFloat(Some(NatToString(n))) == n as real
  {
    var s := NatToString(n);
    NatToStringRoundTrip(n);
    DigitsHaveNoDot(s);
    assert IsDigit(s[0]);
    assert s[..|s|] == s;
  }

  /** Missing, empty and non-numeric cells all read as 0.0. */
  lemma ToFloatDefaultsToZero()
    ensures ToFloat(None) == 0.0
    ensures ToFloat(Some("")) == 0.0
    ensures ToFloat(Some("n/a")) == 0.0
  {
    assert DotIndex("n/a") == 3 by {
      assert "n/a"[1..] == "/a" && "/a"[1..] == "a" && "a"[1..] == [];
    }
    assert "n/a"[..3] == "n/a" && !IsDigit("n/a"[0]);
  }

  /** "12.5" reads as 12.5 and "-0.5" as -0.5. */
  lemma ToFloatReadsDecimals()
    ensures ToFloat(Some("12.5")) == 12.5
    ensures ToFloat(Some("-0.5")) == -0.5
  {
    var s := "12.5";
    assert DotIndex(s) == 2 by {
      assert s[1..] == "2.5" && s[1..][1..] == ".5";
    }
    assert s[..2] == "12" && s[3..] == "5";
    assert DigitsValue("12") == 12 by {
      assert "12"[..1] == "1" && "1"[..0] == [];
    }
    assert DigitsValue("5") == 5 by {
      assert "5"[..0] == [];
    }
    assert ParseDecimal(s) == Some(12.5);
    var t := "0.5";
    assert "-0.5"[1..] == t;
    assert DotIndex(t) == 1 by {
      assert t[1..] == ".5";
    }
    assert t[..1] == "0" && t[2..] == "5";
    assert DigitsValue("0") == 0 by {
      assert "0"[..0] == [];
    }
    assert DigitsValue("5") == 5 by {
      assert "5"[..0] == [];
    }
    assert ParseDecimal("-0.5") == Some(-0.5);
  }

  // ---------------------------------------------------------------------------
  // _compute_averages
  // ---------------------------------------------------------------------------

  /** The five averaged columns, as `_compute_averages` names its result. */
  datatype Averages = Averages(avgCpu: real, avgRam: real, avgDisk: real, avgNetwork: real, avgTemperature: real)

  /** Sum of `f` over the rows. */
  function RowSum(rows: seq<Row>, f: Row -> real): real {
    if rows == [] then 0.0 else RowSum(rows[..|rows| - 1], f) + f(rows[|rows| - 1])
  }

  /** Reads one column of a row with `_to_float`. */
  function ColumnReader(column: string): Row -> real {
    row => ToFloat(Cell(row, column))
  }

  /** Sum of a column over the rows, each cell read with `_to_float`. */
  function ColumnSum(rows: seq<Row>, column: string): real {
    RowSum(rows, ColumnReader(column))
  }

  /** What `_compute_averages` returns: nothing (`{}`) for no rows, otherwise each column sum over the row count. */
  function AveragesOf(rows: seq<Row>): (r: Option<Averages>)
    ensures r.None? <==> rows == []
    ensures r.Some? ==>
      var n := |rows| as real;
      r.value.avgCpu * n == ColumnSum(rows, "cpu") && r.value.avgRam * n == ColumnSum(rows, "ram_percent")
      && r.value.avgDisk * n == ColumnSum(rows, "disk_percent")
      && r.value.avgNetwork * n == ColumnSum(rows, "network_mb_s")
      && r.value.avgTemperature * n == ColumnSum(rows, "temperature")
  {
    if rows == [] then None
    else
      var count := |rows| as real;
      Some(Averages(ColumnSum(rows, "cpu") / count, ColumnSum(rows, "ram_percent") / count,
                    ColumnSum(rows, "disk_percent") / count, ColumnSum(rows, "network_mb_s") / count,
                    ColumnSum(rows, "temperature") / count))
  }

  /** `_compute_averages`: accumulate every column into `total`, then divide by the row count. */
  method ComputeAverages(rows: seq<Row>) returns (averages: Option<Averages>)
    ensures averages == AveragesOf(rows)
  {
    if |rows| == 0 {
      return None;
    }
    var total: map<string, real> := map["cpu" := 0.0, "ram_percent" := 0.0, "disk_percent" := 0.0,
                                        "network_mb_s" := 0.0, "temperature" := 0.0];
    for i := 0 to |rows|
      invariant total.Keys == {"cpu", "ram_percent", "disk_percent", "network_mb_s", "temperature"}
      invariant total["cpu"] == ColumnSum(rows[..i], "cpu")
      invariant total["ram_percent"] == ColumnSum(rows[..i], "ram_percent")
      invariant total["disk_percent"] == ColumnSum(rows[..i], "disk_percent")
      invariant total["network_mb_s"] == ColumnSum(rows[..i], "network_mb_s")
      invariant total["temperature"] == ColumnSum(rows[..i], "temperature")
    {
      assert rows[..i + 1][..i] == rows[..i];
      var r := rows[i];
      total := total["cpu" := total["cpu"] + ToFloat(Cell(r, "cpu"))];
      total := total["ram_percent" := total["ram_percent"] + ToFloat(Cell(r, "ram_percent"))];
      total := total["disk_percent" := total["disk_percent"] + ToFloat(Cell(r, "disk_percent"))];
      total := total["network_mb_s" := total["network_mb_s"] + ToFloat(Cell(r, "network_mb_s"))];
      total := total["temperature" := total["temperature"] + ToFloat(Cell(r, "temperature"))];
    }
    assert rows[..|rows|] == rows;
    var count := |rows| as real;
    averages := Some(Averages(total["cpu"] / count, total["ram_percent"] / count, total["disk_percent"] / count,
                              total["network_mb_s"] / count, total["temperature"] / count));
  }

  lemma {:induction false} RowSumBounds(rows: seq<Row>, f: Row -> real, lo: real, hi: real)
    requires forall i :: 0 <= i < |rows| ==> lo <= f(rows[i]) <= hi
    ensures |rows| as real * lo <= RowSum(rows, f) <= |rows| as real * hi
  {
    if rows != [] {
      var n := |rows| as real;
      RowSumBounds(rows[..|rows| - 1], f, lo, hi);
      assert (n - 1.0) * lo + lo == n * lo && (n - 1.0) * hi + hi == n * hi;
    }
  }

  /** An average lies between the smallest and the largest value read in its column. */
  lemma AverageWithinBounds(rows: seq<Row>, column: string, lo: real, hi: real)
    requires rows != []
    requires forall i :: 0 <= i < |rows| ==> lo <= ToFloat(Cell(rows[i], column)) <= hi
    ensures lo <= ColumnSum(rows, column) / |rows| as real <= hi
  {
    var f := ColumnReader(column);
    forall i | 0 <= i < |rows|
      ensures lo <= f(rows[i]) <= hi
    {
      assert f(rows[i]) == ToFloat(Cell(rows[i], column));
    }
    RowAverageWithinBounds(rows, f, lo, hi);
  }

  lemma RowAverageWithinBounds(rows: seq<Row>, f: Row -> real, lo: real, hi: real)
    requires rows != []
    requires forall i :: 0 <= i < |rows| ==> lo <= f(rows[i]) <= hi
    ensures lo <= RowSum(rows, f) / |rows| as real <= hi
  {
    RowSumBounds(rows, f, lo, hi);
    DivideBetween(RowSum(rows, f), |rows| as real, lo, hi);
  }

  lemma DivideBetween(sum: real, n: real, lo: real, hi: real)
    requires n > 0.0 && n * lo <= sum <= n * hi
    ensures lo <= sum / n <= hi
  {
    var q := sum / n;
    assert q * n == sum;
    assert (q - lo) * n >= 0.0 && (hi - q) * n >= 0.0;
  }

  // ---------------------------------------------------------------------------
  // _filter_rows_by_date
  // ---------------------------------------------------------------------------

  /** A row is kept when its timestamp is present, non-empty, parses, and lies in [start, end]. */
  predicate InRange(row: Row, start: int, end: int) {
    match Cell(row, "timestamp")
    case None => false
    case Some(ts) =>
      ts != "" && match TimeUtils.ParseTimestamp(ts)
        case None => false
        case Some(dt) => start <= TimeUtils.Instant(dt) <= end
  }

  function KeepRow(start: int, end: int): Row -> bool {
    row => InRange(row, start, end)
  }

  /** `_filter_rows_by_date` with the range as instants (see TimeUtils.Instant). */
  method FilterRowsByDate(rows: seq<Row>, start: int, end: int) returns (filtered: seq<Row>)
    ensures filtered == Filter(rows, KeepRow(start, end))
  {
    filtered := [];
    for i := 0 to |rows|
      invariant filtered == Filter(rows[..i], KeepRow(start, end))
    {
      assert rows[..i + 1] == rows[..i] + [rows[i]];
      FilterSnoc(rows[..i], rows[i], KeepRow(start, end));
      var r := rows[i];
      var ts := Cell(r, "timestamp");
      if ts.None? || ts.value == "" {
        continue;
      }
      var dt := TimeUtils.ParseTimestamp(ts.value);
      if dt.None? {
        continue;
      }
      if start <= TimeUtils.Instant(dt.value) <= end {
        filtered := filtered + [r];
      }
    }
    assert rows[..|rows|] == rows;
  }

  /**
   * The filter keeps the rows in their order, keeps exactly the rows whose timestamp parses into
   * the inclusive range, and drops every row with a missing, empty or unparseable timestamp.
   */
  lemma FilterRowsByDateExact(rows: seq<Row>, start: int, end: int)
    ensures IsSubsequence(Filter(rows, KeepRow(start, end)), rows)
    ensures forall i :: 0 <= i < |Filter(rows, KeepRow(start, end))| ==> InRange(Filter(rows, KeepRow(start, end))[i], start, end)
    ensures forall i :: 0 <= i < |rows| && InRange(rows[i], start, end) ==> rows[i] in Filter(rows, KeepRow(start, end))
    ensures forall i :: 0 <= i < |rows| && (Cell(rows[i], "timestamp").None? || Cell(rows[i], "timestamp") == Some("")
                                           || TimeUtils.ParseTimestamp(Cell(rows[i], "timestamp").value).None?)
                        ==> rows[i] !in Filter(rows, KeepRow(start, end))
  {
    FilterIsSubsequence(rows, KeepRow(start, end));
  }

  // ---------------------------------------------------------------------------
  // generate_daily_report (the computed part)
  // ---------------------------------------------------------------------------

  /** The weights the daily report passes to the scorer. */
  const DAILY_WEIGHTS: map<string, real> :=
    map["cpu" := 0.3, "ram" := 0.3, "disk" := 0.25, "network" := 0.1, "temperature" := 0.05]

  /** The analysis the daily report scores: every average under status "normal". */
  function DailyAnalysis(avg: Averages): (items: seq<AnalysisItem>)
    ensures forall i :: 0 <= i < |items| ==> items[i].status == "normal"
  {
    [AnalysisItem("cpu", avg.avgCpu, "normal"), AnalysisItem("ram", avg.avgRam, "normal"),
     AnalysisItem("disk", avg.avgDisk, "normal"), AnalysisItem("network", avg.avgNetwork, "normal"),
     AnalysisItem("temperature", avg.avgTemperature, "normal")]
  }

  /** The daily report's health score, which is 100 whatever the averages are. */
  function DailyHealthScore(avg: Averages): (score: int)
    ensures score == 100
  {
    HealthScore.AllNormalScoresMax(DailyAnalysis(avg), DAILY_WEIGHTS, 0, 100);
    HealthScore.HealthScoreOf(DailyAnalysis(avg), DAILY_WEIGHTS, 0, 100)
  }

  /** What a daily report records: its date, the averages of that day's rows and the score. */
  datatype DailySummary = DailySummary(date: TimeUtils.Date, averages: Averages, healthScore: int)

  /**
   * The computed part of `generate_daily_report` for a log: nothing for an empty log, an
   * unparseable date or a day without rows; otherwise the averages of the rows inside the day.
   */
  function DailyReport(rows: seq<Row>, date: Option<string>, today: TimeUtils.Date): (r: Option<DailySummary>)
    requires TimeUtils.ValidDate(today)
    ensures r.None? <==>
      rows == [] || TimeUtils.ResolveDate(date, today).None?
      || (var day := TimeUtils.Ordinal(TimeUtils.ResolveDate(date, today).value);
          Filter(rows, KeepRow(TimeUtils.DayStart(day), TimeUtils.DayEnd(day))) == [])
    ensures r.Some? ==> r.value.healthScore == 100
    ensures r.Some? ==> TimeUtils.ResolveDate(date, today) == Some(r.value.date)
    ensures r.Some? ==>
      var day := TimeUtils.Ordinal(r.value.date);
      Some(r.value.averages)
        == AveragesOf(Filter(rows, KeepRow(TimeUtils.DayStart(day), TimeUtils.DayEnd(day))))
  {
    if rows == [] then None
    else match TimeUtils.ResolveDate(date, today)
      case None => None
      case Some(reportDate) =>
        var range := TimeUtils.GetDayRange(date, today).value;
        match AveragesOf(Filter(rows, KeepRow(range.0, range.1)))
        case None => None
        case Some(averages) => Some(DailySummary(reportDate, averages, DailyHealthScore(averages)))
  }
}
