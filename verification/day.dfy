/** The day selector: looking up the report for a picked day and the per-day
    panel (five numeric fields, the headquarters message and the doughnut)
    that results from it. */
module DaySelector {
  import opened Wrappers
  import opened Logs
  import Charts

  /** The first position whose report is for `day`, scanning from the front
      as `Array.prototype.find` does; None when no report matches. */
  function FindFirst(logs: seq<LogEntry>, day: DateKey): (r: Option<nat>)
    ensures r.Some? ==> r.value < |logs| && logs[r.value].date == day
    ensures r.Some? ==> forall j :: 0 <= j < r.value ==> logs[j].date != day
    ensures r.None? ==> forall j :: 0 <= j < |logs| ==> logs[j].date != day
    decreases |logs|
  {
    if |logs| == 0 then None
    else if logs[0].date == day then Some(0)
    else match FindFirst(logs[1..], day)
      case None => None
      case Some(i) => Some(i + 1)
  }

  /** The report shown for a picked day, if there is one. */
  function Lookup(logs: seq<LogEntry>, day: DateKey): (r: Option<LogEntry>)
    ensures r.Some? ==> r.value in logs && r.value.date == day
    ensures r.Some? ==>
      exists k :: 0 <= k < |logs| && logs[k] == r.value && forall j :: 0 <= j < k ==> logs[j].date != day
    ensures r.None? <==> forall e :: e in logs ==> e.date != day
  {
    match FindFirst(logs, day)
    case Some(i) => Some(logs[i])
    case None => None
  }

  /** Dates are unique within a collection. */
  predicate UniqueDates(logs: seq<LogEntry>) {
    forall i, j :: 0 <= i < j < |logs| ==> logs[i].date != logs[j].date
  }

  /** With unique dates, picking a report's own day finds that very report. */
  lemma LookupFindsOwnDay(logs: seq<LogEntry>, k: nat)
    requires UniqueDates(logs) && k < |logs|
    ensures Lookup(logs, logs[k].date) == Some(logs[k])
  {
    assert FindFirst(logs, logs[k].date) == Some(k);
  }

  /** A numeric field of the panel: a number, or the placeholder "-". */
  datatype Field = Number(n: int) | Dash

  const NoReportMessage: string := "No mission report found for this day."

  /** The per-day panel. `hqDate` None is the "N/A" text; `chart` is the
      doughnut currently drawn, None when there is none. */
  datatype DayPanel = DayPanel(
    shownDate: DateKey,
    hqDate: Option<DateKey>,
    titan: Field,
    oracle: Field,
    sage: Field,
    bonus: Field,
    total: Field,
    message: string,
    chart: Option<seq<Charts.Segment>>)

  /** The panel for a found report: its four points, their sum, its note and
      its doughnut, all telling the same story about that report's day. */
  function ShowReport(e: LogEntry): (p: DayPanel)
    ensures Consistent(p)
    ensures p.shownDate == e.date && p.hqDate == Some(e.date) && p.message == e.notes
    ensures p.total == Number(DailyTotal(e))
  {
    Charts.BreakdownMatchesTotal(e);
    DayPanel(e.date, Some(e.date),
      Number(e.titan), Number(e.oracle), Number(e.sage), Number(e.bonus),
      Number(DailyTotal(e)), e.notes, Some(Charts.Breakdown(e)))
  }

  /** The panel for a day without a report, as the code clears it: every
      numeric field becomes "-" and the no-report message is shown, but the
      chart it tries to destroy is looked up as a property of the window,
      where it never lives, so whatever doughnut was drawn stays. */
  function ClearAsWritten(prev: DayPanel, day: DateKey): (p: DayPanel)
    ensures p.shownDate == day && p.total == Dash && p.message == NoReportMessage
    ensures p.chart == prev.chart && p.(chart := None) == Clear(day)
    ensures Consistent(p) <==> prev.chart.None?
  {
    DayPanel(day, None, Dash, Dash, Dash, Dash, Dash, NoReportMessage, prev.chart)
  }

  /** The intended clearing: the same placeholders, and no doughnut. */
  function Clear(day: DateKey): (p: DayPanel)
    ensures Consistent(p) && p.chart.None?
    ensures p.shownDate == day && p.hqDate == None && p.total == Dash && p.message == NoReportMessage
  {
    DayPanel(day, None, Dash, Dash, Dash, Dash, Dash, NoReportMessage, None)
  }

  /** Picking a day, as written: the panel may keep a stale doughnut. It is
      consistent exactly when the day has a report or no doughnut was drawn
      before. */
  function SelectAsWritten(prev: DayPanel, logs: seq<LogEntry>, day: DateKey): (p: DayPanel)
    ensures p.shownDate == day
    ensures Consistent(p) <==> Lookup(logs, day).Some? || prev.chart.None?
  {
    match Lookup(logs, day)
    case Some(e) => ShowReport(e)
    case None => ClearAsWritten(prev, day)
  }

  /** Picking a day, corrected: the panel depends only on the collection and
      the picked day. */
  function Select(logs: seq<LogEntry>, day: DateKey): (p: DayPanel)
    ensures Consistent(p) && p.shownDate == day
    ensures p.chart.None? <==> Lookup(logs, day).None?
  {
    match Lookup(logs, day)
    case Some(e) => ShowReport(e)
    case None => Clear(day)
  }

  /** The panel tells one story: either no doughnut and every numeric field
      "-", or a doughnut of TITAN, ORACLE, SAGE and Bonus whose segments are
      the four numbers shown and whose sum is the total shown. */
  predicate Consistent(p: DayPanel) {
    match p.chart
    case None =>
      p.titan == Dash && p.oracle == Dash && p.sage == Dash && p.bonus == Dash && p.total == Dash
    case Some(segs) =>
      && |segs| == 4
      && segs[0].name == "TITAN" && segs[1].name == "ORACLE"
      && segs[2].name == "SAGE" && segs[3].name == "Bonus"
      && p.titan == Number(segs[0].value) && p.oracle == Number(segs[1].value)
      && p.sage == Number(segs[2].value) && p.bonus == Number(segs[3].value)
      && p.total == Number(Charts.SumValues(segs))
  }

  /** A found report is shown field by field; a miss shows the placeholders
      and the no-report message; either way the panel is consistent and
      names the picked day. */
  lemma SelectShows(logs: seq<LogEntry>, day: DateKey)
    ensures Consistent(Select(logs, day))
    ensures Select(logs, day).shownDate == day
    ensures Lookup(logs, day).Some? ==>
      var e := Lookup(logs, day).value;
      var p := Select(logs, day);
      && p.titan == Number(e.titan) && p.oracle == Number(e.oracle)
      && p.sage == Number(e.sage) && p.bonus == Number(e.bonus)
      && p.total == Number(e.titan + e.oracle + e.sage + e.bonus)
      && p.message == e.notes && p.hqDate == Some(day)
    ensures Lookup(logs, day).None? ==>
      var p := Select(logs, day);
      && p.titan == Dash && p.oracle == Dash && p.sage == Dash && p.bonus == Dash && p.total == Dash
      && p.message == NoReportMessage && p.hqDate == None && p.chart == None
  {
  }

  /** Picking the same day twice shows the same panel both times, even in
      the as-written version whose result depends on the previous panel. */
  lemma SelectIdempotent(prev: DayPanel, logs: seq<LogEntry>, day: DateKey)
    ensures SelectAsWritten(SelectAsWritten(prev, logs, day), logs, day) == SelectAsWritten(prev, logs, day)
  {
  }

  /** The two versions differ only in the doughnut after a miss. */
  lemma SelectAsWrittenDiffersOnlyInChart(prev: DayPanel, logs: seq<LogEntry>, day: DateKey)
    ensures SelectAsWritten(prev, logs, day).(chart := None) == Select(logs, day).(chart := None)
    ensures Lookup(logs, day).Some? ==> SelectAsWritten(prev, logs, day) == Select(logs, day)
  {
  }

  /** The stale doughnut: with reports for the first and third of January,
      show the third, then pick the second, a day inside the picker's range
      that has no report. The fields read "-" but the third's doughnut is
      still drawn. */
  lemma StaleChartAfterMiss()
    ensures
      var a := LogEntry("2024-01-01", 10, 5, 5, 0, "ok");
      var c := LogEntry("2024-01-03", 20, 0, 5, 5, "good");
      var shown := SelectAsWritten(Clear("2024-01-03"), [a, c], "2024-01-03");
      var after := SelectAsWritten(shown, [a, c], "2024-01-02");
      && Consistent(shown)
      && after.total == Dash
      && after.chart == Some(Charts.Breakdown(c))
      && !Consistent(after)
      && Consistent(Select([a, c], "2024-01-02"))
  {
    var a := LogEntry("2024-01-01", 10, 5, 5, 0, "ok");
    var c := LogEntry("2024-01-03", 20, 0, 5, 5, "good");
    assert "2024-01-01" != "2024-01-03" by {
      assert "2024-01-01"[9] != "2024-01-03"[9];
    }
    assert "2024-01-01" != "2024-01-02" by {
      assert "2024-01-01"[9] != "2024-01-02"[9];
    }
    assert "2024-01-03" != "2024-01-02" by {
      assert "2024-01-03"[9] != "2024-01-02"[9];
    }
    assert FindFirst([a, c], "2024-01-03") == Some(1) by {
      assert [a, c][1..] == [c];
    }
    assert Lookup([a, c], "2024-01-03") == Some(c);
    assert Lookup([a, c], "2024-01-02") == None;
  }
}
