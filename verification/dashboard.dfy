/** The dashboard as a whole: what the page shows after the data file is
    fetched (or fails to be), and how a date-picker change updates it. The
    loaded collection is an explicit value instead of a page-wide variable. */
module Dashboard {
  import opened Wrappers
  import opened Logs
  import Rank
  import Charts
  import History
  import DaySelector

  /** The data file: a `logs` field that may be absent. */
  datatype Document = Document(logs: Option<seq<LogEntry>>)

  /** The outcome of the fetch: a network failure, a bad status or a payload
      that is not JSON all end as Failed. */
  datatype FetchOutcome = Failed | Fetched(doc: Document)

  /** An absent `logs` field reads as an empty collection. */
  function LogsOf(doc: Document): (r: seq<LogEntry>)
    ensures |r| == 0 <==> doc.logs.None? || doc.logs == Some([])
    ensures |r| > 0 ==> doc.logs == Some(r)
  {
    doc.logs.GetOr([])
  }

  /** The date picker: its bounds, its current value, and whether a change
      handler was installed on it. */
  datatype DatePicker = DatePicker(
    earliest: Option<DateKey>,
    latest: Option<DateKey>,
    value: DateKey,
    listening: bool)

  /** What the page shows. ConnectionLost is the error state (rank "Error",
      status "Connection Lost"; the picker is never set up there and is not
      modelled); NoMissions is the empty state ("No missions
      logged yet."), which carries no rank, total or charts; Ready is the
      populated dashboard. */
  datatype Screen =
    | ConnectionLost
    | NoMissions(picker: DatePicker)
    | Ready(
        logs: seq<LogEntry>,
        rank: Rank.RankView,
        total: int,
        lastSynced: DateKey,
        history: seq<History.Bar>,
        picker: DatePicker,
        day: DaySelector.DayPanel)

  /** Setting up the picker. Without reports it shows today (the clock is a
      parameter) and gets no bounds and no handler; otherwise it spans the
      first to the last report and starts on the last. */
  function InitDateSelector(logs: seq<LogEntry>, today: DateKey): (p: DatePicker)
    ensures p.listening <==> |logs| > 0
    ensures |logs| > 0 ==> p.earliest == Some(logs[0].date) && p.latest == Some(logs[|logs| - 1].date)
    ensures |logs| > 0 ==> p.value == logs[|logs| - 1].date
    ensures |logs| == 0 ==> p.earliest.None? && p.latest.None? && p.value == today
  {
    if |logs| == 0 then DatePicker(None, None, today, false)
    else DatePicker(Some(logs[0].date), Some(logs[|logs| - 1].date), logs[|logs| - 1].date, true)
  }

  /** The day the picker starts on always has a report, and with unique
      dates that report is the last one, the one the panel shows first. */
  lemma InitialDayHasReport(logs: seq<LogEntry>, today: DateKey)
    requires |logs| > 0
    ensures DaySelector.Lookup(logs, InitDateSelector(logs, today).value).Some?
    ensures DaySelector.UniqueDates(logs) ==>
      DaySelector.Lookup(logs, InitDateSelector(logs, today).value) == Some(logs[|logs| - 1])
  {
    assert logs[|logs| - 1] in logs;
    if DaySelector.UniqueDates(logs) {
      DaySelector.LookupFindsOwnDay(logs, |logs| - 1);
    }
  }

  /** The figures a populated dashboard keeps whatever day is picked: they
      are those of its collection, and its picker spans the collection and
      names the day shown. */
  predicate FiguresInvariant(s: Screen)
    requires s.Ready?
  {
    && |s.logs| > 0
    && s.total == TotalScore(s.logs)
    && s.rank == Rank.GetRank(s.total)
    && s.lastSynced == s.logs[|s.logs| - 1].date
    && s.history == History.HistorySeries(s.logs)
    && s.picker.listening
    && s.picker.earliest == Some(s.logs[0].date)
    && s.picker.latest == Some(s.logs[|s.logs| - 1].date)
    && s.day.shownDate == s.picker.value
  }

  /** The day panel comes from the collection: a drawn doughnut belongs to a
      report of the collection on the picked day, shown in full, and without
      a doughnut the panel is the cleared one for the picked day. */
  predicate PanelFromLogs(s: Screen)
    requires s.Ready?
  {
    && (s.day.chart.Some? ==>
      exists e :: e in s.logs && e.date == s.picker.value && s.day == DaySelector.ShowReport(e))
    && (s.day.chart.None? ==> s.day == DaySelector.Clear(s.picker.value))
  }

  /** The figures, and a day panel taken from the collection whose doughnut
      agrees with its numbers. The consistency conjunct follows from
      `PanelFromLogs`, since a shown report and a cleared panel are both
      consistent; it is spelled out because the as-written handler breaks
      exactly that part. */
  predicate ReadyInvariant(s: Screen)
    requires s.Ready?
  {
    FiguresInvariant(s) && DaySelector.Consistent(s.day) && PanelFromLogs(s)
  }

  /** The populated dashboard for a non-empty collection: total and rank,
      the latest report as "last synced", the history bars, and the latest
      report in the day panel with the picker on its day. */
  function ProcessOverallData(logs: seq<LogEntry>, today: DateKey): (s: Screen)
    requires |logs| > 0
    ensures s.Ready? && s.logs == logs && ReadyInvariant(s)
    ensures s.day == DaySelector.ShowReport(logs[|logs| - 1])
    ensures s.picker.value == logs[|logs| - 1].date
  {
    var total := TotalScore(logs);
    var latest := logs[|logs| - 1];
    assert latest in logs;
    Ready(logs, Rank.GetRank(total), total, latest.date, History.HistorySeries(logs),
      InitDateSelector(logs, today), DaySelector.ShowReport(latest))
  }

  /** Loading the page: failure and emptiness are decided before any
      aggregation, so the rank is computed only for a non-empty collection. */
  function Load(outcome: FetchOutcome, today: DateKey): (s: Screen)
    ensures s.ConnectionLost? <==> outcome.Failed?
    ensures s.NoMissions? <==> outcome.Fetched? && |LogsOf(outcome.doc)| == 0
    ensures s.NoMissions? ==> !s.picker.listening && s.picker.value == today
    ensures s.Ready? ==> outcome.Fetched? && s.logs == LogsOf(outcome.doc) && |s.logs| > 0
  {
    match outcome
    case Failed => ConnectionLost
    case Fetched(doc) =>
      var logs := LogsOf(doc);
      if |logs| == 0 then NoMissions(InitDateSelector(logs, today))
      else ProcessOverallData(logs, today)
  }

  /** Picking a day in the date picker, as the page does it. The browser
      moves the picker's value in every state that has a picker; only a
      populated dashboard has the change handler, which redraws the day
      panel. On a miss the handler clears the numbers but leaves the drawn
      doughnut in place. Nothing else changes. */
  function OnDateChange(s: Screen, day: DateKey): (s': Screen)
    ensures s.ConnectionLost? ==> s' == s
    ensures s.NoMissions? ==> s' == NoMissions(s.picker.(value := day))
    ensures s.Ready? ==> s'.Ready? && s' == s.(picker := s.picker.(value := day), day := s'.day)
    ensures s.Ready? ==> s'.day.shownDate == day
    ensures s.Ready? && DaySelector.Lookup(s.logs, day).Some? ==>
      s'.day == DaySelector.ShowReport(DaySelector.Lookup(s.logs, day).value)
    ensures s.Ready? && DaySelector.Lookup(s.logs, day).None? ==>
      s'.day.chart == s.day.chart && s'.day.(chart := None) == DaySelector.Clear(day)
  {
    match s
    case ConnectionLost => s
    case NoMissions(p) => NoMissions(p.(value := day))
    case Ready(_, _, _, _, _, _, _) =>
      s.(picker := s.picker.(value := day), day := DaySelector.SelectAsWritten(s.day, s.logs, day))
  }

  /** The same event with the intended clearing: on a miss the doughnut is
      removed along with the numbers. */
  function OnDateChangeCorrected(s: Screen, day: DateKey): (s': Screen)
    ensures s.ConnectionLost? ==> s' == s
    ensures s.NoMissions? ==> s' == NoMissions(s.picker.(value := day))
    ensures s.Ready? ==> s'.Ready? && s' == s.(picker := s.picker.(value := day), day := s'.day)
    ensures s.Ready? ==> s'.day.shownDate == day && DaySelector.Consistent(s'.day)
    ensures s.Ready? && DaySelector.Lookup(s.logs, day).Some? ==>
      s'.day == DaySelector.ShowReport(DaySelector.Lookup(s.logs, day).value)
    ensures s.Ready? && DaySelector.Lookup(s.logs, day).None? ==> s'.day == DaySelector.Clear(day)
  {
    match s
    case ConnectionLost => s
    case NoMissions(p) => NoMissions(p.(value := day))
    case Ready(_, _, _, _, _, _, _) =>
      s.(picker := s.picker.(value := day), day := DaySelector.Select(s.logs, day))
  }

  /** A successful load yields a screen that keeps the invariant, showing
      the last report with the picker on its day. */
  lemma LoadEstablishesInvariant(outcome: FetchOutcome, today: DateKey)
    ensures var s := Load(outcome, today);
      s.Ready? ==>
        && ReadyInvariant(s)
        && s.day == DaySelector.ShowReport(s.logs[|s.logs| - 1])
        && s.picker.value == s.logs[|s.logs| - 1].date
  {
  }

  /** The page's own handler keeps the figures through any date change, and
      keeps the panel consistent when the day has a report or no doughnut
      was drawn. */
  lemma DateChangeKeepsFigures(s: Screen, day: DateKey)
    requires s.Ready? && FiguresInvariant(s)
    ensures FiguresInvariant(OnDateChange(s, day))
    ensures DaySelector.Consistent(OnDateChange(s, day).day) <==>
      DaySelector.Lookup(s.logs, day).Some? || s.day.chart.None?
  {
  }

  /** With the intended clearing, every date change keeps the whole invariant. */
  lemma DateChangePreservesInvariant(s: Screen, day: DateKey)
    requires s.Ready? && ReadyInvariant(s)
    ensures ReadyInvariant(OnDateChangeCorrected(s, day))
  {
    DaySelector.SelectShows(s.logs, day);
  }

  /** As written, the invariant does not survive a miss right after the
      load: for any collection and any day without a report, the loaded
      report's doughnut stays beside "-" fields, while the corrected clearing
      keeps the invariant. */
  lemma DateChangeBreaksInvariant(logs: seq<LogEntry>, day: DateKey, today: DateKey)
    requires |logs| > 0
    requires forall e :: e in logs ==> e.date != day
    ensures
      var s := Load(Fetched(Document(Some(logs))), today);
      && s.Ready? && ReadyInvariant(s)
      && !ReadyInvariant(OnDateChange(s, day))
      && ReadyInvariant(OnDateChangeCorrected(s, day))
  {
    var s := ProcessOverallData(logs, today);
    LoadNonEmpty(logs, today);
    var after := OnDateChange(s, day);
    assert after.day.chart == s.day.chart;
    DateChangePreservesInvariant(s, day);
  }

  /** For a collection of well-formed reports, the rank shown is the highest
      tier whose threshold the total reaches, and the progress is a
      percentage that is 100 exactly at the top tier. */
  lemma ReadyRankSound(s: Screen)
    requires s.Ready? && FiguresInvariant(s) && AllWellFormed(s.logs)
    ensures s.total >= 0
    ensures var t := Rank.TierOf(s.total);
      && s.rank.name == Rank.Name(t)
      && Rank.Data(t).threshold <= s.total
      && (t == Rank.Commander || s.total < Rank.Data(t).next.value)
    ensures 0.0 <= s.rank.progress <= 100.0
    ensures s.rank.progress == 100.0 <==> s.rank.name == "COMMANDER"
  {
    Rank.GetRankSound(s.total);
  }

  /** After loading, picking the day already shown redraws the same panel,
      with the page's handler and the corrected one alike, provided report
      dates are unique. */
  lemma ReselectLatestIsStable(outcome: FetchOutcome, today: DateKey)
    requires outcome.Fetched? && DaySelector.UniqueDates(LogsOf(outcome.doc))
    ensures var s := Load(outcome, today);
      s.Ready? ==> OnDateChange(s, s.lastSynced) == s && OnDateChangeCorrected(s, s.lastSynced) == s
  {
    var s := Load(outcome, today);
    if s.Ready? {
      DaySelector.LookupFindsOwnDay(s.logs, |s.logs| - 1);
    }
  }

  /** The empty scenario: an absent or empty `logs` field gives the empty
      state, and a date change there only moves the picker. */
  lemma EmptyScenario(today: DateKey, day: DateKey)
    ensures Load(Fetched(Document(None)), today) == NoMissions(DatePicker(None, None, today, false))
    ensures Load(Fetched(Document(Some([]))), today) == NoMissions(DatePicker(None, None, today, false))
    ensures OnDateChange(Load(Fetched(Document(None)), today), day) == NoMissions(DatePicker(None, None, day, false))
  {
  }

  lemma LoadNonEmpty(logs: seq<LogEntry>, today: DateKey)
    requires |logs| > 0
    ensures Load(Fetched(Document(Some(logs))), today) == ProcessOverallData(logs, today)
  {
    assert LogsOf(Document(Some(logs))) == logs;
  }

  /** Loading a single report: its total is the score, the rank is computed
      from it, and the history is one bar for that day. */
  lemma LoadOneReport(e: LogEntry, today: DateKey)
    ensures
      var s := Load(Fetched(Document(Some([e]))), today);
      && s.Ready?
      && s.total == DailyTotal(e)
      && s.rank == Rank.GetRank(DailyTotal(e))
      && s.history == [History.Bar(e.date, DailyTotal(e))]
  {
    LoadNonEmpty([e], today);
    assert TotalScore([e]) == DailyTotal(e) by {
      Logs.TotalAppend([], e);
      assert [] + [e] == [e];
    }
    History.SingleDayHistory(e);
  }

  /** The one-report scenario: total 20, rank RECRUIT, one bar worth 20. */
  lemma SingleReportScenario(today: DateKey)
    ensures
      var e := LogEntry("2024-01-01", 10, 5, 5, 0, "ok");
      var s := Load(Fetched(Document(Some([e]))), today);
      && s.Ready?
      && s.total == 20
      && s.rank.name == "RECRUIT"
      && s.history == [History.Bar("2024-01-01", 20)]
  {
    var e := LogEntry("2024-01-01", 10, 5, 5, 0, "ok");
    LoadOneReport(e, today);
    assert DailyTotal(e) == 20;
    assert Rank.TierOf(20) == Rank.Recruit;
  }
}
