/** The data the history bar chart is given: the most recent daily totals. */
module History {
  import opened Logs

  /** JavaScript's `Array.prototype.slice(start)`: a negative start counts
      back from the end and is clamped to the front. */
  function SliceFrom<T>(s: seq<T>, start: int): (r: seq<T>)
    ensures |r| <= |s| && r == s[|s| - |r|..]
    ensures start < 0 ==> |r| == if -start <= |s| then -start else |s|
    ensures start >= 0 ==> |r| == if start <= |s| then |s| - start else 0
  {
    if start < 0 then
      (if |s| + start < 0 then s else s[|s| + start..])
    else if start > |s| then []
    else s[start..]
  }

  /** How many recent days the bar chart covers. */
  const HistoryWindow: int := 7

  /** One bar: the day it stands for and that day's total. */
  datatype Bar = Bar(day: DateKey, total: int)

  function BarOf(e: LogEntry): Bar {
    Bar(e.date, DailyTotal(e))
  }

  /** The bar series: the last (at most seven) reports in collection order,
      each shown as its daily total. No empty days are padded in. */
  function HistorySeries(logs: seq<LogEntry>): (r: seq<Bar>)
    ensures |r| == if |logs| < HistoryWindow then |logs| else HistoryWindow
    ensures forall i :: 0 <= i < |r| ==> r[i] == BarOf(logs[|logs| - |r| + i])
  {
    var recent := SliceFrom(logs, -HistoryWindow);
    seq(|recent|, i requires 0 <= i < |recent| => BarOf(recent[i]))
  }

  /** The loop that fills the chart's label and value arrays, one push per
      report of `logs.slice(-7)`: it produces the bar series, split into
      its days and its totals. */
  method HistoryArrays(logs: seq<LogEntry>) returns (days: seq<DateKey>, totals: seq<int>)
    ensures |days| == |totals| == |HistorySeries(logs)|
    ensures forall i :: 0 <= i < |days| ==> days[i] == HistorySeries(logs)[i].day
    ensures forall i :: 0 <= i < |totals| ==> totals[i] == HistorySeries(logs)[i].total
  {
    var recent := SliceFrom(logs, -HistoryWindow);
    days, totals := PushBars(recent);
    RecentBars(logs);
  }

  /** One label push and one value push per report, in order. */
  method PushBars(recent: seq<LogEntry>) returns (days: seq<DateKey>, totals: seq<int>)
    ensures |days| == |totals| == |recent|
    ensures forall j :: 0 <= j < |recent| ==> days[j] == recent[j].date
    ensures forall j :: 0 <= j < |recent| ==> totals[j] == DailyTotal(recent[j])
  {
    days := [];
    totals := [];
    var i := 0;
    while i < |recent|
      invariant 0 <= i <= |recent|
      invariant |days| == |totals| == i
      invariant forall j :: 0 <= j < i ==> days[j] == recent[j].date
      invariant forall j :: 0 <= j < i ==> totals[j] == DailyTotal(recent[j])
    {
      var e := recent[i];
      days := days + [e.date];
      totals := totals + [DailyTotal(e)];
      i := i + 1;
    }
  }

  /** The bar series is the recent slice, bar by bar. */
  lemma RecentBars(logs: seq<LogEntry>)
    ensures var recent := SliceFrom(logs, -HistoryWindow);
      && |HistorySeries(logs)| == |recent|
      && forall j :: 0 <= j < |recent| ==> HistorySeries(logs)[j] == BarOf(recent[j])
  {
  }

  /** A new report slides the window: its bar is appended at the end, and the
      oldest bar drops out once the window is full. */
  lemma HistorySlides(logs: seq<LogEntry>, e: LogEntry)
    ensures var h := HistorySeries(logs);
      HistorySeries(logs + [e]) ==
        (if |logs| < HistoryWindow then h else h[1..]) + [BarOf(e)]
  {
    var h := HistorySeries(logs);
    var h' := HistorySeries(logs + [e]);
    var expected := (if |logs| < HistoryWindow then h else h[1..]) + [BarOf(e)];
    assert |h'| == |expected|;
    forall i | 0 <= i < |h'|
      ensures h'[i] == expected[i]
    {
      if i < |h'| - 1 {
        assert (logs + [e])[|logs| + 1 - |h'| + i] == logs[|logs| + 1 - |h'| + i];
      }
    }
  }

  /** The one-report scenario: a single bar for that day with its total. */
  lemma SingleDayHistory(e: LogEntry)
    ensures HistorySeries([e]) == [Bar(e.date, DailyTotal(e))]
  {
    var h := HistorySeries([e]);
    assert |h| == 1;
    assert h[0] == BarOf([e][0]);
  }
}
