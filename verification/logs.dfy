/** Daily mission-log entries and the aggregate score over a collection of them. */
module Logs {

  /** A calendar day as the date picker spells it (year-month-day). Only
      equality of keys matters to the dashboard. */
  type DateKey = string

  /** One daily report: its day, the three category scores, the bonus and a note. */
  datatype LogEntry = LogEntry(
    date: DateKey,
    titan: int,
    oracle: int,
    sage: int,
    bonus: int,
    notes: string)

  /** The data file's promise about an entry: no point field is negative. */
  predicate WellFormed(e: LogEntry) {
    e.titan >= 0 && e.oracle >= 0 && e.sage >= 0 && e.bonus >= 0
  }

  predicate AllWellFormed(logs: seq<LogEntry>) {
    forall i :: 0 <= i < |logs| ==> WellFormed(logs[i])
  }

  /** The points one day contributes: its three categories plus the bonus. */
  function DailyTotal(e: LogEntry): int {
    e.titan + e.oracle + e.sage + e.bonus
  }

  /** The cumulative score, accumulated over the collection from first to
      last. Reports that respect the data file's promise never make it
      negative, so the rank calculator is only asked about scores >= 0. */
  function TotalScore(logs: seq<LogEntry>): (total: int)
    ensures AllWellFormed(logs) ==> total >= 0
    decreases |logs|
  {
    if |logs| == 0 then 0
    else
      var prefix := logs[..|logs| - 1];
      assert AllWellFormed(logs) ==> AllWellFormed(prefix) && WellFormed(logs[|logs| - 1]);
      TotalScore(prefix) + DailyTotal(logs[|logs| - 1])
  }

  /** The four point categories, in the order the daily panel lists them. */
  datatype Category = Titan | Oracle | Sage | Bonus

  function Points(e: LogEntry, c: Category): int {
    match c
    case Titan => e.titan
    case Oracle => e.oracle
    case Sage => e.sage
    case Bonus => e.bonus
  }

  /** Column sum: the total of one category over the whole collection. */
  function SumCategory(logs: seq<LogEntry>, c: Category): int
    decreases |logs|
  {
    if |logs| == 0 then 0 else Points(logs[0], c) + SumCategory(logs[1..], c)
  }

  /** Appending a day's report raises the total by exactly that day's points. */
  lemma TotalAppend(logs: seq<LogEntry>, e: LogEntry)
    ensures TotalScore(logs + [e]) == TotalScore(logs) + DailyTotal(e)
  {
    assert (logs + [e])[..|logs|] == logs;
  }

  lemma {:induction false} TotalConcat(a: seq<LogEntry>, b: seq<LogEntry>)
    ensures TotalScore(a + b) == TotalScore(a) + TotalScore(b)
    decreases |b|
  {
    if |b| == 0 {
      assert a + b == a;
    } else {
      var b' := b[..|b| - 1];
      assert a + b == (a + b') + [b[|b| - 1]];
      assert b == b' + [b[|b| - 1]];
      TotalConcat(a, b');
      TotalAppend(a + b', b[|b| - 1]);
      TotalAppend(b', b[|b| - 1]);
    }
  }

  /** The total is the sum of the four point fields over every log, whatever
      order the additions are grouped in: it equals the four column sums. */
  lemma {:induction false} TotalIsColumnSums(logs: seq<LogEntry>)
    ensures TotalScore(logs) ==
      SumCategory(logs, Titan) + SumCategory(logs, Oracle)
      + SumCategory(logs, Sage) + SumCategory(logs, Bonus)
    decreases |logs|
  {
    if |logs| > 0 {
      var rest := logs[1..];
      TotalIsColumnSums(rest);
      assert logs == [logs[0]] + rest;
      TotalConcat([logs[0]], rest);
      assert [logs[0]][..0] == [];
    }
  }

  /** The aggregation loop: a running total updated once per log, in
      collection order, starting from zero. */
  method SumScores(logs: seq<LogEntry>) returns (total: int)
    ensures total == TotalScore(logs)
  {
    total := 0;
    var i := 0;
    while i < |logs|
      invariant 0 <= i <= |logs|
      invariant total == TotalScore(logs[..i])
    {
      TotalAppend(logs[..i], logs[i]);
      assert logs[..i] + [logs[i]] == logs[..i + 1];
      total := total + DailyTotal(logs[i]);
      i := i + 1;
    }
    assert logs[..|logs|] == logs;
  }
}
