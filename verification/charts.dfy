/** The data the per-day doughnut chart is given. */
module Charts {
  import opened Logs

  /** One labelled doughnut segment. */
  datatype Segment = Segment(name: string, value: int)

  /** The doughnut's segments in their fixed order. */
  const Categories: seq<Category> := [Titan, Oracle, Sage, Bonus]

  function CategoryName(c: Category): string {
    match c
    case Titan => "TITAN"
    case Oracle => "ORACLE"
    case Sage => "SAGE"
    case Bonus => "Bonus"
  }

  /** The doughnut data for one report: one segment per category, in the
      fixed order TITAN, ORACLE, SAGE, Bonus, each with the report's points. */
  function Breakdown(e: LogEntry): (r: seq<Segment>)
    ensures r ==
      [Segment("TITAN", e.titan), Segment("ORACLE", e.oracle), Segment("SAGE", e.sage), Segment("Bonus", e.bonus)]
  {
    seq(|Categories|, i requires 0 <= i < |Categories| =>
      Segment(CategoryName(Categories[i]), Points(e, Categories[i])))
  }

  function SumValues(s: seq<Segment>): int
    decreases |s|
  {
    if |s| == 0 then 0 else s[0].value + SumValues(s[1..])
  }

  /** The segments add up to the daily total the panel prints beside them. */
  lemma BreakdownMatchesTotal(e: LogEntry)
    ensures SumValues(Breakdown(e)) == DailyTotal(e)
  {
    var b := Breakdown(e);
    assert b[1..][1..][1..][1..] == [];
    assert SumValues(b[1..][1..][1..]) == e.bonus;
    assert SumValues(b[1..][1..]) == e.sage + e.bonus;
    assert SumValues(b[1..]) == e.oracle + e.sage + e.bonus;
  }

  /** The breakdown loses no information about the points: two entries with
      the same doughnut have the same four point fields. */
  lemma BreakdownDeterminesPoints(e1: LogEntry, e2: LogEntry)
    requires Breakdown(e1) == Breakdown(e2)
    ensures e1.titan == e2.titan && e1.oracle == e2.oracle
    ensures e1.sage == e2.sage && e1.bonus == e2.bonus
  {
  }
}
