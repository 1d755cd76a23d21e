/** The rank calculator: which tier a cumulative score has reached, how far it
    is towards the next one, and the text of the progress label. */
module Rank {
  import opened Wrappers
  import Decimal

  datatype Tier = Recruit | Operative | Specialist | Commander

  /** The rank table in declaration order. A tier's successor is whatever
      follows it here, exactly as the dashboard looks it up by key position. */
  const Order: seq<Tier> := [Recruit, Operative, Specialist, Commander]

  /** One row of the rank table. `next` is the threshold the progress bar
      aims at; None stands for the top tier's unbounded (infinite) target.
      Colour and glyph are carried as uninterpreted display data. */
  datatype TierData = TierData(threshold: int, next: Option<int>, color: string, icon: string)

  function Data(t: Tier): TierData {
    match t
    case Recruit => TierData(0, Some(250), "var(--rank-recruit)", "\U{25CF}")
    case Operative => TierData(250, Some(600), "var(--rank-operative)", "\U{25C6}")
    case Specialist => TierData(600, Some(1200), "var(--rank-specialist)", "\U{2605}")
    case Commander => TierData(1200, None, "var(--rank-commander)", "\U{272A}")
  }

  function Name(t: Tier): string {
    match t
    case Recruit => "RECRUIT"
    case Operative => "OPERATIVE"
    case Specialist => "SPECIALIST"
    case Commander => "COMMANDER"
  }

  /** The name the dashboard uses when there is no next tier. */
  const MaxName: string := "MAX"

  const MaxLabel: string := "MAXIMUM RANK ACHIEVED"

  /** Where a tier sits in declaration order. */
  function Position(t: Tier): (i: nat)
    ensures i < |Order| && Order[i] == t
  {
    match t
    case Recruit => 0
    case Operative => 1
    case Specialist => 2
    case Commander => 3
  }

  /** The step function: test the thresholds from the top tier down and take
      the first one the score reaches, falling back to the bottom tier. The
      result is the highest tier whose threshold the score reaches, and the
      score has not yet reached the next threshold. */
  function TierOf(score: int): (t: Tier)
    ensures score >= 0 ==> Data(t).threshold <= score
    ensures Data(t).next.Some? ==> score < Data(t).next.value
    ensures forall u :: Data(u).threshold <= score ==> Position(u) <= Position(t)
  {
    if score >= Data(Commander).threshold then Commander
    else if score >= Data(Specialist).threshold then Specialist
    else if score >= Data(Operative).threshold then Operative
    else Recruit
  }

  /** The tier after `t` in declaration order, or None past the end. */
  function Successor(t: Tier): Option<Tier> {
    var i := Position(t) + 1;
    if i < |Order| then Some(Order[i]) else None
  }

  /** The name shown as the next target: the successor's name, or MAX past
      the top tier. */
  function NextName(t: Tier): (s: string)
    ensures s == MaxName <==> t == Commander
    ensures t != Commander ==> s == Name(Order[Position(t) + 1])
  {
    match Successor(t)
    case Some(n) => Name(n)
    case None => MaxName
  }

  function Min(a: real, b: real): real {
    if a <= b then a else b
  }

  /** `p` is the share, in percent, of the current tier's span that the
      score covers: (score - threshold) / (next - threshold) * 100, stated
      without division. Meaningful only below the top tier. */
  ghost predicate ShareOfSpan(p: real, score: int)
    requires TierOf(score) != Commander
  {
    var d := Data(TierOf(score));
    p * (d.next.value - d.threshold) as real == (score - d.threshold) as real * 100.0
  }

  /** Progress towards the next tier, in percent: the share of the current
      tier's span already covered, capped at 100, and exactly 100 when the
      next threshold is unbounded. The cap is never what gives 100: below
      the top tier the score is short of the next threshold, so the value
      there is the uncapped share. */
  function Progress(score: int): (p: real)
    ensures score >= 0 ==> 0.0 <= p <= 100.0
    ensures p == 100.0 <==> TierOf(score) == Commander
    ensures TierOf(score) != Commander ==> ShareOfSpan(p, score)
  {
    var d := Data(TierOf(score));
    match d.next
    case None => 100.0
    case Some(n) =>
      var covered := (score - d.threshold) as real;
      var span := (n - d.threshold) as real;
      RatioBelowOne(covered, span);
      Min(covered / span * 100.0, 100.0)
  }

  /** The progress label: "score / next XP to NEXT" while a next tier exists,
      otherwise the maximum-rank text. An unbounded target would print as
      JavaScript prints Infinity. */
  function ProgressLabel(score: int): (s: string)
    ensures s == MaxLabel <==> TierOf(score) == Commander
  {
    var t := TierOf(score);
    var nextName := NextName(t);
    if nextName != MaxName then
      var target := match Data(t).next
        case Some(n) => Decimal.FromInt(n)
        case None => "Infinity";
      var text := Decimal.FromInt(score) + " / " + target + " XP to " + nextName;
      assert text[0] != MaxLabel[0];
      text
    else MaxLabel
  }

  /** Everything the rank panel shows for one cumulative score. */
  datatype RankView = RankView(
    name: string,
    color: string,
    icon: string,
    progress: real,
    progressLabel: string)

  /** The rank panel: name, colour and glyph all come from the row of the
      tier reached; the bar and the label say "complete" exactly for the top
      tier. */
  function GetRank(score: int): (v: RankView)
    ensures exists t :: v.name == Name(t) && v.color == Data(t).color && v.icon == Data(t).icon
    ensures score >= 0 ==> 0.0 <= v.progress <= 100.0
    ensures v.progress == 100.0 <==> v.name == Name(Commander)
    ensures v.progressLabel == MaxLabel <==> v.name == Name(Commander)
    ensures TierOf(score) != Commander ==> ShareOfSpan(v.progress, score)
  {
    var t := TierOf(score);
    var p := Progress(score);
    NameInjective(t, Commander);
    RankView(Name(t), Data(t).color, Data(t).icon, p, ProgressLabel(score))
  }

  /** The table's stored `next` is the threshold of the successor tier, and
      only the last tier has no successor: position-based lookup and the
      stored targets agree. */
  lemma TableAdjacency(t: Tier)
    ensures Successor(t).Some? ==> Position(Successor(t).value) == Position(t) + 1
    ensures Successor(t).Some? <==> Data(t).next.Some?
    ensures Successor(t).Some? ==> Data(t).next.value == Data(Successor(t).value).threshold
    ensures Successor(t).None? <==> t == Commander
    ensures Successor(t).Some? ==> Data(t).threshold < Data(Successor(t).value).threshold
  {
  }

  /** Tier names are distinct, so the name shown identifies the tier. */
  lemma NameInjective(t: Tier, u: Tier)
    ensures Name(t) == Name(u) <==> t == u
  {
    if t != u {
      assert Name(t)[0] != Name(u)[0];
    }
  }

  /** Thresholds at and around each boundary. */
  lemma TierBoundaries()
    ensures TierOf(0) == Recruit && TierOf(249) == Recruit
    ensures TierOf(250) == Operative && TierOf(599) == Operative
    ensures TierOf(600) == Specialist && TierOf(1199) == Specialist
    ensures TierOf(1200) == Commander
  {
  }

  /** A higher score never yields a lower tier. */
  lemma TierMonotone(s1: int, s2: int)
    requires s1 <= s2
    ensures Position(TierOf(s1)) <= Position(TierOf(s2))
  {
  }

  lemma RatioBelowOne(a: real, b: real)
    requires a < b && 0.0 < b
    ensures a / b * 100.0 < 100.0
    ensures 0.0 <= a ==> 0.0 <= a / b * 100.0
  {
    assert a / b < 1.0 by {
      assert a / b * b == a;
    }
  }

  /** Progress is exactly 100 for the top tier, and for every other tier lies
      in [0, 100) when the score is non-negative; so it is 100 exactly when
      the score has reached the top tier. */
  lemma ProgressBounds(score: int)
    requires score >= 0
    ensures TierOf(score) == Commander ==> Progress(score) == 100.0
    ensures TierOf(score) != Commander ==> 0.0 <= Progress(score) < 100.0
    ensures Progress(score) == 100.0 <==> TierOf(score) == Commander
  {
  }

  /** Within one tier the bar never moves backwards as the score grows. */
  lemma ProgressMonotone(s1: int, s2: int)
    requires s1 <= s2 && TierOf(s1) == TierOf(s2)
    ensures Progress(s1) <= Progress(s2)
  {
    var d := Data(TierOf(s1));
    if d.next.Some? {
      var span := (d.next.value - d.threshold) as real;
      assert Progress(s1) * span <= Progress(s2) * span;
    }
  }

  /** What the rank panel shows for a non-negative score: the name of the
      highest tier reached, and a percentage that is 100 exactly at the top. */
  lemma GetRankSound(score: int)
    requires score >= 0
    ensures var t := TierOf(score);
      && GetRank(score).name == Name(t)
      && Data(t).threshold <= score
      && (t == Commander || score < Data(t).next.value)
    ensures 0.0 <= GetRank(score).progress <= 100.0
    ensures GetRank(score).progress == 100.0 <==> GetRank(score).name == "COMMANDER"
    ensures TierOf(score) != Commander ==> ShareOfSpan(GetRank(score).progress, score)
  {
    ProgressBounds(score);
    NameInjective(TierOf(score), Commander);
  }

  /** The label is the maximum-rank text exactly for the top tier; otherwise
      it names the score, the successor's threshold and the successor. */
  lemma LabelShape(score: int)
    ensures ProgressLabel(score) == MaxLabel <==> TierOf(score) == Commander
    ensures TierOf(score) != Commander ==>
      var n := Order[Position(TierOf(score)) + 1];
      ProgressLabel(score) ==
        Decimal.FromInt(score) + " / " + Decimal.FromInt(Data(n).threshold) + " XP to " + Name(n)
  {
  }

  lemma PrintsSmallNumbers()
    ensures Decimal.FromInt(0) == "0"
    ensures Decimal.FromInt(250) == "250"
  {
    assert Decimal.NatDigits(2) == "2";
    assert Decimal.NatDigits(25) == Decimal.NatDigits(2) + "5";
    assert Decimal.NatDigits(250) == Decimal.NatDigits(25) + "0";
  }

  /** The scenarios the dashboard is expected to show. */
  lemma RankScenarios()
    ensures GetRank(0).name == "RECRUIT" && GetRank(0).progressLabel == "0 / 250 XP to OPERATIVE"
    ensures GetRank(250).name == "OPERATIVE"
    ensures GetRank(600).name == "SPECIALIST" && GetRank(600).progress == 0.0
    ensures GetRank(425).name == "OPERATIVE" && GetRank(425).progress == 50.0
    ensures GetRank(1200).name == "COMMANDER" && GetRank(1200).progressLabel == MaxLabel
    ensures GetRank(1200).progress == 100.0
  {
    PrintsSmallNumbers();
    assert TierOf(0) == Recruit && NextName(Recruit) == "OPERATIVE";
    assert ProgressLabel(0) == "0" + " / " + "250" + " XP to " + "OPERATIVE";
    assert TierOf(600) == Specialist;
    assert Progress(600) == Min(0.0 / 600.0 * 100.0, 100.0);
    assert TierOf(425) == Operative;
    assert Progress(425) * 350.0 == 175.0 * 100.0;
    assert TierOf(1200) == Commander;
  }
}
