/** The results panel (components/ResultsDisplay.tsx): badge style per verdict,
    score bars, and the choice between the kill view and the scorecard view. */
module ResultsDisplay {
  import opened Wrappers
  import opened Types
  import opened Strings

  const DeployBadge := "bg-brand-accent text-brand-dark"
  const ReviseBadge := "bg-brand-warn text-brand-dark"
  const KillBadge := "bg-brand-kill text-white"
  const OtherBadge := "bg-brand-gray text-white"

  /** getVerdictColor: accent for DEPLOY, warn for REVISE, the kill style shared by
      KILL and UNDEPLOYABLE, gray for any other string. */
  function VerdictColor(verdict: string): (c: string)
    ensures c == DeployBadge <==> verdict == "DEPLOY"
    ensures c == ReviseBadge <==> verdict == "REVISE"
    ensures c == KillBadge <==> verdict == "KILL" || verdict == "UNDEPLOYABLE - KILL IT"
    ensures c == OtherBadge <==> !IsVerdictLabel(verdict)
  {
    if verdict == "DEPLOY" then DeployBadge
    else if verdict == "REVISE" then ReviseBadge
    else if verdict == "KILL" || verdict == "UNDEPLOYABLE - KILL IT" then KillBadge
    else OtherBadge
  }

  /** Every declared verdict gets a coloured badge, never the gray fallback. */
  lemma DeclaredVerdictsColoured(v: Verdict)
    ensures VerdictColor(v.Label()) != OtherBadge
    ensures VerdictColor(v.Label()) == KillBadge <==> v == Kill || v == Undeployable
  {
  }

  /** Math.round(score * 100): JavaScript rounds halves upward. */
  function Percentage(score: real): (p: int)
    ensures p as real - 0.5 <= score * 100.0 < p as real + 0.5
  {
    (score * 100.0 + 0.5).Floor
  }

  /** A score in [0, 1] gives a percentage in [0, 100]. */
  lemma PercentageInRange(score: real)
    requires 0.0 <= score <= 1.0
    ensures 0 <= Percentage(score) <= 100
  {
  }

  lemma PercentageMonotone(a: real, b: real)
    requires a <= b
    ensures Percentage(a) <= Percentage(b)
  {
  }

  /** A score given in whole hundredths shows as exactly that many percent (0.86 shows as 86). */
  lemma PercentageOfHundredths(k: int)
    ensures Percentage(k as real / 100.0) == k
  {
    assert (k as real / 100.0) * 100.0 + 0.5 == k as real + 0.5;
  }

  const AccentBar := "bg-brand-accent"
  const WarnBar := "bg-brand-warn"
  const KillBar := "bg-brand-kill"

  /** getBarColor: accent from 80, warn from 60, kill below. */
  function BarColor(p: int): (c: string)
    ensures c == AccentBar <==> p >= 80
    ensures c == WarnBar <==> 60 <= p < 80
    ensures c == KillBar <==> p < 60
  {
    if p >= 80 then AccentBar else if p >= 60 then WarnBar else KillBar
  }

  /** How good a bar colour is: kill, then warn, then accent. */
  function BarRank(c: string): nat {
    if c == AccentBar then 2 else if c == WarnBar then 1 else 0
  }

  /** Raising the percentage never moves the bar to a worse colour. */
  lemma BarColorMonotone(p: int, q: int)
    requires p <= q
    ensures BarRank(BarColor(p)) <= BarRank(BarColor(q))
  {
  }

  datatype Bar = Bar(caption: string, percentage: int, color: string, widthPercent: int)

  /** ScoreBar: the rounded percentage is shown, coloured by its band, and used as the bar's width. */
  function ScoreBar(score: real, caption: string): (b: Bar)
    ensures b.caption == caption && b.percentage == Percentage(score)
    ensures b.widthPercent == b.percentage && b.color == BarColor(b.percentage)
  {
    var p := Percentage(score);
    Bar(caption, p, BarColor(p), p)
  }

  datatype BreakdownItem = BreakdownItem(heading: string, percentage: int, explanation: string)

  datatype View =
    | KillView(verdict: string, badge: string, killReasons: seq<string>, emergencyFix: Option<string>)
    | ScorecardView(
        verdict: string,
        badge: string,
        bars: seq<Bar>,
        breakdown: seq<BreakdownItem>,
        brutalTruth: string,
        whatBroke: seq<string>,
        fixItFast: string,
        trendingNow: string,
        competitorGap: string)

  const UndeployableLabel := "UNDEPLOYABLE - KILL IT"

  const BarLabels: seq<string> :=
    ["Overall Score", "Viral Potential", "1. Brand Fit", "2. Clarity (AIDA)", "3. Visual Quality", "4. Safety"]

  /** The six bar scores, in display order. */
  function BarScores(c: CritiqueResult): seq<real> {
    [c.overallScore, c.viralPotential, c.scores.brandFit, c.scores.clarity, c.scores.visualQuality, c.scores.safety]
  }

  /** The score breakdown: shown only when explanations are present, then four items
      in scorecard order, each with its sub-score's percentage and explanation. */
  function Breakdown(c: CritiqueResult): (items: seq<BreakdownItem>)
    ensures c.scoreExplanations.None? <==> items == []
    ensures c.scoreExplanations.Some? ==>
      && |items| == 4
      && (forall k :: 0 <= k < 4 ==> items[k].percentage == Percentage(BarScores(c)[k + 2]))
      && items[0].explanation == c.scoreExplanations.value.brandFit
      && items[1].explanation == c.scoreExplanations.value.clarity
      && items[2].explanation == c.scoreExplanations.value.visualQuality
      && items[3].explanation == c.scoreExplanations.value.safety
  {
    match c.scoreExplanations
    case None => []
    case Some(e) => [
      BreakdownItem("1. Brand Fit", Percentage(c.scores.brandFit), e.brandFit),
      BreakdownItem("2. Clarity", Percentage(c.scores.clarity), e.clarity),
      BreakdownItem("3. Visual Quality", Percentage(c.scores.visualQuality), e.visualQuality),
      BreakdownItem("4. Safety", Percentage(c.scores.safety), e.safety)]
  }

  /** The results view. Only the UNDEPLOYABLE verdict selects the kill view, which
      carries the kill badge, the kill reasons (none when absent) and the emergency
      fix; the scorecard view carries the verdict's badge, the breakdown and the
      texts, with missing "what broke" items shown as none and the trends joined by ", ". */
  function Render(c: CritiqueResult): (v: View)
    ensures v.verdict == c.verdict && v.badge == VerdictColor(c.verdict)
    ensures v.KillView? <==> c.verdict == UndeployableLabel
    ensures v.KillView? ==> v == KillView(c.verdict, KillBadge, c.killReasons.GetOr([]), c.emergencyFix)
    ensures v.ScorecardView? ==>
      && v.breakdown == Breakdown(c) && v.brutalTruth == c.brutalTruth && v.fixItFast == c.fixItFast
      && v.whatBroke == c.whatBroke.GetOr([])
      && v.trendingNow == JoinWith(c.marketIntel.trendingNow, ", ")
      && v.competitorGap == c.marketIntel.competitorGap
  {
    var badge := VerdictColor(c.verdict);
    if c.verdict == UndeployableLabel then
      KillView(c.verdict, badge, c.killReasons.GetOr([]), c.emergencyFix)
    else
      var scores := BarScores(c);
      ScorecardView(
        c.verdict, badge,
        [ScoreBar(scores[0], BarLabels[0]), ScoreBar(scores[1], BarLabels[1]),
         ScoreBar(scores[2], BarLabels[2]), ScoreBar(scores[3], BarLabels[3]),
         ScoreBar(scores[4], BarLabels[4]), ScoreBar(scores[5], BarLabels[5])],
        Breakdown(c),
        c.brutalTruth,
        c.whatBroke.GetOr([]),
        c.fixItFast,
        JoinWith(c.marketIntel.trendingNow, ", "),
        c.marketIntel.competitorGap)
  }

  /** The scorecard view shows six bars in fixed order: overall, viral, brand fit,
      clarity, visual quality, safety, each carrying its own score's percentage. */
  lemma ScorecardBars(c: CritiqueResult)
    requires c.verdict != UndeployableLabel
    ensures var v := Render(c);
      && v.ScorecardView? && |v.bars| == 6
      && forall k :: 0 <= k < 6 ==>
           v.bars[k] == ScoreBar(BarScores(c)[k], BarLabels[k]) && v.bars[k].widthPercent == Percentage(BarScores(c)[k])
  {
  }

  /** With scores in [0, 1] every bar of the scorecard is between 0 and 100 percent wide. */
  lemma ScorecardBarsInRange(c: CritiqueResult)
    requires c.verdict != UndeployableLabel
    requires forall k :: 0 <= k < 6 ==> 0.0 <= BarScores(c)[k] <= 1.0
    ensures forall k :: 0 <= k < |Render(c).bars| ==> 0 <= Render(c).bars[k].widthPercent <= 100
  {
    ScorecardBars(c);
    forall k | 0 <= k < 6
      ensures 0 <= Render(c).bars[k].widthPercent <= 100
    {
      PercentageInRange(BarScores(c)[k]);
    }
  }

  /** A DEPLOY critique with overall score 0.86 shows the DEPLOY badge and an 86% accent bar first. */
  lemma DeployExample(c: CritiqueResult)
    requires c.verdict == "DEPLOY" && c.overallScore == 0.86
    ensures Render(c).badge == DeployBadge
    ensures Render(c).ScorecardView? && Render(c).bars[0] == Bar("Overall Score", 86, AccentBar, 86)
  {
    PercentageOfHundredths(86);
    assert 86 as real / 100.0 == 0.86;
  }
}
