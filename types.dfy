/** The records that flow through the application (types.ts), plus the two
    browser-side values the core reads: a selected file and a thrown value. */
module Types {
  import opened Wrappers

  /** A brand's identity, filled in by the scrape step or typed by the user. */
  datatype BrandInfo = BrandInfo(
    name: string,
    personality: string,
    colors: string,
    platform: string,
    competitors: string)

  /** The four verdict labels a critique is declared to carry. */
  datatype Verdict = Deploy | Revise | Kill | Undeployable {
    function Label(): (l: string)
      ensures IsVerdictLabel(l)
    {
      match this
      case Deploy => "DEPLOY"
      case Revise => "REVISE"
      case Kill => "KILL"
      case Undeployable => "UNDEPLOYABLE - KILL IT"
    }
  }

  predicate IsVerdictLabel(s: string) {
    s == "DEPLOY" || s == "REVISE" || s == "KILL" || s == "UNDEPLOYABLE - KILL IT"
  }

  /** No two verdicts share a label, and every accepted string is some verdict's label. */
  lemma LabelsAreVerdictLabels(v: Verdict, w: Verdict, s: string)
    ensures v.Label() == w.Label() ==> v == w
    ensures IsVerdictLabel(s) ==> exists u: Verdict :: u.Label() == s
  {
    if s == "DEPLOY" {
      assert Deploy.Label() == s;
    } else if s == "REVISE" {
      assert Revise.Label() == s;
    } else if s == "KILL" {
      assert Kill.Label() == s;
    } else if IsVerdictLabel(s) {
      assert Undeployable.Label() == s;
    }
  }

  datatype SubScores = SubScores(brandFit: real, clarity: real, visualQuality: real, safety: real)

  datatype ScoreExplanations = ScoreExplanations(
    brandFit: string, clarity: string, visualQuality: string, safety: string)

  datatype MarketIntel = MarketIntel(
    trendingNow: seq<string>,
    competitorGap: string,
    hotTopics: Option<seq<string>>,
    viralFormatOfWeek: Option<string>,
    competitorMove: Option<string>,
    culturalAlert: Option<string>)

  /** A critique as the parsed model reply delivers it. The verdict stays a string:
      nothing checks that the reply uses one of the four labels. */
  datatype CritiqueResult = CritiqueResult(
    verdict: string,
    overallScore: real,
    viralPotential: real,
    scores: SubScores,
    scoreExplanations: Option<ScoreExplanations>,
    brutalTruth: string,
    whatBroke: Option<seq<string>>,
    killReasons: Option<seq<string>>,
    emergencyFix: Option<string>,
    marketIntel: MarketIntel,
    viralTacticsUsed: seq<string>,
    viralTacticsMissing: seq<string>,
    fixItFast: string)

  /** The part of a browser `File` that the core reads. */
  datatype File = File(name: string, mimeType: string)

  /** A value that reached a `catch`: an `Error` instance with its message, or anything else. */
  datatype Thrown = ErrorValue(message: string) | OtherValue
}
