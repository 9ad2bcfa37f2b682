/**
 * The gender decision of the face module: the analysis of a face maps keys
 * to values, and its `gender` entry, when it is a mapping, holds a confidence
 * per label.
 */
module FaceRecognition {
  import opened Promises

  /** A value of the analysis: a mapping from labels to confidences, or anything else. */
  datatype AnalysisValue = Scores(confidence: map<string, real>) | Other

  const Male: string := "Male"
  const Female: string := "Female"
  const Unknown: string := "Unknown"

  /** `d.get(key, 0)` on a mapping of confidences. */
  function ConfidenceOf(scores: map<string, real>, key: string): real {
    if key in scores then scores[key] else 0.0
  }

  /**
   * `get_gender_from_analysis`: `Unknown` for a missing or empty analysis or
   * a `gender` entry that is not a mapping; otherwise `Male` exactly when the
   * `Man` confidence is above the `Woman` one, both defaulting to 0. A missing
   * `gender` entry counts as an empty mapping.
   */
  function GetGenderFromAnalysis(analysis: Option<map<string, AnalysisValue>>): (r: string)
    ensures r == Male || r == Female || r == Unknown
  {
    if analysis.None? || analysis.value == map[] then Unknown
    else
      var genderData := if "gender" in analysis.value then analysis.value["gender"] else Scores(map[]);
      match genderData
      case Scores(scores) => if ConfidenceOf(scores, "Man") > ConfidenceOf(scores, "Woman") then Male else Female
      case Other => Unknown
  }

  /** The decision in terms of the analysis: when it is unknown, and when it is male. */
  lemma GenderRule(analysis: Option<map<string, AnalysisValue>>)
    ensures GetGenderFromAnalysis(analysis) == Unknown <==>
      analysis.None? || analysis.value == map[] || ("gender" in analysis.value && analysis.value["gender"].Other?)
    ensures GetGenderFromAnalysis(analysis) == Male <==>
      && analysis.Some? && "gender" in analysis.value && analysis.value["gender"].Scores?
      && ConfidenceOf(analysis.value["gender"].confidence, "Man") > ConfidenceOf(analysis.value["gender"].confidence, "Woman")
  {
  }

  /** An analysis without a `gender` entry gives `Female`, not `Unknown`. */
  lemma MissingGenderIsFemale(analysis: map<string, AnalysisValue>)
    requires analysis != map[] && "gender" !in analysis
    ensures GetGenderFromAnalysis(Some(analysis)) == Female
  {
  }

  /**
   * Exchanging the two confidences exchanges the answer when they differ;
   * equal confidences give `Female` either way.
   */
  lemma GenderSwap(analysis: map<string, AnalysisValue>, man: real, woman: real)
    requires analysis != map[]
    ensures var a := Some(analysis["gender" := Scores(map["Man" := man, "Woman" := woman])]);
      var b := Some(analysis["gender" := Scores(map["Man" := woman, "Woman" := man])]);
      && (man != woman ==> (GetGenderFromAnalysis(a) == Male <==> GetGenderFromAnalysis(b) == Female))
      && (man == woman ==> GetGenderFromAnalysis(a) == Female && GetGenderFromAnalysis(b) == Female)
  {
  }
}
