/** From a model's reply to a stored score (internal/job/triage.go, internal/job/evaluate.go). */
module Scoring {
  import opened Wrappers

  datatype Recommendation = Apply | Review | Reject

  datatype Stage = Triage | DeepEvaluation

  /** The sentence of a reason written by the program; Stated is a model's own sentence. */
  datatype Reason =
    | HardFilterFailed
    | FitScore(value: int)
    | BelowThreshold(value: int)
    | TriageAmbiguous
    | EvaluationAmbiguous
    | Stated(text: string)

  datatype Score = Score(
    value: int, recommendation: Recommendation, reasons: seq<Reason>, concerns: seq<string>,
    matchedSkills: seq<string>, missingSkills: seq<string>, confidence: string, evaluatedBy: Stage)

  datatype TriageOutput = TriageOutput(
    fitScore: int, hardFail: bool, matchedSkills: seq<string>, missingSkills: seq<string>,
    riskFlags: seq<string>, recommendation: string)

  datatype EvaluationOutput = EvaluationOutput(
    score: int, recommendation: string, reasons: seq<string>, concerns: seq<string>,
    matchedSkills: seq<string>, missingSkills: seq<string>, confidence: string)

  function ClampScore(v: int): int {
    if v < 0 then 0 else if v > 100 then 100 else v
  }

  /** None is the empty recommendation, which every caller treats as REVIEW. */
  function NormalizeRecommendation(s: string): Maybe<Recommendation> {
    if s == "apply" || s == "APPLY" then Some(Apply)
    else if s == "reject" || s == "REJECT" then Some(Reject)
    else if s == "review" || s == "REVIEW" then Some(Review)
    else None
  }

  function NormalizeConfidence(c: string): string {
    if c == "high" || c == "medium" || c == "low" then c else "low"
  }

  function StatedAll(texts: seq<string>): seq<Reason> {
    seq(|texts|, i requires 0 <= i < |texts| => Stated(texts[i]))
  }

  function ApplyTriage(out: TriageOutput): Score {
    var value := ClampScore(out.fitScore);
    var score := Score(value, Reject, [HardFilterFailed], out.riskFlags, out.matchedSkills, out.missingSkills,
                       "high", Triage);
    if out.hardFail then score
    else
      match NormalizeRecommendation(out.recommendation)
      case Some(Apply) => score.(recommendation := Apply, reasons := [FitScore(value)], confidence := "medium")
      case Some(Reject) => score.(recommendation := Reject, reasons := [BelowThreshold(value)], confidence := "medium")
      case _ => score.(recommendation := Review, reasons := [TriageAmbiguous], confidence := "medium")
  }

  function ApplyEvaluation(out: EvaluationOutput): Score {
    var score := Score(ClampScore(out.score), Review, StatedAll(out.reasons), out.concerns, out.matchedSkills,
                       out.missingSkills, NormalizeConfidence(out.confidence), DeepEvaluation);
    match NormalizeRecommendation(out.recommendation)
    case Some(Apply) => score.(recommendation := Apply)
    case Some(Reject) => score.(recommendation := Reject)
    case _ => score.(reasons := if score.reasons == [] then [EvaluationAmbiguous] else score.reasons)
  }

  predicate SaysApply(s: string) {
    s == "apply" || s == "APPLY"
  }

  predicate WellFormed(s: Score, stage: Stage) {
    && 0 <= s.value <= 100
    && s.evaluatedBy == stage
    && s.confidence in {"high", "medium", "low"}
    && (stage == Triage ==> |s.reasons| == 1)
    && (s.recommendation == Review ==> s.reasons != [])
  }

  /** Whatever a model replies, APPLY needs the word itself, and for triage no hard failure; a score
      is in 0..100 and equals the model's number whenever that is; REVIEW always has a reason. */
  lemma ApplyNeedsTheWord(t: TriageOutput, e: EvaluationOutput)
    ensures var s := ApplyTriage(t);
      && WellFormed(s, Triage)
      && (s.recommendation == Apply <==> !t.hardFail && SaysApply(t.recommendation))
      && (0 <= t.fitScore <= 100 ==> s.value == t.fitScore)
    ensures var s := ApplyEvaluation(e);
      && WellFormed(s, DeepEvaluation)
      && (s.recommendation == Apply <==> SaysApply(e.recommendation))
      && (0 <= e.score <= 100 ==> s.value == e.score)
      && (|e.reasons| > 0 ==>
            && |s.reasons| == |e.reasons|
            && forall i | 0 <= i < |e.reasons| :: s.reasons[i] == Stated(e.reasons[i]))
  {
    if |e.reasons| > 0 {
      assert StatedAll(e.reasons)[0] == Stated(e.reasons[0]);
    }
  }
}
