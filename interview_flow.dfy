// `generateInterviewQuestionsFlow` and `evaluateInterviewAnswerFlow`: clean, parse
// and check the model service's reply, falling back to fixed output on any failure.
module InterviewFlow {
  import opened Outcomes
  import opened ReplyCleanup
  import opened JsonValues

  const DefaultQuestions: seq<string> := [
    "Tell me about yourself and your relevant experience.",
    "What interests you about this role?",
    "Can you describe a challenging project you worked on?",
    "How do you stay current with industry trends and technologies?",
    "Where do you see yourself in the next few years?"]

  const FallbackFeedback := "Unable to evaluate answer due to an error with the AI model. Please try again."

  function Strings(s: seq<string>): (r: seq<Json>)
    ensures |r| == |s| && forall i :: 0 <= i < |s| ==> r[i] == JStr(s[i])
  {
    if s == [] then [] else [JStr(s[0])] + Strings(s[1..])
  }

  function DefaultQuestionSet(): Json {
    JObj(map["questions" := JArr(Strings(DefaultQuestions))])
  }

  /** `Array.isArray(output.questions) && output.questions.length === 5`. */
  predicate FiveQuestions(j: Json) {
    Truthy(j) && Field(j, "questions").Some? && Field(j, "questions").value.JArr?
    && |Field(j, "questions").value.elems| == 5
  }

  /** The questions flow: the parsed cleaned reply when it holds exactly five questions, the defaults otherwise. */
  function GenerateQuestions(reply: HttpReply, parse: string -> Outcome<Json>): (r: Json)
    ensures ParsedReply(reply, parse).Some? && FiveQuestions(ParsedReply(reply, parse).value) ==> r == ParsedReply(reply, parse).value
    ensures !(ParsedReply(reply, parse).Some? && FiveQuestions(ParsedReply(reply, parse).value)) ==> r == DefaultQuestionSet()
  {
    match reply
    case NetworkError(_) => DefaultQuestionSet()
    case HttpError(_, _) => DefaultQuestionSet()
    case HttpOk(text) =>
      match parse(Cleanup(text))
      case Failure(_) => DefaultQuestionSet()
      case Success(output) => if FiveQuestions(output) then output else DefaultQuestionSet()
  }

  /** The output always holds exactly five questions, and on failure they are the five defaults. */
  lemma AlwaysFiveQuestions(reply: HttpReply, parse: string -> Outcome<Json>)
    ensures FiveQuestions(GenerateQuestions(reply, parse))
    ensures reply.NetworkError? || reply.HttpError? ==>
              Field(GenerateQuestions(reply, parse), "questions") == Some(JArr(Strings(DefaultQuestions)))
  {
    assert Field(DefaultQuestionSet(), "questions") == Some(JArr(Strings(DefaultQuestions)));
  }

  function DefaultEvaluation(): Json {
    JObj(map["score" := JNum(5), "feedback" := JStr(FallbackFeedback)])
  }

  /** `typeof output.score === 'number' && output.feedback`; the score's range is not checked. */
  predicate ValidEvaluation(j: Json) {
    Truthy(j) && NumberField(j, "score") && TruthyField(j, "feedback")
  }

  /** The evaluation flow: the parsed cleaned reply when it has a numeric score and a feedback, score 5 with fixed feedback otherwise. */
  function EvaluateAnswer(reply: HttpReply, parse: string -> Outcome<Json>): (r: Json)
    ensures ParsedReply(reply, parse).Some? && ValidEvaluation(ParsedReply(reply, parse).value) ==> r == ParsedReply(reply, parse).value
    ensures !(ParsedReply(reply, parse).Some? && ValidEvaluation(ParsedReply(reply, parse).value)) ==> r == DefaultEvaluation()
  {
    match reply
    case NetworkError(_) => DefaultEvaluation()
    case HttpError(_, _) => DefaultEvaluation()
    case HttpOk(text) =>
      match parse(Cleanup(text))
      case Failure(_) => DefaultEvaluation()
      case Success(output) => if ValidEvaluation(output) then output else DefaultEvaluation()
  }

  /** Every evaluation has a numeric score and a feedback; a failed one scores 5. */
  lemma EvaluationAlwaysValid(reply: HttpReply, parse: string -> Outcome<Json>)
    ensures ValidEvaluation(EvaluateAnswer(reply, parse))
    ensures !reply.HttpOk? ==> Field(EvaluateAnswer(reply, parse), "score") == Some(JNum(5))
  {
    DefaultEvaluationValid();
  }

  lemma DefaultEvaluationValid()
    ensures ValidEvaluation(DefaultEvaluation())
    ensures Field(DefaultEvaluation(), "score") == Some(JNum(5))
  {
    assert Field(DefaultEvaluation(), "feedback") == Some(JStr(FallbackFeedback));
  }

  /** A score outside one to ten is kept as it is. */
  lemma ScoreNotRangeChecked(fields: map<string, Json>, parse: string -> Outcome<Json>, text: string)
    requires "feedback" in fields && Truthy(fields["feedback"])
    requires parse(Cleanup(text)) == Success(JObj(fields["score" := JNum(42)]))
    ensures Field(EvaluateAnswer(HttpOk(text), parse), "score") == Some(JNum(42))
  {
    var j := JObj(fields["score" := JNum(42)]);
    assert Field(j, "feedback") == Some(fields["feedback"]);
  }
}
