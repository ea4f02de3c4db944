// `analyzeSkillsFlow`: the model service's reply is cleaned, parsed and checked for
// the fields the callers read; any failure gives a fixed fallback analysis, so the
// flow never throws.
module SkillMatching {
  import opened Outcomes
  import opened ReplyCleanup
  import opened JsonValues

  const FallbackRationale := "Unable to analyze resume due to an error with the AI model. Please try again."
  const FallbackImplied := "Analysis could not be completed."

  /** The analysis returned when the model fails. */
  function Fallback(): Json {
    JObj(map[
      "matchScore" := JNum(0),
      "scoreRationale" := JStr(FallbackRationale),
      "matchingSkills" := JArr([]),
      "missingSkills" := JArr([]),
      "impliedSkills" := JStr(FallbackImplied),
      "status" := JStr("Not a Match")])
  }

  /** The two checks a parsed reply must pass: a numeric `matchScore`, and five truthy required fields. */
  predicate Accepts(j: Json) {
    Truthy(j) && NumberField(j, "matchScore")
    && TruthyField(j, "scoreRationale") && TruthyField(j, "matchingSkills") && TruthyField(j, "missingSkills")
    && TruthyField(j, "impliedSkills") && TruthyField(j, "status")
  }

  /**
   * The flow, given the service's reply and `JSON.parse`: the parsed cleaned reply when it
   * passes the checks, unchanged (the score is not clamped); the fallback otherwise.
   */
  function AnalyzeSkills(reply: HttpReply, parse: string -> Outcome<Json>): (r: Json)
    ensures ParsedReply(reply, parse).Some? && Accepts(ParsedReply(reply, parse).value) ==> r == ParsedReply(reply, parse).value
    ensures !(ParsedReply(reply, parse).Some? && Accepts(ParsedReply(reply, parse).value)) ==> r == Fallback()
  {
    match reply
    case NetworkError(_) => Fallback()
    case HttpError(_, _) => Fallback()
    case HttpOk(text) =>
      match parse(Cleanup(text))
      case Failure(_) => Fallback()
      case Success(output) => if Accepts(output) then output else Fallback()
  }

  /** Whatever the reply, the result has the fields the callers read: the fallback passes the checks too. */
  lemma AnalyzeSkillsAccepted(reply: HttpReply, parse: string -> Outcome<Json>)
    ensures Accepts(AnalyzeSkills(reply, parse))
  {
    var f := Fallback();
    assert Field(f, "matchScore") == Some(JNum(0));
    assert Field(f, "scoreRationale") == Some(JStr(FallbackRationale));
    assert Field(f, "impliedSkills") == Some(JStr(FallbackImplied));
    assert Field(f, "status") == Some(JStr("Not a Match"));
  }

  /** An empty required string is rejected, while an empty required list passes. */
  lemma EmptyFields(fields: map<string, Json>, n: int)
    requires "matchScore" in fields && fields["matchScore"] == JNum(n)
    requires forall k :: k in ["scoreRationale", "impliedSkills", "status"] ==> k in fields && Truthy(fields[k])
    ensures Accepts(JObj(fields["matchingSkills" := JArr([])]["missingSkills" := JArr([])]))
    ensures !Accepts(JObj(fields["scoreRationale" := JStr("")]))
  {
    var j := JObj(fields["matchingSkills" := JArr([])]["missingSkills" := JArr([])]);
    assert "scoreRationale" in ["scoreRationale", "impliedSkills", "status"];
    assert "impliedSkills" in ["scoreRationale", "impliedSkills", "status"];
    assert "status" in ["scoreRationale", "impliedSkills", "status"];
    assert Field(j, "scoreRationale") == Some(fields["scoreRationale"]);
  }
}
