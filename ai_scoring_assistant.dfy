/**
 * The scoring assistant (src/ai/flows/ai-scoring-assistant.ts) as seen by the
 * portal: a call that takes the normalised proposal and either answers with a
 * structured assessment or fails. The generative model behind it is a
 * parameter; the declared output schema (a score between 0 and 100) is
 * enforced here, as the flow does when it checks its output schema.
 */
module ScoringAssistant {
  import opened Wrappers

  /** What the assistant is asked about. */
  datatype ScoringInput = ScoringInput(title: string, abstractText: string, budget: real, description: string)

  /** The assistant's structured answer. */
  datatype AiScore = AiScore(summary: string, rationale: string, score: real)

  /** What the model behind the assistant does with one request. */
  datatype OracleReply = Answered(output: AiScore) | Threw(reason: string)

  /** The generative model, abstracted: any function from request to reply. */
  type Oracle = ScoringInput -> OracleReply

  const MinScore: real := 0.0
  const MaxScore: real := 100.0

  const SchemaMismatch := "Schema validation failed: score must be between 0 and 100"

  /** The output schema: a score in [0, 100]. */
  predicate MatchesOutputSchema(a: AiScore) {
    MinScore <= a.score <= MaxScore
  }

  /**
   * One call to the assistant: the model's answer when it answers within the
   * output schema, a failure when it throws or answers outside it.
   */
  function AiScoreProjectProposal(oracle: Oracle, input: ScoringInput): (r: Result<AiScore, string>)
    ensures r.Success? ==> MinScore <= r.value.score <= MaxScore
    ensures r.Success? <==> oracle(input).Answered? && MatchesOutputSchema(oracle(input).output)
    ensures r.Success? ==> r.value == oracle(input).output
  {
    match oracle(input)
    case Threw(reason) => Failure(reason)
    case Answered(output) =>
      if MatchesOutputSchema(output) then Success(output) else Failure(SchemaMismatch)
  }
}
