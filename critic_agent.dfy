/** agents/critic_agent.py: the quality gate. */
module CriticAgent {

  /** `should_fail(hallucinated, confidence)`: the confidence is accepted but not consulted. */
  function ShouldFail(hallucinated: bool, confidence: real): bool {
    if hallucinated then true else false
  }

  /** The gate fails exactly when the answer was judged hallucinated, whatever the confidence. */
  lemma ShouldFailIsHallucinated(hallucinated: bool, confidence: real, other: real)
    ensures ShouldFail(hallucinated, confidence) == hallucinated
    ensures ShouldFail(hallucinated, confidence) == ShouldFail(hallucinated, other)
  {
  }
}
