/** agents/policy_agent.py: the blocking policy check, on the classifier's reply text. */
module PolicyAgent {
  import opened Text

  /** `policy_check(answer)`: the classifier's reply contains "VIOLATION" (case-sensitive substring). */
  predicate PolicyCheck(reply: string) {
    Contains(reply, "VIOLATION")
  }

  /**
   * The expected replies and the consequences of a bare substring test:
   * "OK" passes, lower-case "violation" passes, and "NO VIOLATION" is a violation.
   */
  lemma PolicyCheckExamples()
    ensures !PolicyCheck("OK")
    ensures PolicyCheck("VIOLATION")
    ensures !PolicyCheck("violation")
    ensures PolicyCheck("NO VIOLATION")
  {
    assert OccursAt("VIOLATION", "VIOLATION", 0);
    assert OccursAt("NO VIOLATION", "VIOLATION", 3);
    NotContainsWithoutFirstChar("violation", "VIOLATION");
  }

  /** Any reply that carries "VIOLATION" somewhere, with any text around it, is a violation. */
  lemma PolicyCheckAnyContext(pre: string, post: string)
    ensures PolicyCheck(pre + "VIOLATION" + post)
  {
    assert OccursAt("VIOLATION", "VIOLATION", 0);
    ContainsExtended(pre, "VIOLATION", post, "VIOLATION");
  }
}
