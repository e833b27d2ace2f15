/** agents/root_cause_agent.py: diagnosis of a failed answer. */
module RootCauseAgent {

  /** The reply text of the diagnostic classifier, as a function of the failed query. */
  type Classifier = string -> string

  const FastPathThreshold: real := 0.7

  const RetrievalDrift: string := "Retrieval drift"

  /** `diagnose(query, confidence)`. */
  function Diagnose(query: string, confidence: real, classify: Classifier): string {
    if confidence > FastPathThreshold then RetrievalDrift else classify(query)
  }

  /** Above 0.7 the reason is "Retrieval drift" and the classifier is not consulted. */
  lemma DiagnoseFastPath(query: string, confidence: real, classify: Classifier, other: Classifier)
    requires confidence > 0.7
    ensures Diagnose(query, confidence, classify) == "Retrieval drift"
    ensures Diagnose(query, confidence, classify) == Diagnose(query, confidence, other)
  {
  }

  /** At or below 0.7 (0.7 itself included) the classifier's reply is returned unchanged. */
  lemma DiagnoseClassifierPath(query: string, confidence: real, classify: Classifier)
    requires confidence <= 0.7
    ensures Diagnose(query, confidence, classify) == classify(query)
  {
  }
}
