/** healing/self_heal.py: one repair action per diagnosed failure. */
module SelfHeal {
  import opened Wrappers
  import opened Text
  import opened Ingestion
  import RootCauseAgent

  datatype Action = Reingest | RepairPrompt

  /** The dispatch of `heal(reason)`: a case-sensitive "Retrieval" substring selects re-ingestion. */
  function ChooseAction(reason: string): Action {
    if Contains(reason, "Retrieval") then Reingest else RepairPrompt
  }

  /**
   * `heal(reason)`: either `ingest(force=True)`, whose error propagates, or the
   * prompt repair, an external action modelled as a no-op that always succeeds.
   */
  method Heal(reason: string, ingestor: Ingestor) returns (r: Result<Action, IngestError>)
    modifies ingestor`index, ingestor`meta, ingestor`writes
    ensures ChooseAction(reason) == RepairPrompt ==>
              r == Success(RepairPrompt) && unchanged(ingestor)
    ensures ChooseAction(reason) == Reingest ==>
              var (ingested, after) := IngestSpec(ingestor.Docs(), old(ingestor.CurrentStore()), true, ingestor.hash, ingestor.split);
              && ingestor.CurrentStore() == after
              && ingestor.writes == old(ingestor.writes) + WritesOf(ingested, after)
              && r == (if ingestor.Docs() == [] then Failure(NoDocumentsFound) else Success(Reingest))
  {
    if Contains(reason, "Retrieval") {
      var ingested := ingestor.Ingest(true);
      if ingested.Failure? {
        return Failure(ingested.error);
      }
      r := Success(Reingest);
    } else {
      r := Success(RepairPrompt);
    }
  }

  /** Prompt, Data staleness and the lower-case "retrieval drift" all go to prompt repair. */
  lemma DispatchExamples()
    ensures ChooseAction("Retrieval") == Reingest
    ensures ChooseAction("Prompt") == RepairPrompt
    ensures ChooseAction("Data staleness") == RepairPrompt
    ensures ChooseAction("retrieval drift") == RepairPrompt
  {
    assert OccursAt("Retrieval", "Retrieval", 0);
    NotContainsWithoutFirstChar("Prompt", "Retrieval");
    NotContainsWithoutFirstChar("Data staleness", "Retrieval");
    NotContainsWithoutFirstChar("retrieval drift", "Retrieval");
  }

  /** The diagnoser's fast-path reason always leads to a forced re-ingestion. */
  lemma FastPathReasonReingests(query: string, confidence: real, classify: RootCauseAgent.Classifier)
    requires confidence > 0.7
    ensures ChooseAction(RootCauseAgent.Diagnose(query, confidence, classify)) == Reingest
  {
    assert OccursAt("Retrieval drift", "Retrieval", 0);
  }

  /** A forced re-ingestion rebuilds whenever there are documents, and fails, changing nothing, when there are none. */
  lemma ForcedReingestion(docs: seq<Documents.Doc>, store: Store, hash: Fingerprinting.HashFn, split: Splitter)
    ensures var (r, after) := IngestSpec(docs, store, true, hash, split);
            && (docs == [] <==> r == Failure(NoDocumentsFound))
            && (docs == [] ==> after == store)
            && (docs != [] ==> r == Success(Rebuilt) && after.meta == Some(Fingerprinting.Fingerprint(docs, hash)))
  {
  }
}
