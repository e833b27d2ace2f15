/**
 * app.py: the decision flow of the two request handlers, `ask_ui` and
 * `ask_api`. Each retrieves, answers, runs the blocking policy check, then
 * the quality gate, and on failure diagnoses and heals synchronously before
 * answering. The metrics counters are fields; the audit log is a ghost trail.
 */
module App {
  import opened Text
  import opened Documents
  import opened Retriever
  import opened Ingestion
  import opened SelfHeal
  import opened CriticAgent
  import opened PolicyAgent
  import opened RootCauseAgent
  import Wrappers

  /** The language model calls of one request: the answer, the policy classifier and the diagnostic classifier. */
  datatype Llm = Llm(answer: (string, string) -> string, policy: string -> string, rootCause: Classifier)

  /** The `audit(event, payload)` entries the handlers write; the timestamp is left out. */
  datatype AuditEvent =
    | PolicyViolationEvent(query: string)
    | SelfHealEvent(reason: string)
    | SuccessEvent(query: string)

  /** CSS class of the confidence line on the answer page. */
  datatype ConfClass = Good | Medium | Bad

  function ConfidenceClass(confidence: real): ConfClass {
    if confidence >= 0.7 then Good
    else if confidence >= 0.4 then Medium
    else Bad
  }

  /** `good` from 0.7, `medium` from 0.4 below that, `bad` under 0.4. */
  lemma ConfidenceClassThresholds(confidence: real)
    ensures ConfidenceClass(confidence) == Good <==> 0.7 <= confidence
    ensures ConfidenceClass(confidence) == Medium <==> 0.4 <= confidence < 0.7
    ensures ConfidenceClass(confidence) == Bad <==> confidence < 0.4
  {
  }

  /**
   * Both thresholds apply to the rounded confidence: a mean distance of 0.891
   * (0.703 before rounding) takes the classifier path of `diagnose`, and one of
   * 0.906 (0.698 before rounding) is shown as `good`.
   */
  lemma RoundedConfidenceDecides(query: string, classify: Classifier)
    ensures Diagnose(query, Retrieval([Hit("a", 0.891)]).1, classify) == classify(query)
    ensures ConfidenceClass(Retrieval([Hit("a", 0.906)]).1) == Good
  {
    RoundingNearThresholds();
  }

  /** The UI's hallucination test: an explicit "I don't know", or under 10 characters once stripped. */
  predicate UiHallucinated(answer: string) {
    Contains(answer, "I don't know") || |Strip(answer)| < 10
  }

  /** The API's hallucination test: only the explicit "I don't know". */
  predicate ApiHallucinated(answer: string) {
    Contains(answer, "I don't know")
  }

  /** The UI test is the stricter one: a short substantive-looking answer heals on the UI but not on the API. */
  lemma HallucinationTestsDiffer(answer: string)
    ensures ApiHallucinated(answer) ==> UiHallucinated(answer)
    ensures UiHallucinated("  42\n") && !ApiHallucinated("  42\n")
    ensures Contains(answer, "I don't know") ==> ApiHallucinated(answer) && UiHallucinated(answer)
    ensures ApiHallucinated("I don't know the leave policy.") && UiHallucinated("I don't know the leave policy.")
  {
    var short := "  42\n";
    var i, j := StripIsSlice(short);
    assert |Strip(short)| <= 5;
    NotContainsWithoutFirstChar(short, "I don't know");
    var unknown := "I don't know the leave policy.";
    assert OccursAt(unknown, "I don't know", 0);
  }

  /** What a request leads to once the answer exists. */
  datatype Decision = Block | Pass | Repair(reason: string)

  /** The policy check first (blocking), then `should_fail`, then `diagnose` on failure. */
  function Decide(query: string, confidence: real, policyReply: string, hallucinated: bool, classify: Classifier): Decision {
    if PolicyCheck(policyReply) then Block
    else if ShouldFail(hallucinated, confidence) then Repair(Diagnose(query, confidence, classify))
    else Pass
  }

  /** A policy violation is terminal: no gate, no diagnosis, whatever the answer and the confidence. */
  lemma ViolationIsTerminal(query: string, confidence: real, policyReply: string, hallucinated: bool, classify: Classifier)
    requires PolicyCheck(policyReply)
    ensures Decide(query, confidence, policyReply, hallucinated, classify) == Block
  {
  }

  /** Healing is requested exactly for a non-violating hallucinated answer, with the diagnosed reason. */
  lemma RepairExactlyWhenHallucinated(query: string, confidence: real, policyReply: string, hallucinated: bool, classify: Classifier)
    requires !PolicyCheck(policyReply)
    ensures var d := Decide(query, confidence, policyReply, hallucinated, classify);
            && (d.Repair? <==> hallucinated)
            && (d.Repair? ==> d.reason == Diagnose(query, confidence, classify))
  {
  }

  /** The events `ask_ui` appends: exactly one. */
  function UiTrail(query: string, d: Decision): seq<AuditEvent> {
    match d
    case Block => [PolicyViolationEvent(query)]
    case Repair(reason) => [SelfHealEvent(reason)]
    case Pass => [SuccessEvent(query)]
  }

  /** The events `ask_api` appends: "success" follows "self_heal" as well. */
  function ApiTrail(query: string, d: Decision): seq<AuditEvent> {
    match d
    case Block => [PolicyViolationEvent(query)]
    case Repair(reason) => [SelfHealEvent(reason), SuccessEvent(query)]
    case Pass => [SuccessEvent(query)]
  }

  /** The two handlers agree except that a healed API request also logs "success". */
  lemma TrailsCompared(query: string, d: Decision)
    ensures |UiTrail(query, d)| == 1
    ensures d.Repair? ==> ApiTrail(query, d) == UiTrail(query, d) + [SuccessEvent(query)]
    ensures !d.Repair? ==> ApiTrail(query, d) == UiTrail(query, d)
    ensures d == Block <==> PolicyViolationEvent(query) in ApiTrail(query, d)
  {
  }

  datatype UiPage =
    | BlockedPage
    | AnswerPage(question: string, answer: string, confidence: real, confClass: ConfClass, healWarning: bool)
    | UiServerError

  datatype ApiReply =
    | MissingQuery
    | BlockedReply
    | AnswerReply(answer: string, confidence: real)
    | ApiServerError

  function StatusCode(reply: ApiReply): int {
    match reply
    case MissingQuery => 400
    case ApiServerError => 500
    case _ => 200
  }

  /** The Flask process: counters, audit trail, the index loaded at start-up, and the on-disk state healing rewrites. */
  class Server {
    var queries: nat
    var failures: nat
    ghost var audit: seq<AuditEvent>
    /** `db = load_store()`, loaded once; a rebuild during healing does not replace it. */
    const served: Snapshot
    const search: SearchFn
    const ingestor: Ingestor

    /** Start-up: `load_store` needs an index on disk. */
    constructor (search: SearchFn, ingestor: Ingestor)
      requires ingestor.index.Some?
      ensures this.search == search && this.ingestor == ingestor
      ensures served == ingestor.index.value
      ensures queries == 0 && failures == 0 && audit == []
    {
      this.search := search;
      this.ingestor := ingestor;
      served := ingestor.index.value;
      queries, failures := 0, 0;
      audit := [];
    }

    /** The answer and the confidence a request works with. */
    function Answered(query: string, llm: Llm): (string, real) {
      var (context, confidence) := Retrieval(search(served, query, DefaultK));
      (llm.answer(query, context), confidence)
    }

    /** Healing this decision runs `ingest(force=True)`. */
    predicate Reingests(d: Decision) {
      d.Repair? && ChooseAction(d.reason) == Reingest
    }

    /**
     * The failure branch both handlers share: count the failure, diagnose, heal.
     * `healed` is false when healing raised (re-ingestion found no documents).
     */
    method HandleFailure(query: string, confidence: real, llm: Llm) returns (reason: string, healed: bool)
      modifies this`failures, ingestor`index, ingestor`meta, ingestor`writes
      ensures failures == old(failures) + 1
      ensures reason == Diagnose(query, confidence, llm.rootCause)
      ensures var (ingested, after) := IngestSpec(ingestor.Docs(), old(ingestor.CurrentStore()), true, ingestor.hash, ingestor.split);
              && (Reingests(Repair(reason)) ==> ingestor.CurrentStore() == after && ingestor.writes == old(ingestor.writes) + WritesOf(ingested, after))
              && (!Reingests(Repair(reason)) ==> unchanged(ingestor))
      ensures healed <==> !(Reingests(Repair(reason)) && ingestor.Docs() == [])
    {
      failures := failures + 1;
      reason := Diagnose(query, confidence, llm.rootCause);
      var r := Heal(reason, ingestor);
      healed := r.Success?;
    }

    /** The `ask_ui` handler, HTML rendering aside. */
    method AskUi(query: string, llm: Llm) returns (page: UiPage)
      modifies this`queries, this`failures, this`audit, ingestor`index, ingestor`meta, ingestor`writes
      ensures queries == old(queries) + 1
      ensures UiAnswered(query, llm, page)
    {
      queries := queries + 1;
      page := AnswerUiQuery(query, llm);
    }

    /** The part of `ask_ui` after the form is read. */
    method AnswerUiQuery(query: string, llm: Llm) returns (page: UiPage)
      modifies this`failures, this`audit, ingestor`index, ingestor`meta, ingestor`writes
      ensures UiAnswered(query, llm, page)
    {
      var context, confidence := Retrieve(search, served, query, DefaultK);
      var answer := llm.answer(query, context);
      ghost var d := Decide(query, confidence, llm.policy(answer), UiHallucinated(answer), llm.rootCause);
      assert Answered(query, llm) == (answer, confidence);

      if PolicyCheck(llm.policy(answer)) {
        assert d == Block;
        audit := audit + [PolicyViolationEvent(query)];
        return BlockedPage;
      }

      var needsHealing := ShouldFail(UiHallucinated(answer), confidence);
      if needsHealing {
        var reason, healed := HandleFailure(query, confidence, llm);
        if !healed {
          return UiServerError;
        }
        assert d == Repair(reason);
        audit := audit + [SelfHealEvent(reason)];
      } else {
        assert d == Pass;
        audit := audit + [SuccessEvent(query)];
      }
      page := AnswerPage(query, answer, confidence, ConfidenceClass(confidence), needsHealing);
    }

    /**
     * How `ask_ui` has answered: the page (blocked, the answer with its confidence
     * class and the healing warning, or a server error when healing raised),
     * the failure counter, the audit trail and the effect of healing on disk.
     */
    twostate predicate UiAnswered(query: string, llm: Llm, page: UiPage)
      reads this, ingestor
    {
      var (answer, confidence) := Answered(query, llm);
      var d := Decide(query, confidence, llm.policy(answer), UiHallucinated(answer), llm.rootCause);
      var (ingested, after) := IngestSpec(ingestor.Docs(), old(ingestor.CurrentStore()), true, ingestor.hash, ingestor.split);
      && failures == old(failures) + (if d.Repair? then 1 else 0)
      && (Reingests(d) ==> ingestor.CurrentStore() == after && ingestor.writes == old(ingestor.writes) + WritesOf(ingested, after))
      && (!Reingests(d) ==> unchanged(ingestor))
      && page == (if d == Block then BlockedPage
                  else if Reingests(d) && ingestor.Docs() == [] then UiServerError
                  else AnswerPage(query, answer, confidence, ConfidenceClass(confidence), d.Repair?))
      && audit == old(audit) + (if page == UiServerError then [] else UiTrail(query, d))
    }

    /** The `ask_api` handler on the parsed JSON body (None when there is none). */
    method AskApi(body: Wrappers.Option<map<string, string>>, llm: Llm) returns (reply: ApiReply)
      modifies this`queries, this`failures, this`audit, ingestor`index, ingestor`meta, ingestor`writes
      ensures queries == old(queries) + 1
      ensures body.None? || "query" !in body.value ==>
                reply == MissingQuery && failures == old(failures) && audit == old(audit) && unchanged(ingestor)
      ensures StatusCode(reply) == 400 <==> body.None? || "query" !in body.value
      ensures body.Some? && "query" in body.value ==> ApiAnswered(body.value["query"], llm, reply)
    {
      queries := queries + 1;
      if body.None? || "query" !in body.value {
        return MissingQuery;
      }
      reply := AnswerApiQuery(body.value["query"], llm);
    }

    /** How `ask_api` has answered a query that was present: its reply, counters, audit trail and healing. */
    twostate predicate ApiAnswered(query: string, llm: Llm, reply: ApiReply)
      reads this, ingestor
    {
      var (answer, confidence) := Answered(query, llm);
      var d := Decide(query, confidence, llm.policy(answer), ApiHallucinated(answer), llm.rootCause);
      var (ingested, after) := IngestSpec(ingestor.Docs(), old(ingestor.CurrentStore()), true, ingestor.hash, ingestor.split);
      && failures == old(failures) + (if d.Repair? then 1 else 0)
      && (Reingests(d) ==> ingestor.CurrentStore() == after && ingestor.writes == old(ingestor.writes) + WritesOf(ingested, after))
      && (!Reingests(d) ==> unchanged(ingestor))
      && reply == (if d == Block then BlockedReply
                   else if Reingests(d) && ingestor.Docs() == [] then ApiServerError
                   else AnswerReply(answer, confidence))
      && audit == old(audit) + (if reply == ApiServerError then [] else ApiTrail(query, d))
    }

    /** The part of `ask_api` after the request check. */
    method AnswerApiQuery(query: string, llm: Llm) returns (reply: ApiReply)
      modifies this`failures, this`audit, ingestor`index, ingestor`meta, ingestor`writes
      ensures ApiAnswered(query, llm, reply)
    {
      var context, confidence := Retrieve(search, served, query, DefaultK);
      var answer := llm.answer(query, context);
      ghost var d := Decide(query, confidence, llm.policy(answer), ApiHallucinated(answer), llm.rootCause);
      assert Answered(query, llm) == (answer, confidence);

      if PolicyCheck(llm.policy(answer)) {
        assert d == Block;
        audit := audit + [PolicyViolationEvent(query)];
        return BlockedReply;
      }

      if ShouldFail(ApiHallucinated(answer), confidence) {
        var reason, healed := HandleFailure(query, confidence, llm);
        if !healed {
          return ApiServerError;
        }
        assert d == Repair(reason);
        audit := audit + [SelfHealEvent(reason)];
      }
      audit := audit + [SuccessEvent(query)];
      assert audit == old(audit) + ApiTrail(query, d);
      reply := AnswerReply(answer, confidence);
    }
  }
}
