/**
 * evals/groundedness.py: for each test, answer from the four nearest
 * passages, ask a judge whether the answer is supported by them, and pass
 * the test when it is and the answer holds every required phrase.
 */
module GroundednessEval {
  import opened Text

  datatype GroundingTest = GroundingTest(query: string, mustContain: seq<string>)

  datatype GroundingResult = GroundingResult(query: string, answer: string, grounded: bool, passed: bool)

  /** `GROUNDING_TESTS`. */
  const GroundingTests: seq<GroundingTest> := [
    GroundingTest("How often should API keys be rotated?", ["90 days"]),
    GroundingTest("Is remote work allowed?", ["3 days"])
  ]

  const EvalK: int := 4

  /** `db.similarity_search(query, k)`, reduced to the passages' text. */
  type PassageSearch = (string, int) -> seq<string>

  /** `answer(query, context)`. */
  type Answerer = (string, string) -> string

  /** The judge model's reply to (answer, context). */
  type Judge = (string, string) -> string

  /** The verdict rule of `check_groundedness`: the stripped reply is exactly "YES". */
  predicate CheckGroundedness(verdict: string) {
    Strip(verdict) == "YES"
  }

  /** Every required phrase occurs in the answer, ignoring case. */
  predicate ContainsAll(answer: string, phrases: seq<string>) {
    forall phrase | phrase in phrases :: Contains(Lower(answer), Lower(phrase))
  }

  /** The result record of one test. */
  function Evaluate(test: GroundingTest, search: PassageSearch, answer: Answerer, judge: Judge): GroundingResult {
    var context := JoinLines(search(test.query, EvalK));
    var ans := answer(test.query, context);
    var grounded := CheckGroundedness(judge(ans, context));
    GroundingResult(test.query, ans, grounded, grounded && ContainsAll(ans, test.mustContain))
  }

  /** `run_groundedness_eval()` over `tests`: one result per test, in test order. */
  method RunGroundednessEval(tests: seq<GroundingTest>, search: PassageSearch, answer: Answerer, judge: Judge)
    returns (results: seq<GroundingResult>)
    ensures |results| == |tests|
    ensures forall i | 0 <= i < |tests| :: results[i] == Evaluate(tests[i], search, answer, judge)
  {
    results := [];
    for i := 0 to |tests|
      invariant |results| == i
      invariant forall j | 0 <= j < i :: results[j] == Evaluate(tests[j], search, answer, judge)
    {
      var query := tests[i].query;
      var docs := search(query, EvalK);
      var context := JoinLines(docs);
      var ans := answer(query, context);
      var grounded := CheckGroundedness(judge(ans, context));
      var passed := grounded && ContainsAll(ans, tests[i].mustContain);
      results := results + [GroundingResult(query, ans, grounded, passed)];
    }
  }

  /** A result passes iff it is grounded and holds every phrase; ungrounded never passes; no phrases means passed == grounded. */
  lemma PassedRule(test: GroundingTest, search: PassageSearch, answer: Answerer, judge: Judge)
    ensures var r := Evaluate(test, search, answer, judge);
            && r.query == test.query
            && (r.passed <==> r.grounded && ContainsAll(r.answer, test.mustContain))
            && (!r.grounded ==> !r.passed)
            && (test.mustContain == [] ==> r.passed == r.grounded)
  {
  }

  /** Only the exact upper-case "YES" counts, though surrounding whitespace is ignored. */
  lemma VerdictExamples()
    ensures CheckGroundedness("YES")
    ensures CheckGroundedness(" YES\n")
    ensures !CheckGroundedness("yes")
    ensures !CheckGroundedness("YES.")
    ensures !CheckGroundedness("NO")
  {
  }
}
