/**
 * evals/regression.py: for each golden test, answer the query from the four
 * nearest passages and record the expected keywords the answer lacks,
 * compared case-insensitively; a test with lacking keywords is a failure.
 */
module RegressionEval {
  import opened Text
  import opened Sequences

  datatype RegressionTest = RegressionTest(query: string, expectedKeywords: seq<string>)

  datatype Failure = Failure(query: string, answer: string, missing: seq<string>)

  /** `REGRESSION_TESTS`. */
  const RegressionTests: seq<RegressionTest> := [
    RegressionTest("How many days of annual leave are employees entitled to?", ["25"]),
    RegressionTest("What security measures are required for customer data?", ["encrypted"])
  ]

  /** The number of passages each evaluation query retrieves. */
  const EvalK: int := 4

  /** `db.similarity_search(query, k)`, reduced to the passages' text. */
  type PassageSearch = (string, int) -> seq<string>

  /** `answer(query, context)`. */
  type Answerer = (string, string) -> string

  /** `kw.lower() in ans.lower()`. */
  predicate Mentions(answer: string, keyword: string) {
    Contains(Lower(answer), Lower(keyword))
  }

  /** The `missing` comprehension: the keywords the answer does not mention, in keyword order. */
  function Missing(keywords: seq<string>, answer: string): seq<string> {
    if keywords == [] then []
    else
      var kw := keywords[|keywords| - 1];
      Missing(keywords[..|keywords| - 1], answer) + (if Mentions(answer, kw) then [] else [kw])
  }

  /** The answer a test gets: from the newline-joined top passages of its query. */
  function AnswerFor(test: RegressionTest, search: PassageSearch, answer: Answerer): string {
    answer(test.query, JoinLines(search(test.query, EvalK)))
  }

  /** The record a test would be reported with. */
  function Evaluated(test: RegressionTest, search: PassageSearch, answer: Answerer): Failure {
    var ans := AnswerFor(test, search, answer);
    Failure(test.query, ans, Missing(test.expectedKeywords, ans))
  }

  /** The record of every test, in test order. */
  function Evaluations(tests: seq<RegressionTest>, search: PassageSearch, answer: Answerer): (records: seq<Failure>)
    ensures |records| == |tests|
    ensures forall i | 0 <= i < |tests| :: records[i] == Evaluated(tests[i], search, answer)
  {
    if tests == [] then []
    else Evaluations(tests[..|tests| - 1], search, answer) + [Evaluated(tests[|tests| - 1], search, answer)]
  }

  /** The failures `run_regression_eval` reports for `tests`, in test order. */
  function Failures(tests: seq<RegressionTest>, search: PassageSearch, answer: Answerer): seq<Failure> {
    if tests == [] then []
    else
      var f := Evaluated(tests[|tests| - 1], search, answer);
      Failures(tests[..|tests| - 1], search, answer) + (if f.missing != [] then [f] else [])
  }

  /** `run_regression_eval()` over `tests`, with the store's search and the answer generator as parameters. */
  method RunRegressionEval(tests: seq<RegressionTest>, search: PassageSearch, answer: Answerer) returns (failures: seq<Failure>)
    ensures failures == Failures(tests, search, answer)
  {
    failures := [];
    for i := 0 to |tests|
      invariant failures == Failures(tests[..i], search, answer)
    {
      assert tests[..i + 1][..i] == tests[..i];
      var test := tests[i];
      var query := test.query;
      var docs := search(query, EvalK);
      var context := JoinLines(docs);
      var ans := answer(query, context);
      var missing := Missing(test.expectedKeywords, ans);
      if missing != [] {
        failures := failures + [Failure(query, ans, missing)];
      }
    }
    assert tests[..|tests|] == tests;
  }

  /** A keyword is missing exactly when it is expected and not mentioned. */
  lemma {:induction false} MissingMembership(keywords: seq<string>, answer: string, kw: string)
    ensures kw in Missing(keywords, answer) <==> kw in keywords && !Mentions(answer, kw)
  {
    if keywords != [] {
      var init := keywords[..|keywords| - 1];
      MissingMembership(init, answer, kw);
      assert keywords == init + [keywords[|keywords| - 1]];
    }
  }

  /** The missing keywords keep the order of `expected_keywords`. */
  lemma {:induction false} MissingInOrder(keywords: seq<string>, answer: string)
    ensures IsSubsequence(Missing(keywords, answer), keywords)
  {
    if keywords != [] {
      var init := keywords[..|keywords| - 1];
      var m := Missing(keywords, answer);
      MissingInOrder(init, answer);
      SubsequenceOfPrefix(Missing(init, answer), init, keywords[|keywords| - 1]);
      if m != Missing(init, answer) {
        assert m[..|m| - 1] == Missing(init, answer);
      }
    }
  }

  /** A subsequence of `ys` is also one of `ys + [y]`. */
  lemma SubsequenceOfPrefix<T>(xs: seq<T>, ys: seq<T>, y: T)
    requires IsSubsequence(xs, ys)
    ensures IsSubsequence(xs, ys + [y])
  {
    assert (ys + [y])[..|ys|] == ys;
  }

  /** Nothing is missing exactly when the answer mentions every expected keyword. */
  lemma MissingEmptyIff(keywords: seq<string>, answer: string)
    ensures Missing(keywords, answer) == [] <==> forall kw | kw in keywords :: Mentions(answer, kw)
  {
    var m := Missing(keywords, answer);
    if m != [] {
      MissingMembership(keywords, answer, m[0]);
    } else {
      forall kw | kw in keywords ensures Mentions(answer, kw) {
        MissingMembership(keywords, answer, kw);
      }
    }
  }

  /** A test is reported iff some keyword is missing, with that test's query, answer and missing list. */
  lemma {:induction false} FailuresMembership(tests: seq<RegressionTest>, search: PassageSearch, answer: Answerer, f: Failure)
    ensures f in Failures(tests, search, answer) <==> f in Evaluations(tests, search, answer) && f.missing != []
  {
    if tests != [] {
      FailuresMembership(tests[..|tests| - 1], search, answer, f);
    }
  }

  /** The reports follow the order of the tests. */
  lemma {:induction false} FailuresInOrder(tests: seq<RegressionTest>, search: PassageSearch, answer: Answerer)
    ensures IsSubsequence(Failures(tests, search, answer), Evaluations(tests, search, answer))
  {
    if tests != [] {
      var init := tests[..|tests| - 1];
      var last := Evaluated(tests[|tests| - 1], search, answer);
      var reported := Failures(tests, search, answer);
      FailuresInOrder(init, search, answer);
      SubsequenceOfPrefix(Failures(init, search, answer), Evaluations(init, search, answer), last);
      assert Evaluations(tests, search, answer) == Evaluations(init, search, answer) + [last];
      if last.missing != [] {
        assert reported[..|reported| - 1] == Failures(init, search, answer);
      } else {
        assert reported == Failures(init, search, answer);
      }
    }
  }

  /** The evaluation passes (no failures) iff every test's answer mentions every expected keyword. */
  lemma {:induction false} NoFailuresIff(tests: seq<RegressionTest>, search: PassageSearch, answer: Answerer)
    ensures Failures(tests, search, answer) == [] <==>
            forall i | 0 <= i < |tests| :: Missing(tests[i].expectedKeywords, AnswerFor(tests[i], search, answer)) == []
  {
    if tests != [] {
      var init := tests[..|tests| - 1];
      NoFailuresIff(init, search, answer);
      forall i | 0 <= i < |init| ensures init[i] == tests[i] { }
    }
  }

  /** Keywords match whatever their case and the answer's: "Encrypted" is found in "Data is ENCRYPTED at rest". */
  lemma MentionsIgnoresCase()
    ensures Mentions("Data is ENCRYPTED at rest", "Encrypted")
    ensures !Mentions("Plain ASCII only", "encrypted")
  {
    var a := Lower("Data is ENCRYPTED at rest");
    assert Lower("Encrypted") == "encrypted";
    assert a[8..17] == "encrypted";
    assert OccursAt(a, Lower("Encrypted"), 8);
    var b := Lower("Plain ASCII only");
    assert Lower("encrypted") == "encrypted";
    NotContainsWithoutFirstChar(b, "encrypted");
  }
}
