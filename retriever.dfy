/**
 * rag/retriever.py: turn the ranked (passage, distance) pairs of a
 * k-nearest-neighbour search into a newline-joined context and a confidence
 * in [0, 1] that decays linearly with the mean distance.
 */
module Retriever {
  import opened Text
  import opened Documents

  /** One search hit: a passage and its distance (lower is more similar). */
  datatype Hit = Hit(content: string, distance: real)

  /** `db.similarity_search_with_score(query, k=k)` against a loaded index. */
  type SearchFn = (Snapshot, string, int) -> seq<Hit>

  /** `retrieve` is called without `k`, so it searches for 4 passages. */
  const DefaultK: int := 4

  function Contents(hits: seq<Hit>): seq<string> {
    seq(|hits|, i requires 0 <= i < |hits| => hits[i].content)
  }

  function Distances(hits: seq<Hit>): seq<real> {
    seq(|hits|, i requires 0 <= i < |hits| => hits[i].distance)
  }

  /** Python's `sum`, left to right. */
  function Sum(xs: seq<real>): real {
    if xs == [] then 0.0 else xs[0] + Sum(xs[1..])
  }

  function Mean(xs: seq<real>): real
    requires |xs| > 0
  {
    Sum(xs) / |xs| as real
  }

  /** `max(0.0, min(1.0, 1.0 - avg / 3.0))`. */
  function ConfidenceOf(avg: real): real {
    var raw := 1.0 - avg / 3.0;
    var capped := if 1.0 < raw then 1.0 else raw;
    if 0.0 < capped then capped else 0.0
  }

  /** The integer nearest to `y`, ties going to the even one. */
  function NearestEven(y: real): int {
    var f := y.Floor;
    var frac := y - f as real;
    if frac < 0.5 then f
    else if frac > 0.5 then f + 1
    else if f % 2 == 0 then f else f + 1
  }

  /**
   * `round(x, 2)`: the nearest hundredth, ties to the even hundredth, as Python
   * rounds the exact value of its argument.
   */
  function Round2(x: real): real {
    NearestEven(x * 100.0) as real / 100.0
  }

  /** What `retrieve` returns for a given search result: `("", 0.0)` when nothing was found. */
  function Retrieval(hits: seq<Hit>): (string, real) {
    if hits == [] then ("", 0.0)
    else (JoinLines(Contents(hits)), Round2(ConfidenceOf(Mean(Distances(hits)))))
  }

  /** `retrieve(db, query, k)`: one search with `k` unchanged, then the collecting loop, the join and the clamp. */
  method Retrieve(search: SearchFn, db: Snapshot, query: string, k: int) returns (context: string, confidence: real)
    ensures (context, confidence) == Retrieval(search(db, query, k))
    ensures 0.0 <= confidence <= 1.0
  {
    var results := search(db, query, k);
    if results == [] {
      return "", 0.0;
    }
    var documents: seq<string> := [];
    var distances: seq<real> := [];
    for i := 0 to |results|
      invariant |documents| == |distances| == i
      invariant forall j | 0 <= j < i :: documents[j] == results[j].content
      invariant forall j | 0 <= j < i :: distances[j] == results[j].distance
    {
      documents := documents + [results[i].content];
      distances := distances + [results[i].distance];
    }
    assert documents == Contents(results);
    assert distances == Distances(results);
    context := JoinLines(documents);
    var avgDistance := Sum(distances) / |distances| as real;
    confidence := Round2(ConfidenceOf(avgDistance));
    RoundedConfidenceInUnitInterval(avgDistance);
  }

  /** The confidence always lies in [0, 1]. */
  lemma ConfidenceInUnitInterval(avg: real)
    ensures 0.0 <= ConfidenceOf(avg) <= 1.0
  {
  }

  /** Inside [0, 3] the mapping is the line 1 - avg/3; from 3 on it is 0; at 0 or below it is 1. */
  lemma ConfidenceRegions(avg: real)
    ensures 0.0 <= avg <= 3.0 ==> ConfidenceOf(avg) == 1.0 - avg / 3.0
    ensures 3.0 <= avg ==> ConfidenceOf(avg) == 0.0
    ensures avg <= 0.0 ==> ConfidenceOf(avg) == 1.0
  {
  }

  /** A larger mean distance never yields a higher confidence. */
  lemma ConfidenceNonIncreasing(a: real, b: real)
    requires a <= b
    ensures ConfidenceOf(b) <= ConfidenceOf(a)
  {
  }

  lemma {:induction false} SumMonotone(xs: seq<real>, ys: seq<real>)
    requires |xs| == |ys|
    requires forall i | 0 <= i < |xs| :: xs[i] <= ys[i]
    ensures Sum(xs) <= Sum(ys)
  {
    if xs != [] {
      SumMonotone(xs[1..], ys[1..]);
    }
  }

  lemma {:induction false} SumOfZeros(xs: seq<real>)
    requires forall i | 0 <= i < |xs| :: xs[i] == 0.0
    ensures Sum(xs) == 0.0
  {
    if xs != [] {
      SumOfZeros(xs[1..]);
    }
  }

  /** The nearest even integer is at most one half away. */
  lemma NearestEvenClose(y: real)
    ensures -0.5 <= NearestEven(y) as real - y <= 0.5
  {
  }

  /** Rounding to the nearest integer never reverses an order. */
  lemma NearestEvenMonotone(a: real, b: real)
    requires a <= b
    ensures NearestEven(a) <= NearestEven(b)
  {
    var fa, fb := a.Floor, b.Floor;
    if fa < fb {
      assert NearestEven(a) <= fa + 1 <= fb <= NearestEven(b);
    }
  }

  /** An integer rounds to itself. */
  lemma NearestEvenOfInteger(n: int)
    ensures NearestEven(n as real) == n
  {
    assert (n as real).Floor == n;
  }

  /** `round(x, 2)` moves `x` by at most half a hundredth. */
  lemma Round2Close(x: real)
    ensures -0.005 <= Round2(x) - x <= 0.005
  {
    NearestEvenClose(x * 100.0);
  }

  /** `round(x, 2)` never reverses an order. */
  lemma Round2Monotone(a: real, b: real)
    requires a <= b
    ensures Round2(a) <= Round2(b)
  {
    NearestEvenMonotone(a * 100.0, b * 100.0);
  }

  /** Rounding an already rounded value changes nothing, so the handlers' second `round` is the identity. */
  lemma Round2Idempotent(x: real)
    ensures Round2(Round2(x)) == Round2(x)
  {
    var n := NearestEven(x * 100.0);
    assert Round2(x) * 100.0 == n as real;
    NearestEvenOfInteger(n);
  }

  /** The confidence `retrieve` returns, rounded, still lies in [0, 1]. */
  lemma RoundedConfidenceInUnitInterval(avg: real)
    ensures 0.0 <= Round2(ConfidenceOf(avg)) <= 1.0
  {
    ConfidenceInUnitInterval(avg);
    Round2Monotone(0.0, ConfidenceOf(avg));
    Round2Monotone(ConfidenceOf(avg), 1.0);
    NearestEvenOfInteger(0);
    NearestEvenOfInteger(100);
  }

  /**
   * Rounding decides near the thresholds: a mean distance of 0.891 gives 0.703
   * before rounding and 0.7 after; 0.906 gives 0.698 before and 0.7 after.
   */
  lemma RoundingNearThresholds()
    ensures ConfidenceOf(0.891) > 0.7 && Retrieval([Hit("a", 0.891)]).1 == 0.7
    ensures ConfidenceOf(0.906) < 0.7 && Retrieval([Hit("a", 0.906)]).1 == 0.7
  {
    assert Distances([Hit("a", 0.891)]) == [0.891];
    assert Sum([0.891]) == 0.891 by {
      assert [0.891][1..] == [];
    }
    assert (0.703 * 100.0).Floor == 70;
    assert Distances([Hit("a", 0.906)]) == [0.906];
    assert Sum([0.906]) == 0.906 by {
      assert [0.906][1..] == [];
    }
    assert (0.698 * 100.0).Floor == 69;
  }

  /** An empty search result is exactly `("", 0.0)`. */
  lemma EmptyResult()
    ensures Retrieval([]) == ("", 0.0)
  {
  }

  /**
   * Hit lists of equal length where every distance of `b` is at least the
   * corresponding distance of `a`: `b` never gets the higher confidence.
   */
  lemma RetrievalConfidenceMonotone(a: seq<Hit>, b: seq<Hit>)
    requires |a| == |b| > 0
    requires forall i | 0 <= i < |a| :: a[i].distance <= b[i].distance
    ensures Retrieval(b).1 <= Retrieval(a).1
  {
    SumMonotone(Distances(a), Distances(b));
    var n := |a| as real;
    assert Sum(Distances(a)) / n <= Sum(Distances(b)) / n;
    var ca, cb := ConfidenceOf(Mean(Distances(a))), ConfidenceOf(Mean(Distances(b)));
    ConfidenceNonIncreasing(Mean(Distances(a)), Mean(Distances(b)));
    Round2Monotone(cb, ca);
    assert Retrieval(a).1 == Round2(ca) && Retrieval(b).1 == Round2(cb);
  }

  /** Perfect matches (all distances zero) give full confidence. */
  lemma AllZeroDistancesGiveFullConfidence(hits: seq<Hit>)
    requires |hits| > 0
    requires forall i | 0 <= i < |hits| :: hits[i].distance == 0.0
    ensures Retrieval(hits).1 == 1.0
  {
    SumOfZeros(Distances(hits));
  }

  /** The context holds the passages in result order: splitting it at newlines recovers them when none contains one. */
  lemma ContextRecoversPassages(hits: seq<Hit>)
    requires |hits| > 0
    requires forall i | 0 <= i < |hits| :: '\n' !in hits[i].content
    ensures SplitLines(Retrieval(hits).0) == Contents(hits)
  {
    SplitJoinLines(Contents(hits));
  }

  /** The worked values: distances [0,0,0] give 1, [3,3,3] give 0, [1.5] gives 0.5. */
  lemma ConfidenceExamples()
    ensures Retrieval([Hit("a", 0.0), Hit("b", 0.0), Hit("c", 0.0)]).1 == 1.0
    ensures Retrieval([Hit("a", 3.0), Hit("b", 3.0), Hit("c", 3.0)]).1 == 0.0
    ensures Retrieval([Hit("a", 1.5)]).1 == 0.5
  {
    var zeros := [Hit("a", 0.0), Hit("b", 0.0), Hit("c", 0.0)];
    var threes := [Hit("a", 3.0), Hit("b", 3.0), Hit("c", 3.0)];
    assert Distances(threes) == [3.0, 3.0, 3.0];
    assert Sum([3.0, 3.0, 3.0]) == 9.0 by {
      assert [3.0, 3.0, 3.0][1..] == [3.0, 3.0];
      assert [3.0, 3.0][1..] == [3.0];
      assert [3.0][1..] == [];
    }
    assert Distances([Hit("a", 1.5)]) == [1.5];
    assert Sum([1.5]) == 1.5 by {
      assert [1.5][1..] == [];
    }
    AllZeroDistancesGiveFullConfidence(zeros);
  }
}
