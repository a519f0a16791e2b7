/** The confidence sweep: what a higher threshold does to the processing order and to the counts. */
module Sweep {
  import opened Sorting
  import opened Boxes
  import opened Matching

  /** The predictions of one score, in order. */
  function At(s: seq<Prediction>, score: real): seq<Prediction> {
    if s == [] then []
    else if s[0].score == score then [s[0]] + At(s[1..], score)
    else At(s[1..], score)
  }

  /** Tied predictions that both thresholds keep stand in the same order at both. */
  ghost predicate SameTies(lowOrder: seq<Prediction>, highOrder: seq<Prediction>, high: real) {
    forall v: real :: v >= high ==> At(lowOrder, v) == At(highOrder, v)
  }

  lemma {:induction false} AtConcat(a: seq<Prediction>, b: seq<Prediction>, v: real)
    ensures At(a + b, v) == At(a, v) + At(b, v)
  {
    if a == [] {
      assert a + b == b;
    } else {
      AtConcat(a[1..], b, v);
      assert (a + b)[1..] == a[1..] + b;
    }
  }

  lemma {:induction false} AtMembers(s: seq<Prediction>, v: real)
    ensures forall x :: x in At(s, v) ==> x in s && x.score == v
    ensures forall x :: x in s && x.score == v ==> x in At(s, v)
  {
    if s != [] {
      AtMembers(s[1..], v);
      assert s == [s[0]] + s[1..];
    }
  }

  lemma {:induction false} AtMultiplicity(s: seq<Prediction>, v: real, x: Prediction)
    ensures multiset(At(s, v))[x] == if x.score == v then multiset(s)[x] else 0
  {
    if s != [] {
      AtMultiplicity(s[1..], v, x);
      assert s == [s[0]] + s[1..];
    }
  }

  lemma {:induction false} AtRearranged(a: seq<Prediction>, b: seq<Prediction>, v: real)
    requires multiset(a) == multiset(b)
    ensures multiset(At(a, v)) == multiset(At(b, v)) && |At(a, v)| == |At(b, v)|
  {
    forall x
      ensures multiset(At(a, v))[x] == multiset(At(b, v))[x]
    {
      AtMultiplicity(a, v, x);
      AtMultiplicity(b, v, x);
    }
    assert multiset(At(a, v)) == multiset(At(b, v));
    SameElements(At(a, v), At(b, v));
  }

  /** The threshold decides by the score alone, so it keeps all of a tie or none. */
  lemma {:induction false} AtAbove(predictions: seq<Prediction>, low: real, high: real, classId: nat, v: real)
    requires low <= high <= v
    ensures At(Above(predictions, low, classId), v) == At(Above(predictions, high, classId), v)
  {
    if predictions != [] {
      AtAbove(predictions[1..], low, high, classId, v);
      var p := predictions[0];
      AtConcat([p], Above(predictions[1..], low, classId), v);
      AtConcat([p], Above(predictions[1..], high, classId), v);
    }
  }

  lemma {:induction false} AboveIsHigh(predictions: seq<Prediction>, threshold: real, classId: nat)
    ensures forall p :: p in Above(predictions, threshold, classId) ==> p.score >= threshold
  {
    if predictions != [] {
      AboveIsHigh(predictions[1..], threshold, classId);
    }
  }

  // ---------------------------------------------------------------------------------------
  // The processing order

  lemma {:induction false} SameTiesArePrefix(a: seq<Prediction>, b: seq<Prediction>, high: real)
    requires Sorted(a, ScoreLe) && Sorted(b, ScoreLe) && SameTies(a, b, high)
    requires forall x :: x in b ==> x.score >= high
    ensures b <= a
  {
    if b != [] {
      HeadsAgree(a, b, high);
      TailsAgree(a, b, high);
      SameTiesArePrefix(a[1..], b[1..], high);
      assert a == [a[0]] + a[1..] && b == [b[0]] + b[1..];
    }
  }

  /** Both heads have the greatest score. */
  lemma {:induction false} HeadsAgree(a: seq<Prediction>, b: seq<Prediction>, high: real)
    requires Sorted(a, ScoreLe) && Sorted(b, ScoreLe) && SameTies(a, b, high)
    requires b != [] && b[0].score >= high
    ensures a != [] && a[0] == b[0]
  {
    var v := b[0].score;
    AtMembers(a, v);
    assert At(b, v)[0] == b[0] && At(a, v)[0] in At(a, v);
    var m :| 0 <= m < |a| && a[m] == At(a, v)[0];
    var w := a[0].score;
    assert w >= v;
    AtMembers(b, w);
    assert At(a, w)[0] == a[0] && At(b, w)[0] in At(b, w);
  }

  lemma {:induction false} TailsAgree(a: seq<Prediction>, b: seq<Prediction>, high: real)
    requires a != [] && b != [] && a[0] == b[0] && SameTies(a, b, high)
    ensures SameTies(a[1..], b[1..], high)
  {
    forall v: real | v >= high
      ensures At(a[1..], v) == At(b[1..], v)
    {
      assert At(a, v) == At(b, v);
      if a[0].score == v {
        assert At(a[1..], v) == At(a, v)[1..] && At(b[1..], v) == At(b, v)[1..];
      }
    }
  }

  /** A higher threshold cuts the processing order short exactly if the tied predictions it keeps
      stand in the same order at both. */
  lemma {:induction false} PrefixIffSameTies(
      predictions: seq<Prediction>, low: real, high: real, classId: nat, lowOrder: seq<Prediction>,
      highOrder: seq<Prediction>)
    requires low <= high
    requires Arranged(lowOrder, Above(predictions, low, classId))
    requires Arranged(highOrder, Above(predictions, high, classId))
    ensures highOrder <= lowOrder <==> SameTies(lowOrder, highOrder, high)
  {
    if SameTies(lowOrder, highOrder, high) {
      AboveIsHigh(predictions, high, classId);
      SameElements(highOrder, Above(predictions, high, classId));
      SameTiesArePrefix(lowOrder, highOrder, high);
    }
    if highOrder <= lowOrder {
      forall v: real | v >= high
        ensures At(lowOrder, v) == At(highOrder, v)
      {
        AtAbove(predictions, low, high, classId, v);
        AtRearranged(lowOrder, Above(predictions, low, classId), v);
        AtRearranged(highOrder, Above(predictions, high, classId), v);
        AtPrefix(highOrder, lowOrder, v);
      }
    }
  }

  lemma {:induction false} AtPrefix(shorter: seq<Prediction>, longer: seq<Prediction>, v: real)
    requires shorter <= longer && |At(shorter, v)| == |At(longer, v)|
    ensures At(shorter, v) == At(longer, v)
  {
    var rest := longer[|shorter|..];
    assert longer == shorter + rest;
    AtConcat(shorter, rest, v);
  }

  predicate DistinctScores(predictions: seq<Prediction>) {
    forall i, j :: 0 <= i < j < |predictions| ==> predictions[i].score != predictions[j].score
  }

  lemma {:induction false} AtMostOneAt(predictions: seq<Prediction>, threshold: real, classId: nat, v: real)
    requires DistinctScores(predictions)
    ensures |At(Above(predictions, threshold, classId), v)| <= 1
    ensures (forall p :: p in predictions ==> p.score != v) ==> At(Above(predictions, threshold, classId), v) == []
  {
    if predictions != [] {
      AtMostOneAt(predictions[1..], threshold, classId, v);
      AtConcat([predictions[0]], Above(predictions[1..], threshold, classId), v);
      assert predictions[0] in predictions;
    }
  }

  /** Without ties every arrangement qualifies. */
  lemma {:induction false} HigherThresholdIsPrefix(
      predictions: seq<Prediction>, low: real, high: real, classId: nat, lowOrder: seq<Prediction>,
      highOrder: seq<Prediction>)
    requires DistinctScores(predictions) && low <= high
    requires Arranged(lowOrder, Above(predictions, low, classId))
    requires Arranged(highOrder, Above(predictions, high, classId))
    ensures SameTies(lowOrder, highOrder, high) && highOrder <= lowOrder
  {
    forall v: real | v >= high
      ensures At(lowOrder, v) == At(highOrder, v)
    {
      AtMostOneAt(predictions, low, classId, v);
      AtAbove(predictions, low, high, classId, v);
      AtRearranged(lowOrder, Above(predictions, low, classId), v);
      AtRearranged(highOrder, Above(predictions, high, classId), v);
      SameSingletons(At(lowOrder, v), At(highOrder, v));
    }
    PrefixIffSameTies(predictions, low, high, classId, lowOrder, highOrder);
  }

  lemma {:induction false} SameSingletons(a: seq<Prediction>, b: seq<Prediction>)
    requires multiset(a) == multiset(b) && |a| <= 1
    ensures a == b
  {
    SameElements(a, b);
    if |a| == 1 {
      assert b[0] in a;
    }
  }

  // ---------------------------------------------------------------------------------------
  // Stable sorting

  function Stable(predictions: seq<Prediction>): seq<Prediction> {
    Sort(predictions, ScoreLe)
  }

  lemma {:induction false} AtInsert(x: Prediction, s: seq<Prediction>, v: real)
    ensures At(Insert(x, s, ScoreLe), v) == At([x] + s, v)
  {
    assert ([x] + s)[1..] == s;
    if s != [] && !ScoreLe(x, s[0]) {
      AtInsert(x, s[1..], v);
      assert ([x] + s[1..])[1..] == s[1..];
      assert s == [s[0]] + s[1..];
      var rest := Insert(x, s[1..], ScoreLe);
      assert ([s[0]] + rest)[1..] == rest;
    }
  }

  /** A stable sort keeps tied predictions in the order they came in. */
  lemma {:induction false} AtStable(s: seq<Prediction>, v: real)
    ensures At(Stable(s), v) == At(s, v)
  {
    if s != [] {
      AtStable(s[1..], v);
      var rest := Stable(s[1..]);
      AtInsert(s[0], rest, v);
      AtConcat([s[0]], rest, v);
      AtConcat([s[0]], s[1..], v);
      assert s == [s[0]] + s[1..];
    }
  }

  function Value(scores: seq<real>, i: nat): real {
    if i < |scores| then scores[i] else 0.0
  }

  function IndexLe(scores: seq<real>): (nat, nat) -> bool {
    (a: nat, b: nat) => Value(scores, a) >= Value(scores, b)
  }

  /** A stable argsort. */
  function StableIndices(scores: seq<real>): seq<nat> {
    Sort(Indices(|scores|), IndexLe(scores))
  }

  lemma {:induction false} StableArgsorts(scores: seq<real>)
    ensures Argsorted(StableIndices(scores), scores)
  {
    var order := StableIndices(scores);
    SortSorted(Indices(|scores|), IndexLe(scores));
    SameElements(order, Indices(|scores|));
    forall i | 0 <= i < |order|
      ensures order[i] < |scores|
    {
      assert order[i] in order;
    }
    forall i, j | 0 <= i < j < |order|
      ensures NoLower(scores, order[i], order[j])
    {
      assert IndexLe(scores)(order[i], order[j]);
    }
  }

  lemma {:induction false} StableSorts()
    ensures Sorts(StableIndices)
  {
    forall scores: seq<real>
      ensures Argsorted(StableIndices(scores), scores)
    {
      StableArgsorts(scores);
    }
  }

  lemma {:induction false} OrderedStably(predictions: seq<Prediction>)
    ensures Ordered(StableIndices, predictions) == Stable(predictions)
  {
    var scores := Scores(predictions);
    PickSort(predictions, Indices(|predictions|), IndexLe(scores), ScoreLe);
    PickIndices(predictions);
  }

  /** For a stable sort a higher threshold always cuts the processing order short, ties or not. */
  lemma {:induction false} StableIsPrefix(predictions: seq<Prediction>, low: real, high: real, classId: nat)
    requires low <= high
    ensures SameTies(Stable(Above(predictions, low, classId)), Stable(Above(predictions, high, classId)), high)
    ensures Stable(Above(predictions, high, classId)) <= Stable(Above(predictions, low, classId))
  {
    var a, b := Above(predictions, low, classId), Above(predictions, high, classId);
    forall v: real | v >= high
      ensures At(Stable(a), v) == At(Stable(b), v)
    {
      AtStable(a, v);
      AtStable(b, v);
      AtAbove(predictions, low, high, classId, v);
    }
    SortSorted(a, ScoreLe);
    SortSorted(b, ScoreLe);
    PrefixIffSameTies(predictions, low, high, classId, Stable(a), Stable(b));
  }

  // ---------------------------------------------------------------------------------------
  // The counts

  /** As the threshold rises, true and false positives never rise and false negatives never
      fall, whatever the measure of overlap, if ties keep their order. */
  lemma {:induction false} SweepIsMonotone(
      iou: Measure, predictions: seq<Prediction>, low: real, high: real, classId: nat,
      lowOrder: seq<Prediction>, highOrder: seq<Prediction>, truths: seq<Box>, atLow: Counts, atHigh: Counts)
    requires low <= high && SameTies(lowOrder, highOrder, high)
    requires Arranged(lowOrder, Above(predictions, low, classId))
    requires Arranged(highOrder, Above(predictions, high, classId))
    requires Tally(atLow, iou, lowOrder, truths) && Tally(atHigh, iou, highOrder, truths)
    ensures atHigh.tp <= atLow.tp && atHigh.fp <= atLow.fp && atHigh.fn >= atLow.fn
  {
    PrefixIffSameTies(predictions, low, high, classId, lowOrder, highOrder);
    GreedyLooksBack(iou, highOrder, lowOrder, truths, |highOrder|);
    CountsGrow(iou, lowOrder, truths, |highOrder|, |lowOrder|);
  }
}
