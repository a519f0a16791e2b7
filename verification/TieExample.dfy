/** A sort that is not stable, and an image for which it breaks the monotonicity of the sweep. */
module TieExample {
  import opened Sorting
  import opened Boxes
  import opened Matching
  import opened Sweep

  const FAR := Box(20.0, 0.0, 30.0, 1.0)
  const FIRST := Prediction(WHOLE, 0.9, 0)
  const SECOND := Prediction(RIGHT, 0.9, 0)
  const THIRD := Prediction(FAR, 0.4, 0)

  /** Stable except on two equal scores that are all there is. */
  function Flipping(scores: seq<real>): seq<nat> {
    if scores == [0.9, 0.9] then [1, 0] else StableIndices(scores)
  }

  lemma {:induction false} FlippedPair()
    ensures Argsorted([1, 0], [0.9, 0.9])
  {
    assert Indices(2) == [0, 1];
    assert multiset([1, 0]) == multiset([0, 1]);
  }

  lemma {:induction false} FlippingSorts()
    ensures Sorts(Flipping)
  {
    forall scores: seq<real>
      ensures Argsorted(Flipping(scores), scores)
    {
      if scores == [0.9, 0.9] {
        FlippedPair();
      } else {
        StableArgsorts(scores);
      }
    }
  }

  lemma {:induction false} OrderAtLow()
    ensures Ordered(Flipping, Above(TIED.predictions, 0.25, 0)) == [FIRST, SECOND, THIRD]
  {
    assert TIED.predictions[1..] == [SECOND, THIRD] && [SECOND, THIRD][1..] == [THIRD] && [THIRD][1..] == [];
    assert Above([THIRD], 0.25, 0) == [THIRD];
    assert Above([SECOND, THIRD], 0.25, 0) == [SECOND, THIRD];
    assert Above(TIED.predictions, 0.25, 0) == [FIRST, SECOND, THIRD];
    StableOnThree();
  }

  lemma {:induction false} StableOnThree()
    ensures Ordered(Flipping, [FIRST, SECOND, THIRD]) == [FIRST, SECOND, THIRD]
  {
    var predictions := [FIRST, SECOND, THIRD];
    assert |Scores(predictions)| == 3;
    OrderedStably(predictions);
    StableThree();
  }

  lemma {:induction false} StableThree()
    ensures Stable([FIRST, SECOND, THIRD]) == [FIRST, SECOND, THIRD]
  {
    assert [FIRST, SECOND, THIRD][1..] == [SECOND, THIRD] && [SECOND, THIRD][1..] == [THIRD] && [THIRD][1..] == [];
    assert Stable([THIRD]) == [THIRD];
    assert Stable([SECOND, THIRD]) == [SECOND, THIRD];
  }

  lemma {:induction false} OrderAtHigh()
    ensures Ordered(Flipping, Above(TIED.predictions, 0.5, 0)) == [SECOND, FIRST]
  {
    assert TIED.predictions[1..] == [SECOND, THIRD] && [SECOND, THIRD][1..] == [THIRD] && [THIRD][1..] == [];
    assert Above([THIRD], 0.5, 0) == [];
    assert Above([SECOND, THIRD], 0.5, 0) == [SECOND];
    assert Above(TIED.predictions, 0.5, 0) == [FIRST, SECOND];
    assert Scores([FIRST, SECOND]) == [0.9, 0.9];
    PickAt([FIRST, SECOND], [1, 0]);
  }

  const TIED := Image([FIRST, SECOND, THIRD], [Truth(WHOLE, 0), Truth(LEFT, 0)])

  /** With a sort that is not stable the sweep need not be monotone: the third score, dropped by
      the higher threshold, changes how the two tied ones are arranged, and a true positive more
      is found without it. */
  lemma {:induction false} TiesBreakTheSweep()
    ensures Sorts(Flipping)
    ensures Scored(Counts(1, 2, 1), Flipping, TIED, 0.25, 0)
    ensures Scored(Counts(2, 0, 0), Flipping, TIED, 0.5, 0)
  {
    FlippingSorts();
    OrderAtLow();
    OrderAtHigh();
    TruthsOfTheImage(TIED);
    CountsAtLow();
    CountsAtHigh();
  }

  lemma {:induction false} TruthsOfTheImage(image: Image)
    requires image.truths == [Truth(WHOLE, 0), Truth(LEFT, 0)]
    ensures TruthBoxes(image.truths, 0) == [WHOLE, LEFT]
  {
    assert image.truths[1..] == [Truth(LEFT, 0)] && [Truth(LEFT, 0)][1..] == [];
    assert TruthBoxes([Truth(LEFT, 0)], 0) == [LEFT];
  }

  lemma {:induction false} CountsAtLow()
    ensures Tally(Counts(1, 2, 1), Iou, [FIRST, SECOND, THIRD], [WHOLE, LEFT])
  {
    CrossedOverlaps();
    FarFromBoth();
    CrossedBefore(Iou, FIRST, SECOND, THIRD, WHOLE, LEFT);
    GreedyCounts(Iou, [FIRST, SECOND, THIRD], [WHOLE, LEFT]);
  }

  lemma {:induction false} CrossedBefore(iou: Measure, a: Prediction, b: Prediction, c: Prediction, g: Box, h: Box)
    requires iou(a.box, g) > iou(a.box, h) >= 0.5 && iou(b.box, g) >= 0.5 > iou(b.box, h)
    requires iou(c.box, g) < 0.5 && iou(c.box, h) < 0.5
    ensures |Greedy(iou, [a, b, c], [g, h], 3).pairs| == 1
  {
    Crossed(iou, a, b, g, h);
    GreedyLooksBack(iou, [a, b], [a, b, c], [g, h], 2);
    FruitlessTurn(iou, [a, b, c], [g, h], 2);
  }

  lemma {:induction false} CountsAtHigh()
    ensures Tally(Counts(2, 0, 0), Iou, [SECOND, FIRST], [WHOLE, LEFT])
  {
    CrossedOverlaps();
    Uncrossed(Iou, FIRST, SECOND, WHOLE, LEFT);
    GreedyCounts(Iou, [SECOND, FIRST], [WHOLE, LEFT]);
  }

  lemma {:induction false} FarFromBoth()
    ensures Iou(FAR, WHOLE) == 0.0 && Iou(FAR, LEFT) == 0.0
  {
    ApartIsZero(FAR, WHOLE);
    ApartIsZero(FAR, LEFT);
  }

  lemma {:induction false} FruitlessTurn(iou: Measure, ordered: seq<Prediction>, truths: seq<Box>, n: nat)
    requires n < |ordered|
    requires forall g :: 0 <= g < |truths| ==> !Overlaps(iou, ordered[n].box, truths[g])
    ensures Greedy(iou, ordered, truths, n + 1) == Greedy(iou, ordered, truths, n)
  {
  }
}
