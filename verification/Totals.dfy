/** The totals that a sweep reports for a class: sums of one tally for each image. */
module Totals {
  import opened Sorting
  import opened Boxes
  import opened Matching
  import opened Sweep

  /** The sort arranges the tied predictions of an image alike at both thresholds. */
  ghost predicate Consistent(argsort: Argsort, image: Image, low: real, high: real, classId: nat) {
    SameTies(Ordered(argsort, Above(image.predictions, low, classId)),
             Ordered(argsort, Above(image.predictions, high, classId)), high)
  }

  /** So it does for each of the first `n` images. */
  ghost predicate ConsistentUpTo(
      argsort: Argsort, images: seq<Image>, low: real, high: real, classId: nat, n: nat)
    requires n <= |images|
  {
    n > 0 ==>
      && ConsistentUpTo(argsort, images, low, high, classId, n - 1)
      && Consistent(argsort, images[n - 1], low, high, classId)
  }

  lemma {:induction false} StableIsConsistent(image: Image, low: real, high: real, classId: nat)
    requires low <= high
    ensures Consistent(StableIndices, image, low, high, classId)
  {
    OrderedStably(Above(image.predictions, low, classId));
    OrderedStably(Above(image.predictions, high, classId));
    StableIsPrefix(image.predictions, low, high, classId);
  }

  lemma {:induction false} StableIsConsistentUpTo(images: seq<Image>, low: real, high: real, classId: nat, n: nat)
    requires low <= high && n <= |images|
    ensures ConsistentUpTo(StableIndices, images, low, high, classId, n)
    decreases n
  {
    if n > 0 {
      StableIsConsistentUpTo(images, low, high, classId, n - 1);
      StableIsConsistent(images[n - 1], low, high, classId);
    }
  }

  function Plus(a: Counts, b: Counts): Counts {
    Counts(a.tp + b.tp, a.fp + b.fp, a.fn + b.fn)
  }

  function Sum(counts: seq<Counts>): Counts {
    if counts == [] then Counts(0, 0, 0) else Plus(Sum(counts[..|counts| - 1]), counts[|counts| - 1])
  }

  lemma {:induction false} SumOfPrefix(counts: seq<Counts>, n: nat)
    requires 0 < n <= |counts|
    ensures Sum(counts[..n]) == Plus(Sum(counts[..n - 1]), counts[n - 1])
  {
    assert counts[..n][..n - 1] == counts[..n - 1];
  }

  lemma {:induction false} SumOfAll(counts: seq<Counts>)
    ensures Sum(counts[..|counts|]) == Sum(counts)
  {
    assert counts[..|counts|] == counts;
  }

  /** One tally for each of the first `n` images. */
  ghost predicate TalliedUpTo(
      counts: seq<Counts>, argsort: Argsort, images: seq<Image>, threshold: real, classId: nat, n: nat)
    requires n <= |counts| && n <= |images|
  {
    n > 0 ==>
      && TalliedUpTo(counts, argsort, images, threshold, classId, n - 1)
      && Scored(counts[n - 1], argsort, images[n - 1], threshold, classId)
  }

  ghost predicate Tallied(counts: seq<Counts>, argsort: Argsort, images: seq<Image>, threshold: real, classId: nat) {
    |counts| == |images| && TalliedUpTo(counts, argsort, images, threshold, classId, |images|)
  }

  lemma {:induction false} TalliedGrows(
      counts: seq<Counts>, one: Counts, argsort: Argsort, images: seq<Image>, threshold: real, classId: nat, n: nat)
    requires n <= |counts| && n <= |images| && TalliedUpTo(counts, argsort, images, threshold, classId, n)
    ensures TalliedUpTo(counts + [one], argsort, images, threshold, classId, n)
    decreases n
  {
    if n > 0 {
      TalliedGrows(counts, one, argsort, images, threshold, classId, n - 1);
    }
  }

  method MatchImages(argsort: Argsort, images: seq<Image>, threshold: real, classId: nat)
    returns (counts: seq<Counts>)
    requires Sorts(argsort)
    ensures Tallied(counts, argsort, images, threshold, classId)
  {
    counts := [];
    for i := 0 to |images|
      invariant |counts| == i && TalliedUpTo(counts, argsort, images, threshold, classId, i)
    {
      var one := MatchImage(argsort, images[i], threshold, classId);
      TalliedGrows(counts, one, argsort, images, threshold, classId, i);
      counts := counts + [one];
    }
  }

  /** All predictions of a class at or over the threshold. */
  function Candidates(images: seq<Image>, threshold: real, classId: nat): nat {
    if images == [] then 0
    else Candidates(images[..|images| - 1], threshold, classId)
         + |Above(images[|images| - 1].predictions, threshold, classId)|
  }

  /** All of its ground truth. */
  function GroundTruths(images: seq<Image>, classId: nat): nat {
    if images == [] then 0
    else GroundTruths(images[..|images| - 1], classId) + |TruthBoxes(images[|images| - 1].truths, classId)|
  }

  lemma {:induction false} ScoredAccounts(
      counts: Counts, argsort: Argsort, image: Image, threshold: real, classId: nat)
    requires Sorts(argsort) && Scored(counts, argsort, image, threshold, classId)
    ensures counts.tp + counts.fp == |Above(image.predictions, threshold, classId)|
    ensures counts.tp + counts.fn == |TruthBoxes(image.truths, classId)|
  {
    var predictions := Above(image.predictions, threshold, classId);
    OrderedIsArranged(argsort, predictions);
    SameElements(Ordered(argsort, predictions), predictions);
  }

  /** Over all images every prediction and every ground truth is counted once. */
  lemma {:induction false} TotalsAccount(
      counts: seq<Counts>, argsort: Argsort, images: seq<Image>, threshold: real, classId: nat, n: nat)
    requires Sorts(argsort) && n <= |images| == |counts| && TalliedUpTo(counts, argsort, images, threshold, classId, n)
    ensures Sum(counts[..n]).tp + Sum(counts[..n]).fp == Candidates(images[..n], threshold, classId)
    ensures Sum(counts[..n]).tp + Sum(counts[..n]).fn == GroundTruths(images[..n], classId)
    decreases n
  {
    if n > 0 {
      TotalsAccount(counts, argsort, images, threshold, classId, n - 1);
      ScoredAccounts(counts[n - 1], argsort, images[n - 1], threshold, classId);
      SumOfPrefix(counts, n);
      assert images[..n][..n - 1] == images[..n - 1];
    }
  }

  /** The totals of one class. */
  method Summarize(argsort: Argsort, images: seq<Image>, threshold: real, classId: nat) returns (total: Counts)
    requires Sorts(argsort)
    ensures exists counts :: Tallied(counts, argsort, images, threshold, classId) && total == Sum(counts)
    ensures total.tp + total.fp == Candidates(images, threshold, classId)
    ensures total.tp + total.fn == GroundTruths(images, classId)
  {
    var counts := MatchImages(argsort, images, threshold, classId);
    total := Sum(counts);
    TotalsAccount(counts, argsort, images, threshold, classId, |images|);
    SumOfAll(counts);
    assert images[..|images|] == images;
  }

  function Recall(total: Counts): real {
    total.tp as real / (if total.tp + total.fn > 0 then total.tp + total.fn else 1) as real
  }

  /** The recall is the share of the ground truth that was found, and none of nothing. */
  lemma {:induction false} RecallIsShare(total: Counts)
    ensures 0.0 <= Recall(total) <= 1.0
    ensures total.tp + total.fn > 0 ==> Recall(total) * (total.tp + total.fn) as real == total.tp as real
    ensures Recall(total) == 0.0 <==> total.tp == 0
    ensures Recall(total) == 1.0 <==> total.tp > 0 && total.fn == 0
  {
    var d := (if total.tp + total.fn > 0 then total.tp + total.fn else 1) as real;
    QuotientsInOrder(0.0, total.tp as real, d);
    QuotientsInOrder(total.tp as real, d, d);
    assert Recall(total) * d == total.tp as real;
  }

  /** As the threshold rises: no more positives, no fewer misses, the same truths. */
  predicate Lower(atLow: Counts, atHigh: Counts) {
    atHigh.tp <= atLow.tp && atHigh.fp <= atLow.fp && atHigh.tp + atHigh.fn == atLow.tp + atLow.fn
  }

  lemma {:induction false} ScoresAreMonotone(
      argsort: Argsort, image: Image, low: real, high: real, classId: nat, atLow: Counts, atHigh: Counts)
    requires Sorts(argsort) && low <= high && Consistent(argsort, image, low, high, classId)
    requires Scored(atLow, argsort, image, low, classId) && Scored(atHigh, argsort, image, high, classId)
    ensures Lower(atLow, atHigh)
  {
    var a, b := Above(image.predictions, low, classId), Above(image.predictions, high, classId);
    OrderedIsArranged(argsort, a);
    OrderedIsArranged(argsort, b);
    SweepIsMonotone(Iou, image.predictions, low, high, classId, Ordered(argsort, a), Ordered(argsort, b),
                    TruthBoxes(image.truths, classId), atLow, atHigh);
  }

  lemma {:induction false} TalliesAreLower(
      argsort: Argsort, images: seq<Image>, low: real, high: real, classId: nat,
      atLow: seq<Counts>, atHigh: seq<Counts>, n: nat)
    requires Sorts(argsort) && low <= high && n <= |images| == |atLow| == |atHigh|
    requires ConsistentUpTo(argsort, images, low, high, classId, n)
    requires TalliedUpTo(atLow, argsort, images, low, classId, n)
    requires TalliedUpTo(atHigh, argsort, images, high, classId, n)
    ensures Lower(Sum(atLow[..n]), Sum(atHigh[..n]))
    decreases n
  {
    if n > 0 {
      TalliesAreLower(argsort, images, low, high, classId, atLow, atHigh, n - 1);
      SumOfPrefix(atLow, n);
      SumOfPrefix(atHigh, n);
      ScoresAreMonotone(argsort, images[n - 1], low, high, classId, atLow[n - 1], atHigh[n - 1]);
    }
  }

  /** The totals over any images are monotone, and so is the recall, if the sort arranges the ties
      of each image alike. */
  lemma {:induction false} TotalsAreMonotone(
      argsort: Argsort, images: seq<Image>, low: real, high: real, classId: nat,
      atLow: seq<Counts>, atHigh: seq<Counts>)
    requires Sorts(argsort) && low <= high
    requires ConsistentUpTo(argsort, images, low, high, classId, |images|)
    requires Tallied(atLow, argsort, images, low, classId) && Tallied(atHigh, argsort, images, high, classId)
    ensures Lower(Sum(atLow), Sum(atHigh)) && Recall(Sum(atHigh)) <= Recall(Sum(atLow))
  {
    TalliesAreLower(argsort, images, low, high, classId, atLow, atHigh, |images|);
    SumOfAll(atLow);
    SumOfAll(atHigh);
    RecallRises(Sum(atHigh), Sum(atLow));
  }

  /** For a stable sort they are monotone for all images, ties or not. */
  lemma {:induction false} StableTotalsAreMonotone(
      images: seq<Image>, low: real, high: real, classId: nat, atLow: seq<Counts>, atHigh: seq<Counts>)
    requires low <= high
    requires Tallied(atLow, StableIndices, images, low, classId)
    requires Tallied(atHigh, StableIndices, images, high, classId)
    ensures Lower(Sum(atLow), Sum(atHigh)) && Recall(Sum(atHigh)) <= Recall(Sum(atLow))
  {
    StableSorts();
    StableIsConsistentUpTo(images, low, high, classId, |images|);
    TotalsAreMonotone(StableIndices, images, low, high, classId, atLow, atHigh);
  }

  lemma {:induction false} RecallRises(a: Counts, b: Counts)
    requires a.tp <= b.tp && a.tp + a.fn == b.tp + b.fn
    ensures Recall(a) <= Recall(b)
  {
    var d := if a.tp + a.fn > 0 then a.tp + a.fn else 1;
    QuotientsInOrder(a.tp as real, b.tp as real, d as real);
  }

  lemma {:induction false} QuotientsInOrder(x: real, y: real, d: real)
    requires x <= y && d > 0.0
    ensures x / d <= y / d
  {
    assert (y / d - x / d) * d == y - x;
    NonNegativeFactor(y / d - x / d, d);
  }
}
