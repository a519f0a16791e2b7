/** Greedy one-to-one matching of predictions to ground truth at IoU one half, and the counts a
    confidence sweep takes from it. */
module Matching {
  import opened Sorting
  import opened Boxes

  datatype Prediction = Prediction(box: Box, score: real, classId: nat)

  datatype Truth = Truth(box: Box, classId: nat)

  datatype Image = Image(predictions: seq<Prediction>, truths: seq<Truth>)

  datatype Counts = Counts(tp: nat, fp: nat, fn: nat)

  function Above(predictions: seq<Prediction>, threshold: real, classId: nat): seq<Prediction> {
    if predictions == [] then []
    else
      var rest := Above(predictions[1..], threshold, classId);
      if predictions[0].classId == classId && predictions[0].score >= threshold then [predictions[0]] + rest
      else rest
  }

  function TruthBoxes(truths: seq<Truth>, classId: nat): seq<Box> {
    if truths == [] then []
    else
      var rest := TruthBoxes(truths[1..], classId);
      if truths[0].classId == classId then [truths[0].box] + rest else rest
  }

  /** The mask takes exactly the class's predictions at or over the threshold, each as often as it
      is there. */
  lemma {:induction false} AboveTakesExactly(predictions: seq<Prediction>, threshold: real, classId: nat)
    ensures forall p :: multiset(Above(predictions, threshold, classId))[p] ==
                        if p.classId == classId && p.score >= threshold then multiset(predictions)[p] else 0
  {
    if predictions != [] {
      AboveTakesExactly(predictions[1..], threshold, classId);
      assert predictions == [predictions[0]] + predictions[1..];
    }
  }

  lemma {:induction false} Regrouped<T>(a: seq<T>, b: seq<T>, c: seq<T>)
    ensures a + (b + c) == a + b + c
  {
  }

  lemma {:induction false} AboveOne(p: Prediction, threshold: real, classId: nat)
    ensures Above([p], threshold, classId) == if p.classId == classId && p.score >= threshold then [p] else []
  {
    assert [p][1..] == [];
  }

  lemma {:induction false} AboveSplits(predictions: seq<Prediction>, threshold: real, classId: nat)
    requires predictions != []
    ensures Above(predictions, threshold, classId)
         == Above([predictions[0]], threshold, classId) + Above(predictions[1..], threshold, classId)
  {
    AboveOne(predictions[0], threshold, classId);
  }

  /** It keeps the order: what is taken of a whole is what is taken of its parts, one after another. */
  lemma {:induction false} AboveKeepsOrder(a: seq<Prediction>, b: seq<Prediction>, threshold: real, classId: nat)
    ensures Above(a + b, threshold, classId) == Above(a, threshold, classId) + Above(b, threshold, classId)
  {
    if a == [] {
      assert a + b == b;
    } else {
      AboveKeepsOrder(a[1..], b, threshold, classId);
      AboveSplits(a, threshold, classId);
      AboveSplits(a + b, threshold, classId);
      assert (a + b)[1..] == a[1..] + b && (a + b)[0] == a[0];
      Regrouped(Above([a[0]], threshold, classId), Above(a[1..], threshold, classId), Above(b, threshold, classId));
    }
  }

  /** The boxes of exactly the class's ground truth, each as often as it is there. */
  lemma {:induction false} TruthBoxesTakesExactly(truths: seq<Truth>, classId: nat)
    ensures forall box :: multiset(TruthBoxes(truths, classId))[box] == multiset(truths)[Truth(box, classId)]
  {
    if truths != [] {
      TruthBoxesTakesExactly(truths[1..], classId);
      assert truths == [truths[0]] + truths[1..];
    }
  }

  lemma {:induction false} TruthBoxesSplits(truths: seq<Truth>, classId: nat)
    requires truths != []
    ensures TruthBoxes(truths, classId) == TruthBoxes([truths[0]], classId) + TruthBoxes(truths[1..], classId)
  {
    assert [truths[0]][1..] == [];
  }

  lemma {:induction false} TruthBoxesKeepsOrder(a: seq<Truth>, b: seq<Truth>, classId: nat)
    ensures TruthBoxes(a + b, classId) == TruthBoxes(a, classId) + TruthBoxes(b, classId)
  {
    if a == [] {
      assert a + b == b;
    } else {
      TruthBoxesKeepsOrder(a[1..], b, classId);
      TruthBoxesSplits(a, classId);
      TruthBoxesSplits(a + b, classId);
      assert (a + b)[1..] == a[1..] + b && (a + b)[0] == a[0];
      Regrouped(TruthBoxes([a[0]], classId), TruthBoxes(a[1..], classId), TruthBoxes(b, classId));
    }
  }

  predicate ScoreLe(a: Prediction, b: Prediction) {
    a.score >= b.score
  }

  /** An arrangement by descending score. */
  ghost predicate Arranged(ordered: seq<Prediction>, predictions: seq<Prediction>) {
    multiset(ordered) == multiset(predictions) && Sorted(ordered, ScoreLe)
  }

  /** `argsort` of the negated scores: some function of the scores alone. */
  type Argsort = seq<real> -> seq<nat>

  predicate NoLower(scores: seq<real>, a: nat, b: nat) {
    a < |scores| && b < |scores| && scores[a] >= scores[b]
  }

  /** The indices of all scores, the highest first. */
  ghost predicate Argsorted(order: seq<nat>, scores: seq<real>) {
    && InRange(order, |scores|)
    && multiset(order) == multiset(Indices(|scores|))
    && forall i, j :: 0 <= i < j < |order| ==> NoLower(scores, order[i], order[j])
  }

  ghost predicate Sorts(argsort: Argsort) {
    forall scores :: Argsorted(argsort(scores), scores)
  }

  function Scores(predictions: seq<Prediction>): seq<real> {
    seq(|predictions|, i requires 0 <= i < |predictions| => predictions[i].score)
  }

  /** The processing order. With a sort no index is out of range. */
  function Ordered(argsort: Argsort, predictions: seq<Prediction>): seq<Prediction> {
    var order := argsort(Scores(predictions));
    if InRange(order, |predictions|) then Pick(predictions, order) else []
  }

  lemma {:induction false} OrderedIsArranged(argsort: Argsort, predictions: seq<Prediction>)
    requires Sorts(argsort)
    ensures Arranged(Ordered(argsort, predictions), predictions)
  {
    var order := argsort(Scores(predictions));
    assert Argsorted(order, Scores(predictions));
    PickAt(predictions, order);
    forall i, j | 0 <= i < j < |order|
      ensures predictions[order[i]].score >= predictions[order[j]].score
    {
      assert NoLower(Scores(predictions), order[i], order[j]);
    }
    PickRearranged(predictions, order, Indices(|predictions|));
    PickIndices(predictions);
  }

  /** How two boxes overlap. The greedy algorithm and its guarantees need no property of the
      measure; the source's is Boxes.Iou. */
  type Measure = (Box, Box) -> real

  predicate Overlaps(iou: Measure, a: Box, b: Box) {
    iou(a, b) >= 0.5
  }

  // ---------------------------------------------------------------------------------------
  // The greedy choice

  function Range(n: nat): (r: set<nat>)
    ensures forall g: nat :: g in r <==> g < n
    ensures |r| == n
  {
    if n == 0 then {} else Range(n - 1) + {n - 1}
  }

  /** The best remaining ground truth; the first of equal ones. */
  predicate IsBest(iou: Measure, box: Box, truths: seq<Box>, unmatched: set<nat>, best: nat) {
    && best in unmatched && best < |truths|
    && (forall g :: g in unmatched && g < |truths| ==>
          iou(box, truths[g]) <= iou(box, truths[best])
          && (g < best ==> iou(box, truths[g]) < iou(box, truths[best])))
  }

  lemma {:induction false} BestUnique(
      iou: Measure, box: Box, truths: seq<Box>, unmatched: set<nat>, a: nat, b: nat)
    requires IsBest(iou, box, truths, unmatched, a) && IsBest(iou, box, truths, unmatched, b)
    ensures a == b
  {
  }

  predicate Remaining(truths: seq<Box>, unmatched: set<nat>) {
    forall g :: g in unmatched ==> g < |truths|
  }

  lemma {:induction false} BestExists(iou: Measure, box: Box, truths: seq<Box>, unmatched: set<nat>)
    requires unmatched != {} && Remaining(truths, unmatched)
    ensures exists best :: IsBest(iou, box, truths, unmatched, best)
    decreases |unmatched|
  {
    var g: nat :| g in unmatched;
    var others := unmatched - {g};
    assert unmatched == others + {g};
    if others == {} {
      assert IsBest(iou, box, truths, unmatched, g);
    } else {
      BestExists(iou, box, truths, others);
      var best: nat :| IsBest(iou, box, truths, others, best);
      var mine, theirs := iou(box, truths[g]), iou(box, truths[best]);
      assert IsBest(iou, box, truths, unmatched, if mine > theirs || (mine == theirs && g < best) then g else best);
    }
  }

  ghost function Best(iou: Measure, box: Box, truths: seq<Box>, unmatched: set<nat>): (best: nat)
    requires unmatched != {} && Remaining(truths, unmatched)
    ensures IsBest(iou, box, truths, unmatched, best)
  {
    BestExists(iou, box, truths, unmatched);
    var best: nat :| IsBest(iou, box, truths, unmatched, best);
    best
  }

  /** The pairs so far, prediction index to ground-truth index, and the ground truths left. */
  datatype Progress = Progress(pairs: map<nat, nat>, unmatched: set<nat>)

  /** One prediction's turn: it takes the best remaining ground truth if that overlaps enough. */
  ghost function Turn(iou: Measure, before: Progress, p: nat, box: Box, truths: seq<Box>): Progress
    requires Remaining(truths, before.unmatched)
  {
    if before.unmatched == {} then before
    else
      var best := Best(iou, box, truths, before.unmatched);
      if Overlaps(iou, box, truths[best]) then Progress(before.pairs[p := best], before.unmatched - {best}) else before
  }

  /** After the first `n` predictions in processing order. */
  ghost function Greedy(iou: Measure, ordered: seq<Prediction>, truths: seq<Box>, n: nat): (r: Progress)
    requires n <= |ordered|
    ensures Remaining(truths, r.unmatched)
  {
    if n == 0 then Progress(map[], Range(|truths|))
    else Turn(iou, Greedy(iou, ordered, truths, n - 1), n - 1, ordered[n - 1].box, truths)
  }

  // ---------------------------------------------------------------------------------------
  // One-to-one matchings

  ghost predicate IsMatching(iou: Measure, m: map<nat, nat>, ordered: seq<Prediction>, truths: seq<Box>) {
    && (forall p :: p in m ==> p < |ordered| && m[p] < |truths| && Overlaps(iou, ordered[p].box, truths[m[p]]))
    && (forall p, q :: p in m && q in m && p != q ==> m[p] != m[q])
  }

  /** Every overlapping pair of the first `n` has a taken side. */
  ghost predicate Maximal(iou: Measure, m: map<nat, nat>, ordered: seq<Prediction>, truths: seq<Box>, n: nat)
    requires n <= |ordered|
  {
    forall p: nat, g: nat :: p < n && g < |truths| && Overlaps(iou, ordered[p].box, truths[g]) ==>
      p in m || g in m.Values
  }

  lemma {:induction false} ValuesGrow(pairs: map<nat, nat>, p: nat, g: nat)
    requires p !in pairs
    ensures pairs[p := g].Values == pairs.Values + {g}
  {
    var now := pairs[p := g];
    assert now[p] == g;
    forall q | q in pairs
      ensures now[q] == pairs[q]
    {
    }
  }

  lemma {:induction false} AddPair(
      iou: Measure, m: map<nat, nat>, p: nat, g: nat, ordered: seq<Prediction>, truths: seq<Box>)
    requires p < |ordered| && IsMatching(iou, m, ordered, truths) && Maximal(iou, m, ordered, truths, p)
    requires p !in m && g < |truths| && g !in m.Values
    requires Overlaps(iou, ordered[p].box, truths[g])
    ensures IsMatching(iou, m[p := g], ordered, truths) && Maximal(iou, m[p := g], ordered, truths, p + 1)
  {
    ValuesGrow(m, p, g);
    forall q | q in m
      ensures m[q] != g
    {
      assert m[q] in m.Values;
    }
  }

  lemma {:induction false} SkipPrediction(
      iou: Measure, m: map<nat, nat>, p: nat, ordered: seq<Prediction>, truths: seq<Box>)
    requires p < |ordered| && Maximal(iou, m, ordered, truths, p)
    requires forall g: nat :: g < |truths| && Overlaps(iou, ordered[p].box, truths[g]) ==> g in m.Values
    ensures Maximal(iou, m, ordered, truths, p + 1)
  {
  }

  /** A maximal matching of the first `n` predictions, with the rest of the ground truth. */
  ghost predicate Sound(iou: Measure, s: Progress, ordered: seq<Prediction>, truths: seq<Box>, n: nat)
    requires n <= |ordered|
  {
    && IsMatching(iou, s.pairs, ordered, truths)
    && Maximal(iou, s.pairs, ordered, truths, n)
    && (forall p :: p in s.pairs ==> p < n)
    && (forall g: nat :: g in s.unmatched <==> g < |truths| && g !in s.pairs.Values)
  }

  lemma {:induction false} TurnKeeps(
      iou: Measure, before: Progress, now: Progress, ordered: seq<Prediction>, truths: seq<Box>, n: nat)
    requires 0 < n <= |ordered| && Sound(iou, before, ordered, truths, n - 1) && Remaining(truths, before.unmatched)
    requires now == Turn(iou, before, n - 1, ordered[n - 1].box, truths)
    ensures Sound(iou, now, ordered, truths, n)
  {
    var p := n - 1;
    if now == before {
      forall g: nat | g < |truths| && Overlaps(iou, ordered[p].box, truths[g])
        ensures g in before.pairs.Values
      {
      }
      SkipPrediction(iou, before.pairs, p, ordered, truths);
    } else {
      AddPair(iou, before.pairs, p, now.pairs[p], ordered, truths);
      ValuesGrow(before.pairs, p, now.pairs[p]);
    }
  }

  lemma {:induction false} NothingMatched(iou: Measure, ordered: seq<Prediction>, truths: seq<Box>)
    ensures Sound(iou, Progress(map[], Range(|truths|)), ordered, truths, 0)
  {
  }

  lemma {:induction false} GreedyIsSound(iou: Measure, ordered: seq<Prediction>, truths: seq<Box>, n: nat)
    requires n <= |ordered|
    ensures Sound(iou, Greedy(iou, ordered, truths, n), ordered, truths, n)
  {
    if n == 0 {
      NothingMatched(iou, ordered, truths);
    } else {
      GreedyIsSound(iou, ordered, truths, n - 1);
      TurnKeeps(iou, Greedy(iou, ordered, truths, n - 1), Greedy(iou, ordered, truths, n), ordered, truths, n);
    }
  }

  /** No earlier prediction has this ground truth. */
  predicate FreeFor(m: map<nat, nat>, p: nat, g: nat) {
    forall q :: q in m && q < p ==> m[q] != g
  }

  /** The prediction has the best of the ground truths that the earlier ones have left, the first of
      equal ones, and it has none exactly if none of those overlaps it by half. */
  predicate Prefers(iou: Measure, m: map<nat, nat>, p: nat, box: Box, truths: seq<Box>) {
    if p in m then
      && m[p] < |truths| && FreeFor(m, p, m[p]) && iou(box, truths[m[p]]) >= 0.5
      && forall g: nat :: g < |truths| && FreeFor(m, p, g) ==>
           iou(box, truths[g]) <= iou(box, truths[m[p]])
           && (g < m[p] ==> iou(box, truths[g]) < iou(box, truths[m[p]]))
    else forall g: nat :: g < |truths| && FreeFor(m, p, g) ==> iou(box, truths[g]) < 0.5
  }

  /** So do the first `n` predictions, and no other is matched. */
  ghost predicate ByPreference(iou: Measure, m: map<nat, nat>, ordered: seq<Prediction>, truths: seq<Box>, n: nat)
    requires n <= |ordered|
  {
    && (forall p :: p in m ==> p < n)
    && (forall p: nat :: p < n ==> Prefers(iou, m, p, ordered[p].box, truths))
  }

  predicate AgreeBefore(a: map<nat, nat>, b: map<nat, nat>, n: nat) {
    forall q: nat :: q < n ==> (q in a <==> q in b) && (q in a ==> a[q] == b[q])
  }

  lemma {:induction false} FreeLooksBack(a: map<nat, nat>, b: map<nat, nat>, p: nat)
    requires AgreeBefore(a, b, p)
    ensures forall g: nat :: FreeFor(a, p, g) <==> FreeFor(b, p, g)
  {
  }

  lemma {:induction false} PrefersLooksBack(
      iou: Measure, a: map<nat, nat>, b: map<nat, nat>, p: nat, box: Box, truths: seq<Box>)
    requires AgreeBefore(a, b, p + 1) && Prefers(iou, a, p, box, truths)
    ensures Prefers(iou, b, p, box, truths)
  {
    FreeLooksBack(a, b, p);
  }

  ghost predicate LeavesFree(s: Progress, truths: seq<Box>, p: nat) {
    forall g: nat :: g < |truths| ==> (g in s.unmatched <==> FreeFor(s.pairs, p, g))
  }

  lemma {:induction false} FreeIsUnmatched(iou: Measure, ordered: seq<Prediction>, truths: seq<Box>, n: nat)
    requires n <= |ordered|
    ensures LeavesFree(Greedy(iou, ordered, truths, n), truths, n)
  {
    GreedyIsSound(iou, ordered, truths, n);
    var pairs := Greedy(iou, ordered, truths, n).pairs;
    forall g: nat | g < |truths| && FreeFor(pairs, n, g)
      ensures g !in pairs.Values
    {
    }
  }

  lemma {:induction false} TurnPrefers(iou: Measure, before: Progress, p: nat, box: Box, truths: seq<Box>)
    requires Remaining(truths, before.unmatched) && p !in before.pairs
    requires LeavesFree(before, truths, p)
    ensures var now := Turn(iou, before, p, box, truths).pairs;
      AgreeBefore(before.pairs, now, p) && Prefers(iou, now, p, box, truths)
  {
    var now := Turn(iou, before, p, box, truths).pairs;
    assert AgreeBefore(before.pairs, now, p);
    FreeLooksBack(before.pairs, now, p);
  }

  lemma {:induction false} PreferenceExtends(
      iou: Measure, before: Progress, now: Progress, ordered: seq<Prediction>, truths: seq<Box>, n: nat)
    requires n < |ordered| && ByPreference(iou, before.pairs, ordered, truths, n)
    requires Remaining(truths, before.unmatched) && LeavesFree(before, truths, n)
    requires now == Turn(iou, before, n, ordered[n].box, truths)
    ensures ByPreference(iou, now.pairs, ordered, truths, n + 1)
  {
    TurnPrefers(iou, before, n, ordered[n].box, truths);
    forall p: nat | p < n
      ensures Prefers(iou, now.pairs, p, ordered[p].box, truths)
    {
      PrefersLooksBack(iou, before.pairs, now.pairs, p, ordered[p].box, truths);
    }
  }

  /** The greedy pairs are by preference. */
  lemma {:induction false} GreedyByPreference(iou: Measure, ordered: seq<Prediction>, truths: seq<Box>, n: nat)
    requires n <= |ordered|
    ensures ByPreference(iou, Greedy(iou, ordered, truths, n).pairs, ordered, truths, n)
  {
    if n > 0 {
      var before, now := Greedy(iou, ordered, truths, n - 1), Greedy(iou, ordered, truths, n);
      GreedyByPreference(iou, ordered, truths, n - 1);
      FreeIsUnmatched(iou, ordered, truths, n - 1);
      PreferenceExtends(iou, before, now, ordered, truths, n - 1);
    }
  }

  /** And no other pairs are. */
  lemma {:induction false} PreferenceIsUnique(
      iou: Measure, a: map<nat, nat>, b: map<nat, nat>, ordered: seq<Prediction>, truths: seq<Box>, n: nat, p: nat)
    requires n <= |ordered| && ByPreference(iou, a, ordered, truths, n) && ByPreference(iou, b, ordered, truths, n)
    requires p <= n
    ensures AgreeBefore(a, b, p)
  {
    if p > 0 {
      PreferenceIsUnique(iou, a, b, ordered, truths, n, p - 1);
      FreeLooksBack(a, b, p - 1);
      assert Prefers(iou, a, p - 1, ordered[p - 1].box, truths) && Prefers(iou, b, p - 1, ordered[p - 1].box, truths);
    }
  }

  /** Pairs of all predictions are the greedy ones exactly if they are by preference. */
  lemma {:induction false} GreedyIff(iou: Measure, m: map<nat, nat>, ordered: seq<Prediction>, truths: seq<Box>)
    ensures m == Greedy(iou, ordered, truths, |ordered|).pairs <==> ByPreference(iou, m, ordered, truths, |ordered|)
  {
    var greedy := Greedy(iou, ordered, truths, |ordered|).pairs;
    GreedyByPreference(iou, ordered, truths, |ordered|);
    if ByPreference(iou, m, ordered, truths, |ordered|) {
      PreferenceIsUnique(iou, m, greedy, ordered, truths, |ordered|, |ordered|);
      assert m.Keys == greedy.Keys;
    }
  }

  lemma {:induction false} InjectiveSizes(m: map<nat, nat>)
    requires forall p, q :: p in m && q in m && p != q ==> m[p] != m[q]
    ensures |m.Values| == |m|
    decreases |m|
  {
    if m != map[] {
      var p :| p in m;
      var rest := m - {p};
      InjectiveSizes(rest);
      assert m.Keys == rest.Keys + {p};
      assert m.Values == rest.Values + {m[p]} by {
        forall v | v in m.Values
          ensures v in rest.Values + {m[p]}
        {
          var q :| q in m && m[q] == v;
          if q != p {
            assert rest[q] == v;
          }
        }
        assert forall q :: q in rest ==> m[q] == rest[q];
      }
      assert forall q :: q in rest ==> rest[q] != m[p];
    }
  }

  /** A maximal matching is at least half as large as any other. */
  lemma {:induction false} HalfOfAny(
      iou: Measure, greedy: map<nat, nat>, other: map<nat, nat>, ordered: seq<Prediction>, truths: seq<Box>)
    requires IsMatching(iou, greedy, ordered, truths) && Maximal(iou, greedy, ordered, truths, |ordered|)
    requires IsMatching(iou, other, ordered, truths)
    ensures |other| <= 2 * |greedy|
  {
    var byPrediction := set p | p in other && p in greedy;
    var byTruth := map p | p in other && p !in greedy :: other[p];
    assert other.Keys == byPrediction + byTruth.Keys && byPrediction !! byTruth.Keys;
    SubsetAtMost(byPrediction, greedy.Keys);
    Leftovers(iou, greedy, other, ordered, truths);
    InjectiveAtMost(byTruth, greedy);
  }

  /** A pair whose prediction is not matched has its ground truth matched. */
  lemma {:induction false} Leftovers(
      iou: Measure, greedy: map<nat, nat>, other: map<nat, nat>, ordered: seq<Prediction>, truths: seq<Box>)
    requires Maximal(iou, greedy, ordered, truths, |ordered|) && IsMatching(iou, other, ordered, truths)
    ensures forall p :: p in other && p !in greedy ==> other[p] in greedy.Values
  {
    forall p | p in other && p !in greedy
      ensures other[p] in greedy.Values
    {
      assert Overlaps(iou, ordered[p].box, truths[other[p]]);
    }
  }

  lemma {:induction false} InjectiveAtMost(a: map<nat, nat>, b: map<nat, nat>)
    requires forall p, q :: p in a && q in a && p != q ==> a[p] != a[q]
    requires forall p, q :: p in b && q in b && p != q ==> b[p] != b[q]
    requires forall p :: p in a ==> a[p] in b.Values
    ensures |a.Keys| <= |b.Keys|
  {
    InjectiveSizes(a);
    InjectiveSizes(b);
    SubsetAtMost(a.Values, b.Values);
  }

  /** The first prediction prefers the only ground truth that the second could use. */
  lemma {:induction false} Crossed(iou: Measure, a: Prediction, b: Prediction, g: Box, h: Box)
    requires iou(a.box, g) > iou(a.box, h) >= 0.5 && iou(b.box, g) >= 0.5 > iou(b.box, h)
    ensures |Greedy(iou, [a, b], [g, h], 2).pairs| == 1
    ensures IsMatching(iou, map[0 := 1, 1 := 0], [a, b], [g, h])
  {
    var ordered, truths := [a, b], [g, h];
    var start := Progress(map[], Range(2));
    assert start.unmatched == {0, 1};
    assert IsBest(iou, a.box, truths, start.unmatched, 0);
    BestUnique(iou, a.box, truths, start.unmatched, 0, Best(iou, a.box, truths, start.unmatched));
    var first := Turn(iou, start, 0, a.box, truths);
    assert first == Progress(map[0 := 0], {1});
    assert first == Greedy(iou, ordered, truths, 1);
    assert Best(iou, b.box, truths, first.unmatched) == 1;
    assert Turn(iou, first, 1, b.box, truths) == first;
  }

  /** The second prediction of `Crossed` first: both find a partner. */
  lemma {:induction false} Uncrossed(iou: Measure, a: Prediction, b: Prediction, g: Box, h: Box)
    requires iou(a.box, g) > iou(a.box, h) >= 0.5 && iou(b.box, g) >= 0.5 > iou(b.box, h)
    ensures |Greedy(iou, [b, a], [g, h], 2).pairs| == 2
  {
    var ordered, truths := [b, a], [g, h];
    var start := Progress(map[], Range(2));
    assert start.unmatched == {0, 1};
    assert IsBest(iou, b.box, truths, start.unmatched, 0);
    BestUnique(iou, b.box, truths, start.unmatched, 0, Best(iou, b.box, truths, start.unmatched));
    var first := Turn(iou, start, 0, b.box, truths);
    assert first == Progress(map[0 := 0], {1});
    assert first == Greedy(iou, ordered, truths, 1);
    assert Best(iou, a.box, truths, first.unmatched) == 1;
    assert Turn(iou, first, 1, a.box, truths).pairs == map[0 := 0, 1 := 1];
  }

  const WHOLE := Box(0.0, 0.0, 10.0, 1.0)
  const LEFT := Box(0.0, 0.0, 6.0, 1.0)
  const RIGHT := Box(4.0, 0.0, 10.0, 1.0)

  lemma {:induction false} CrossedOverlaps()
    ensures Iou(WHOLE, WHOLE) == 1.0 && Iou(WHOLE, LEFT) == 0.6
    ensures Iou(RIGHT, WHOLE) == 0.6 && Iou(RIGHT, LEFT) == 0.2
  {
  }

  /** Half is the best possible guarantee for the source's measure. */
  lemma {:induction false} HalfIsTight()
    ensures exists ordered, truths, other ::
      && Sorted(ordered, ScoreLe) && IsMatching(Iou, other, ordered, truths)
      && |other| == 2 * |Greedy(Iou, ordered, truths, |ordered|).pairs| == 2
  {
    CrossedOverlaps();
    var a, b := Prediction(WHOLE, 0.9, 0), Prediction(RIGHT, 0.8, 0);
    Crossed(Iou, a, b, WHOLE, LEFT);
    var other: map<nat, nat> := map[0 := 1, 1 := 0];
    assert other.Keys == {0, 1};
    assert |other| == 2;
    assert Sorted([a, b], ScoreLe);
  }

  lemma {:induction false} GreedyLooksBack(
      iou: Measure, shorter: seq<Prediction>, longer: seq<Prediction>, truths: seq<Box>, n: nat)
    requires shorter <= longer && n <= |shorter|
    ensures Greedy(iou, shorter, truths, n) == Greedy(iou, longer, truths, n)
  {
    if n > 0 {
      GreedyLooksBack(iou, shorter, longer, truths, n - 1);
      assert shorter[n - 1] == longer[n - 1];
    }
  }

  lemma {:induction false} TurnAdds(iou: Measure, ordered: seq<Prediction>, truths: seq<Box>, n: nat)
    requires 0 < n <= |ordered|
    ensures |Greedy(iou, ordered, truths, n - 1).pairs| <= |Greedy(iou, ordered, truths, n).pairs|
    ensures |Greedy(iou, ordered, truths, n).pairs| <= |Greedy(iou, ordered, truths, n - 1).pairs| + 1
  {
    if Greedy(iou, ordered, truths, n - 1).unmatched != {} {
      TurnCounts(iou, ordered, truths, n - 1);
    }
  }

  /** Each further prediction adds one true or one false positive. */
  lemma {:induction false} CountsGrow(
      iou: Measure, ordered: seq<Prediction>, truths: seq<Box>, n: nat, later: nat)
    requires n <= later <= |ordered|
    ensures var a, b := |Greedy(iou, ordered, truths, n).pairs|, |Greedy(iou, ordered, truths, later).pairs|;
            a <= b && b - a <= later - n
  {
    if n < later {
      CountsGrow(iou, ordered, truths, n, later - 1);
      TurnAdds(iou, ordered, truths, later);
    }
  }

  // ---------------------------------------------------------------------------------------
  // The counts

  lemma {:induction false} MatchingFits(
      iou: Measure, m: map<nat, nat>, ordered: seq<Prediction>, truths: seq<Box>)
    requires IsMatching(iou, m, ordered, truths)
    ensures |m| <= |ordered| && |m| <= |truths|
  {
    assert forall p :: p in m.Keys ==> p in Range(|ordered|);
    SubsetAtMost(m.Keys, Range(|ordered|));
    InjectiveSizes(m);
    assert forall g :: g in m.Values ==> g in Range(|truths|);
    SubsetAtMost(m.Values, Range(|truths|));
  }

  /** Once every ground truth is taken, nothing changes: the source's `break`. */
  lemma {:induction false} NothingLeft(
      iou: Measure, ordered: seq<Prediction>, truths: seq<Box>, n: nat, later: nat)
    requires n <= later <= |ordered| && Greedy(iou, ordered, truths, n).unmatched == {}
    ensures Greedy(iou, ordered, truths, later) == Greedy(iou, ordered, truths, n)
  {
    if n < later {
      NothingLeft(iou, ordered, truths, n, later - 1);
    }
  }

  lemma {:induction false} TurnCounts(iou: Measure, ordered: seq<Prediction>, truths: seq<Box>, n: nat)
    requires n < |ordered| && Greedy(iou, ordered, truths, n).unmatched != {}
    ensures var before, now := Greedy(iou, ordered, truths, n), Greedy(iou, ordered, truths, n + 1);
      var best := Best(iou, ordered[n].box, truths, before.unmatched);
      if Overlaps(iou, ordered[n].box, truths[best]) then
        now.unmatched == before.unmatched - {best} && |now.pairs| == |before.pairs| + 1
      else now == before
  {
    GreedyIsSound(iou, ordered, truths, n);
  }

  lemma {:induction false} GreedyCounts(iou: Measure, ordered: seq<Prediction>, truths: seq<Box>)
    ensures var tp := |Greedy(iou, ordered, truths, |ordered|).pairs|;
      && tp <= |ordered| && tp <= |truths|
      && forall other :: IsMatching(iou, other, ordered, truths) ==> |other| <= 2 * tp
  {
    var greedy := Greedy(iou, ordered, truths, |ordered|).pairs;
    GreedyIsSound(iou, ordered, truths, |ordered|);
    MatchingFits(iou, greedy, ordered, truths);
    forall other | IsMatching(iou, other, ordered, truths)
      ensures |other| <= 2 * |greedy|
    {
      HalfOfAny(iou, greedy, other, ordered, truths);
    }
  }

  /** `argmax` over the candidates in ascending order. */
  method Argmax(iou: Measure, box: Box, truths: seq<Box>, unmatched: set<nat>) returns (best: nat)
    requires unmatched != {} && Remaining(truths, unmatched)
    ensures best == Best(iou, box, truths, unmatched)
  {
    var found := false;
    best := 0;
    for g: nat := 0 to |truths|
      invariant found <==> exists c :: c in unmatched && c < g
      invariant found ==> best in unmatched && best < g
      invariant found ==> forall c :: c in unmatched && c < g ==>
        iou(box, truths[c]) <= iou(box, truths[best])
        && (c < best ==> iou(box, truths[c]) < iou(box, truths[best]))
    {
      if g in unmatched && (!found || iou(box, truths[g]) > iou(box, truths[best])) {
        best, found := g, true;
      }
    }
    var c :| c in unmatched;
    BestUnique(iou, box, truths, unmatched, best, Best(iou, box, truths, unmatched));
  }

  method CountMatches(iou: Measure, ordered: seq<Prediction>, truths: seq<Box>) returns (truePositives: nat)
    ensures truePositives == |Greedy(iou, ordered, truths, |ordered|).pairs|
  {
    var unmatched := Range(|truths|);
    truePositives := 0;
    for n := 0 to |ordered|
      invariant truePositives == |Greedy(iou, ordered, truths, n).pairs|
      invariant unmatched == Greedy(iou, ordered, truths, n).unmatched
    {
      if unmatched == {} {
        NothingLeft(iou, ordered, truths, n, |ordered|);
        break;
      }
      TurnCounts(iou, ordered, truths, n);
      var best := Argmax(iou, ordered[n].box, truths, unmatched);
      if Overlaps(iou, ordered[n].box, truths[best]) {
        unmatched := unmatched - {best};
        truePositives := truePositives + 1;
      }
    }
  }

  /** What the counts of one image mean, for the processing order they were taken in. */
  ghost predicate Tally(counts: Counts, iou: Measure, ordered: seq<Prediction>, truths: seq<Box>) {
    && counts.tp == |Greedy(iou, ordered, truths, |ordered|).pairs|
    && counts.tp + counts.fp == |ordered|
    && counts.tp + counts.fn == |truths|
  }

  /** What `match_image` counts. */
  ghost predicate Scored(counts: Counts, argsort: Argsort, image: Image, threshold: real, classId: nat) {
    Tally(counts, Iou, Ordered(argsort, Above(image.predictions, threshold, classId)),
          TruthBoxes(image.truths, classId))
  }

  /** One-to-one, within half of any one-to-one matching, and every prediction and every ground
      truth counted once. */
  method MatchImage(argsort: Argsort, image: Image, threshold: real, classId: nat) returns (counts: Counts)
    requires Sorts(argsort)
    ensures Scored(counts, argsort, image, threshold, classId)
    ensures counts.tp + counts.fp == |Above(image.predictions, threshold, classId)|
    ensures counts.tp + counts.fn == |TruthBoxes(image.truths, classId)|
    ensures var ordered, truths :=
        Ordered(argsort, Above(image.predictions, threshold, classId)), TruthBoxes(image.truths, classId);
      exists pairs :: ByPreference(Iou, pairs, ordered, truths, |ordered|) && |pairs| == counts.tp
    ensures var ordered := Ordered(argsort, Above(image.predictions, threshold, classId));
      forall other :: IsMatching(Iou, other, ordered, TruthBoxes(image.truths, classId)) ==> |other| <= 2 * counts.tp
  {
    var predictions := Above(image.predictions, threshold, classId);
    var truths := TruthBoxes(image.truths, classId);
    var ordered := Ordered(argsort, predictions);
    OrderedIsArranged(argsort, predictions);
    var truePositives := CountMatches(Iou, ordered, truths);
    SameElements(ordered, predictions);
    GreedyCounts(Iou, ordered, truths);
    GreedyByPreference(Iou, ordered, truths, |ordered|);
    counts := Counts(truePositives, |predictions| - truePositives, |truths| - truePositives);
  }
}
