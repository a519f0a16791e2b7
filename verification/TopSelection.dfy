/** Two-stage top-k selection of (location, class) pairs: first the best locations, then the
    best pairs among theirs. */
module TopSelection {
  import opened Sorting

  const TOP := 300
  const CLASSES := 2

  /** The scores of the two classes at each location. */
  datatype Score = Score(vehicle: real, motorcycle: real) {
    function Of(classId: nat): real {
      if classId == 0 then vehicle else motorcycle
    }

    function Max(): real {
      if vehicle >= motorcycle then vehicle else motorcycle
    }
  }

  datatype Pair = Pair(score: real, location: nat, classId: nat)

  /** The source's sort key (-score, location, class). */
  predicate PairLe(a: Pair, b: Pair) {
    a.score > b.score
    || (a.score == b.score && (a.location < b.location || (a.location == b.location && a.classId <= b.classId)))
  }

  /** The order of the source's lexsort: descending best score, then location. A location outside
      the array, which never occurs, ranks last. */
  function LocationLe(scores: seq<Score>): (nat, nat) -> bool {
    (a: nat, b: nat) =>
      if a < |scores| && b < |scores| then
        scores[a].Max() > scores[b].Max() || (scores[a].Max() == scores[b].Max() && a <= b)
      else a < |scores| || (b >= |scores| && a <= b)
  }

  function LocationOrder(scores: seq<Score>): seq<nat> {
    Sort(Indices(|scores|), LocationLe(scores))
  }

  predicate Within(locations: seq<nat>, scores: seq<Score>) {
    forall i :: 0 <= i < |locations| ==> locations[i] < |scores|
  }

  function Pairs(locations: seq<nat>, scores: seq<Score>): seq<Pair>
    requires Within(locations, scores)
  {
    if locations == [] then []
    else
      var front, last := locations[..|locations| - 1], locations[|locations| - 1];
      Pairs(front, scores) + [Pair(scores[last].Of(0), last, 0), Pair(scores[last].Of(1), last, 1)]
  }

  /** The definition the two stages must agree with: the best `k` of all pairs. */
  function OneStage(scores: seq<Score>, k: nat): seq<Pair> {
    Take(Sort(Pairs(Indices(|scores|), scores), PairLe), k)
  }

  lemma {:induction false} OrderIsWithin(scores: seq<Score>)
    ensures Sorted(LocationOrder(scores), LocationLe(scores)) && Distinct(LocationOrder(scores))
    ensures Within(LocationOrder(scores), scores) && |LocationOrder(scores)| == |scores|
    ensures forall l: nat :: l < |scores| ==> l in LocationOrder(scores)
  {
    var all, order := Indices(|scores|), LocationOrder(scores);
    assert TotalPreorder(LocationLe(scores));
    SortSorted(all, LocationLe(scores));
    SameElements(all, order);
    assert Distinct(all);
    RearrangedDistinct(all, order);
    forall i | 0 <= i < |order|
      ensures order[i] < |scores|
    {
      assert order[i] in all;
    }
    forall l: nat | l < |scores|
      ensures l in order
    {
      assert all[l] == l;
    }
  }

  predicate Belongs(p: Pair, scores: seq<Score>) {
    p.location < |scores| && p.classId < CLASSES && p.score == scores[p.location].Of(p.classId)
  }

  lemma {:induction false} PairsMembers(locations: seq<nat>, scores: seq<Score>)
    requires Within(locations, scores)
    ensures forall p :: p in Pairs(locations, scores) <==> Belongs(p, scores) && p.location in locations
  {
    if locations != [] {
      var front, last := locations[..|locations| - 1], locations[|locations| - 1];
      PairsMembers(front, scores);
      assert locations == front + [last];
      forall p
        ensures p in Pairs(locations, scores) <==> Belongs(p, scores) && p.location in locations
      {
        var two := [Pair(scores[last].Of(0), last, 0), Pair(scores[last].Of(1), last, 1)];
        assert p in Pairs(locations, scores) <==> p in Pairs(front, scores) || p in two;
        assert p in two <==> p == two[0] || p == two[1];
      }
    }
  }

  lemma {:induction false} PairsDistinct(locations: seq<nat>, scores: seq<Score>)
    requires Within(locations, scores) && Distinct(locations)
    ensures Distinct(Pairs(locations, scores))
  {
    if locations != [] {
      var front, last := locations[..|locations| - 1], locations[|locations| - 1];
      PairsDistinct(front, scores);
      PairsMembers(front, scores);
      var before := Pairs(front, scores);
      forall i | 0 <= i < |before|
        ensures before[i].location != last
      {
        assert before[i] in before;
      }
    }
  }

  function Best(l: nat, scores: seq<Score>): Pair
    requires l < |scores|
  {
    Pair(scores[l].Max(), l, if scores[l].vehicle >= scores[l].motorcycle then 0 else 1)
  }

  /** The best pair of an earlier location precedes every pair of a later one. */
  lemma {:induction false} EarlierLocationWins(earlier: nat, p: Pair, scores: seq<Score>)
    requires earlier < |scores| && Belongs(p, scores) && earlier != p.location
    requires LocationLe(scores)(earlier, p.location)
    ensures PairLe(Best(earlier, scores), p) && Best(earlier, scores) != p
  {
    assert scores[p.location].Max() >= p.score;
  }

  /** A pair at the `q`-th best location has at least `q` pairs before it. */
  lemma {:induction false} EarlierLocationsPrecede(
      scores: seq<Score>, order: seq<nat>, sorted: seq<Pair>, i: nat, q: nat)
    requires Sorted(sorted, PairLe) && forall p :: p in sorted <==> Belongs(p, scores)
    requires Within(order, scores) && Sorted(order, LocationLe(scores)) && Distinct(order)
    requires i < |sorted| && q < |order| && order[q] == sorted[i].location
    ensures q <= i
  {
    assert sorted[i] in sorted;
    var bests := seq(q, m requires 0 <= m < q => Best(order[m], scores));
    forall m | 0 <= m < q
      ensures bests[m] in sorted[..i]
    {
      EarlierLocationWins(order[m], sorted[i], scores);
      assert Belongs(bests[m], scores);
      var r :| 0 <= r < |sorted| && sorted[r] == bests[m];
      assert sorted[..i][r] == bests[m];
    }
    forall m, n | 0 <= m < n < |bests|
      ensures bests[m] != bests[n]
    {
      assert bests[m].location == order[m] && bests[n].location == order[n];
    }
    DistinctFits(bests, sorted[..i]);
  }

  /** A pair among the best `k` lies at one of the best `k` locations: otherwise `k` other pairs
      would precede it. */
  lemma {:induction false} TopPairsSelected(scores: seq<Score>, sorted: seq<Pair>, k: nat, i: nat)
    requires Sorted(sorted, PairLe) && forall p :: p in sorted <==> Belongs(p, scores)
    requires i < |sorted| && i < k
    ensures sorted[i].location in Take(LocationOrder(scores), k)
  {
    var order := LocationOrder(scores);
    OrderIsWithin(scores);
    assert sorted[i] in sorted;
    assert sorted[i].location in order;
    var q :| 0 <= q < |order| && order[q] == sorted[i].location;
    EarlierLocationsPrecede(scores, order, sorted, i, q);
    assert Take(order, k)[q] == order[q];
  }

  lemma {:induction false} TakeWithin(scores: seq<Score>, k: nat)
    ensures Within(Take(LocationOrder(scores), k), scores) && Distinct(Take(LocationOrder(scores), k))
  {
    OrderIsWithin(scores);
  }

  lemma {:induction false} SortedPairs(locations: seq<nat>, scores: seq<Score>)
    requires Within(locations, scores) && Distinct(locations)
    ensures var b := Sort(Pairs(locations, scores), PairLe);
      && Sorted(b, PairLe) && Distinct(b)
      && forall p :: p in b <==> Belongs(p, scores) && p.location in locations
  {
    var pairs := Pairs(locations, scores);
    SortSorted(pairs, PairLe);
    SameElements(pairs, Sort(pairs, PairLe));
    PairsMembers(locations, scores);
    PairsDistinct(locations, scores);
    RearrangedDistinct(pairs, Sort(pairs, PairLe));
  }

  lemma {:induction false} IndicesDistinct(n: nat)
    ensures Distinct(Indices(n))
    ensures forall l: nat :: l in Indices(n) <==> l < n
  {
    forall l: nat | l < n
      ensures l in Indices(n)
    {
      assert Indices(n)[l] == l;
    }
  }

  /** Both stages together select exactly what one sort of all pairs would, in the same order,
      ties included. */
  lemma {:induction false} TwoStageIsOneStage(scores: seq<Score>, k: nat)
    ensures var chosen := Take(LocationOrder(scores), k);
      Within(chosen, scores) && Take(Sort(Pairs(chosen, scores), PairLe), k) == OneStage(scores, k)
  {
    IndicesDistinct(|scores|);
    TakeWithin(scores, k);
    SortedPairs(Indices(|scores|), scores);
    SortedPairs(Take(LocationOrder(scores), k), scores);
    SameSelection(scores, Sort(Pairs(Indices(|scores|), scores), PairLe),
                  Sort(Pairs(Take(LocationOrder(scores), k), scores), PairLe), k);
  }

  lemma {:induction false} SameSelection(scores: seq<Score>, a: seq<Pair>, b: seq<Pair>, k: nat)
    requires Sorted(a, PairLe) && Distinct(a) && forall p :: p in a <==> Belongs(p, scores)
    requires Sorted(b, PairLe) && Distinct(b)
    requires forall p :: p in b <==> Belongs(p, scores) && p.location in Take(LocationOrder(scores), k)
    ensures Take(a, k) == Take(b, k)
  {
    forall j | 0 <= j < |a| && j < k
      ensures a[j] in b
    {
      TopPairsSelected(scores, a, k, j);
      assert a[j] in a;
    }
    SameTop(a, b, PairLe, k);
  }

  /** `p` stands before `q`: by score, then location, then class. */
  predicate Before(p: Pair, q: Pair) {
    || p.score > q.score
    || (p.score == q.score && p.location < q.location)
    || (p.score == q.score && p.location == q.location && p.classId < q.classId)
  }

  /** The score of one of the two classes at a location. */
  predicate Scored(p: Pair, scores: seq<Score>) {
    && p.location < |scores|
    && (p.classId == 0 || p.classId == 1)
    && p.score == if p.classId == 0 then scores[p.location].vehicle else scores[p.location].motorcycle
  }

  /** The best `k` scores of all locations and classes, each once, the best first; all of them if
      there are no more than `k`. */
  ghost predicate Selection(selected: seq<Pair>, scores: seq<Score>, k: nat) {
    && |selected| == (if 2 * |scores| <= k then 2 * |scores| else k)
    && (forall i :: 0 <= i < |selected| ==> Scored(selected[i], scores))
    && (forall i, j :: 0 <= i < j < |selected| ==> Before(selected[i], selected[j]))
    && (forall p, i :: Scored(p, scores) && p !in selected && 0 <= i < |selected| ==> Before(selected[i], p))
  }

  lemma {:induction false} PairsCount(locations: seq<nat>, scores: seq<Score>)
    requires Within(locations, scores)
    ensures |Pairs(locations, scores)| == 2 * |locations|
  {
    if locations != [] {
      PairsCount(locations[..|locations| - 1], scores);
    }
  }

  lemma {:induction false} LessIsBefore(p: Pair, q: Pair, scores: seq<Score>)
    requires PairLe(p, q) && p != q && Scored(p, scores) && Scored(q, scores)
    ensures Before(p, q)
  {
  }

  lemma {:induction false} ScoredIffBelongs(p: Pair, scores: seq<Score>)
    ensures Scored(p, scores) <==> Belongs(p, scores)
  {
  }

  lemma {:induction false} TopOfSorted(sorted: seq<Pair>, scores: seq<Score>, k: nat)
    requires Sorted(sorted, PairLe) && Distinct(sorted) && |sorted| == 2 * |scores|
    requires forall p :: p in sorted <==> Scored(p, scores)
    ensures Selection(Take(sorted, k), scores, k)
  {
    var selected := Take(sorted, k);
    forall i | 0 <= i < |selected|
      ensures Scored(selected[i], scores)
    {
      assert sorted[i] in sorted;
    }
    forall i, j | 0 <= i < j < |selected|
      ensures Before(selected[i], selected[j])
    {
      assert sorted[i] in sorted && sorted[j] in sorted;
      LessIsBefore(sorted[i], sorted[j], scores);
    }
    forall p, i | Scored(p, scores) && p !in selected && 0 <= i < |selected|
      ensures Before(selected[i], p)
    {
      Unselected(sorted, k, p, i);
      LessIsBefore(selected[i], p, scores);
    }
  }

  lemma {:induction false} TakeHolds(sorted: seq<Pair>, k: nat, j: nat)
    requires j < |sorted|
    ensures j < |Take(sorted, k)| ==> sorted[j] in Take(sorted, k)
  {
    if j < |Take(sorted, k)| {
      assert Take(sorted, k)[j] == sorted[j];
    }
  }

  lemma {:induction false} Unselected(sorted: seq<Pair>, k: nat, p: Pair, i: nat)
    requires Sorted(sorted, PairLe) && p in sorted && p !in Take(sorted, k) && i < |Take(sorted, k)|
    ensures PairLe(Take(sorted, k)[i], p) && Take(sorted, k)[i] != p
  {
    var j :| 0 <= j < |sorted| && sorted[j] == p;
    TakeHolds(sorted, k, j);
  }

  lemma {:induction false} OneStageSelects(scores: seq<Score>, k: nat)
    ensures Selection(OneStage(scores, k), scores, k)
  {
    var all := Indices(|scores|);
    var sorted := Sort(Pairs(all, scores), PairLe);
    IndicesDistinct(|scores|);
    SortedPairs(all, scores);
    PairsCount(all, scores);
    SameElements(Pairs(all, scores), sorted);
    forall p {
      ScoredIffBelongs(p, scores);
    }
    TopOfSorted(sorted, scores, k);
  }

  method TwoStageTop300(scores: seq<Score>) returns (selected: seq<Pair>)
    ensures selected == OneStage(scores, TOP)
    ensures Selection(selected, scores, 300)
  {
    var locationOrder := Take(LocationOrder(scores), TOP);
    TakeWithin(scores, TOP);
    var pairs: seq<Pair> := [];
    for i := 0 to |locationOrder|
      invariant pairs == Pairs(locationOrder[..i], scores)
    {
      var location := locationOrder[i];
      ghost var before := pairs;
      for classId := 0 to CLASSES
        invariant pairs == before + [Pair(scores[location].Of(0), location, 0),
                                     Pair(scores[location].Of(1), location, 1)][..classId]
      {
        pairs := pairs + [Pair(scores[location].Of(classId), location, classId)];
      }
      assert locationOrder[..i + 1][..i] == locationOrder[..i];
    }
    assert locationOrder[..|locationOrder|] == locationOrder;
    pairs := Sort(pairs, PairLe);
    selected := Take(pairs, TOP);
    TwoStageIsOneStage(scores, TOP);
    OneStageSelects(scores, TOP);
  }
}
