/** Python's stable `sorted` as a function, and what every sorted arrangement satisfies. */
module Sorting {
  ghost predicate TotalPreorder<T(!new)>(le: (T, T) -> bool) {
    && (forall x, y :: le(x, y) || le(y, x))
    && (forall x, y, z :: le(x, y) && le(y, z) ==> le(x, z))
  }

  ghost predicate Sorted<T>(s: seq<T>, le: (T, T) -> bool) {
    forall i, j :: 0 <= i < j < |s| ==> le(s[i], s[j])
  }

  function Insert<T>(x: T, s: seq<T>, le: (T, T) -> bool): (r: seq<T>)
    ensures multiset(r) == multiset{x} + multiset(s)
  {
    if s == [] || le(x, s[0]) then [x] + s
    else
      assert s == [s[0]] + s[1..];
      [s[0]] + Insert(x, s[1..], le)
  }

  /** Insertion keeps the earlier of two equal elements first. */
  function Sort<T>(s: seq<T>, le: (T, T) -> bool): (r: seq<T>)
    ensures multiset(r) == multiset(s)
  {
    if s == [] then []
    else
      assert s == [s[0]] + s[1..];
      Insert(s[0], Sort(s[1..], le), le)
  }

  lemma {:induction false} SameElements<T>(a: seq<T>, b: seq<T>)
    requires multiset(a) == multiset(b)
    ensures |a| == |b|
    ensures forall x :: x in a <==> x in b
  {
    assert |multiset(a)| == |multiset(b)|;
    forall x
      ensures x in a <==> x in b
    {
      assert x in a <==> x in multiset(a);
      assert x in b <==> x in multiset(b);
    }
  }

  lemma {:induction false} InsertSorted<T(!new)>(x: T, s: seq<T>, le: (T, T) -> bool)
    requires TotalPreorder(le) && Sorted(s, le)
    ensures Sorted(Insert(x, s, le), le)
  {
    if s != [] && !le(x, s[0]) {
      var rest := Insert(x, s[1..], le);
      InsertSorted(x, s[1..], le);
      SameElements(rest, [x] + s[1..]);
      forall j | 0 <= j < |rest|
        ensures le(s[0], rest[j])
      {
        assert rest[j] in [x] + s[1..];
      }
    }
  }

  lemma {:induction false} SortSorted<T(!new)>(s: seq<T>, le: (T, T) -> bool)
    requires TotalPreorder(le)
    ensures Sorted(Sort(s, le), le)
  {
    if s != [] {
      SortSorted(s[1..], le);
      InsertSorted(s[0], Sort(s[1..], le), le);
    }
  }

  ghost predicate Distinct<T>(s: seq<T>) {
    forall i, j :: 0 <= i < j < |s| ==> s[i] != s[j]
  }

  lemma {:induction false} DistinctCounts<T>(s: seq<T>)
    ensures Distinct(s) <==> forall x :: multiset(s)[x] <= 1
  {
    if s != [] {
      var front, last := s[..|s| - 1], s[|s| - 1];
      assert s == front + [last];
      DistinctCounts(front);
      if Distinct(s) {
        assert Distinct(front);
        assert last !in front;
        assert last !in multiset(front);
      } else if Distinct(front) {
        assert last in front;
        assert last in multiset(front);
        assert multiset(s)[last] > 1;
      } else {
        var x :| multiset(front)[x] > 1;
        assert multiset(s)[x] > 1;
      }
    }
  }

  lemma {:induction false} RearrangedDistinct<T>(a: seq<T>, b: seq<T>)
    requires multiset(a) == multiset(b) && Distinct(a)
    ensures Distinct(b)
  {
    DistinctCounts(a);
    DistinctCounts(b);
  }

  lemma {:induction false} ElementsAtMost<T>(s: seq<T>)
    ensures |set x | x in s| <= |s|
    ensures Distinct(s) ==> |set x | x in s| == |s|
  {
    if s != [] {
      var front, last := s[..|s| - 1], s[|s| - 1];
      assert s == front + [last];
      ElementsAtMost(front);
      assert (set x | x in s) == (set x | x in front) + {last};
    }
  }

  /** Pigeonhole: distinct elements of `t` are no more than `t` has places. */
  lemma {:induction false} DistinctFits<T>(s: seq<T>, t: seq<T>)
    requires Distinct(s) && forall x :: x in s ==> x in t
    ensures |s| <= |t|
  {
    ElementsAtMost(s);
    ElementsAtMost(t);
    SubsetAtMost(set x | x in s, set x | x in t);
  }

  lemma {:induction false} SubsetAtMost<T>(a: set<T>, b: set<T>)
    requires a <= b
    ensures |a| <= |b|
  {
    assert b == a + (b - a);
  }

  ghost predicate Antisymmetric<T>(s: seq<T>, le: (T, T) -> bool) {
    forall i, j :: 0 <= i < |s| && 0 <= j < |s| && le(s[i], s[j]) && le(s[j], s[i]) ==> s[i] == s[j]
  }

  /** Python's `[:k]`. */
  function Take<T>(s: seq<T>, k: nat): seq<T> {
    if |s| <= k then s else s[..k]
  }

  lemma {:induction false} PrefixAgrees<T>(a: seq<T>, b: seq<T>, le: (T, T) -> bool, i: nat)
    requires Antisymmetric(a, le) && Sorted(a, le) && Sorted(b, le) && Distinct(a) && Distinct(b)
    requires forall x :: x in b ==> x in a
    requires i <= |a| && forall j :: 0 <= j < i ==> a[j] in b
    ensures i <= |b| && a[..i] == b[..i]
  {
    if i > 0 {
      PrefixAgrees(a, b, le, i - 1);
      assert forall j :: 0 <= j < i - 1 ==> a[j] == a[..i - 1][j] == b[..i - 1][j] == b[j];
      var m :| 0 <= m < |b| && b[m] == a[i - 1];
      assert b[i - 1] in b;
      var p :| 0 <= p < |a| && a[p] == b[i - 1];
      assert a[i - 1] == b[i - 1];
      assert a[..i] == a[..i - 1] + [a[i - 1]] && b[..i] == b[..i - 1] + [b[i - 1]];
    }
  }

  /** If a smaller collection holds the first `k` of a larger one, they share their first `k`. */
  lemma {:induction false} SameTop<T>(a: seq<T>, b: seq<T>, le: (T, T) -> bool, k: nat)
    requires Antisymmetric(a, le) && Sorted(a, le) && Sorted(b, le) && Distinct(a) && Distinct(b)
    requires forall x :: x in b ==> x in a
    requires forall j :: 0 <= j < |a| && j < k ==> a[j] in b
    ensures Take(a, k) == Take(b, k)
  {
    DistinctFits(b, a);
    PrefixAgrees(a, b, le, if |a| <= k then |a| else k);
  }

  // ---------------------------------------------------------------------------------------
  // Sorting indices

  function Indices(n: nat): seq<nat> {
    seq(n, i => i)
  }

  predicate InRange(order: seq<nat>, n: nat) {
    forall i :: 0 <= i < |order| ==> order[i] < n
  }

  function PickFirst<T>(s: seq<T>, order: seq<nat>, n: nat): seq<T>
    requires InRange(order, |s|) && n <= |order|
  {
    if n == 0 then [] else PickFirst(s, order, n - 1) + [s[order[n - 1]]]
  }

  /** Indexing an array by an array. */
  function Pick<T>(s: seq<T>, order: seq<nat>): seq<T>
    requires InRange(order, |s|)
  {
    PickFirst(s, order, |order|)
  }

  lemma {:induction false} PickFirstAt<T>(s: seq<T>, order: seq<nat>, n: nat)
    requires InRange(order, |s|) && n <= |order|
    ensures |PickFirst(s, order, n)| == n
    ensures forall i :: 0 <= i < n ==> PickFirst(s, order, n)[i] == s[order[i]]
  {
    if n > 0 {
      PickFirstAt(s, order, n - 1);
    }
  }

  lemma {:induction false} PickAt<T>(s: seq<T>, order: seq<nat>)
    requires InRange(order, |s|)
    ensures |Pick(s, order)| == |order|
    ensures forall i :: 0 <= i < |order| ==> Pick(s, order)[i] == s[order[i]]
  {
    PickFirstAt(s, order, |order|);
  }

  lemma {:induction false} PickIndices<T>(s: seq<T>)
    ensures Pick(s, Indices(|s|)) == s
  {
    PickAt(s, Indices(|s|));
  }

  lemma {:induction false} WithoutAt<T>(s: seq<T>, k: nat)
    requires k < |s|
    ensures multiset(s) == multiset(s[..k] + s[k + 1..]) + multiset{s[k]}
  {
    assert s == s[..k] + [s[k]] + s[k + 1..];
  }

  lemma {:induction false} WithoutOne<T>(a: multiset<T>, b: multiset<T>, x: T)
    requires a + multiset{x} == b + multiset{x}
    ensures a == b
  {
    assert a == a + multiset{x} - multiset{x};
  }

  lemma {:induction false} PickWithoutAt<T>(s: seq<T>, order: seq<nat>, k: nat)
    requires InRange(order, |s|) && k < |order|
    ensures var rest := order[..k] + order[k + 1..];
      InRange(rest, |s|) && multiset(Pick(s, order)) == multiset(Pick(s, rest)) + multiset{s[order[k]]}
  {
    var rest := order[..k] + order[k + 1..];
    PickAt(s, order);
    PickAt(s, rest);
    WithoutAt(Pick(s, order), k);
    assert Pick(s, rest) == Pick(s, order)[..k] + Pick(s, order)[k + 1..];
  }

  /** Rearranging the indices rearranges what they pick. */
  lemma {:induction false} PickRearranged<T>(s: seq<T>, a: seq<nat>, b: seq<nat>)
    requires InRange(a, |s|) && InRange(b, |s|) && multiset(a) == multiset(b)
    ensures multiset(Pick(s, a)) == multiset(Pick(s, b))
  {
    SameElements(a, b);
    if a != [] {
      assert a[0] in b;
      var k :| 0 <= k < |b| && b[k] == a[0];
      RestRearranged(a, b, k);
      PickRearranged(s, a[1..], b[..k] + b[k + 1..]);
      PickWithoutAt(s, a, 0);
      PickWithoutAt(s, b, k);
    }
  }

  lemma {:induction false} RestRearranged<T>(a: seq<T>, b: seq<T>, k: nat)
    requires multiset(a) == multiset(b) && a != [] && k < |b| && b[k] == a[0]
    ensures multiset(a[1..]) == multiset(b[..k] + b[k + 1..])
    ensures a[..0] + a[1..] == a[1..]
  {
    WithoutAt(a, 0);
    WithoutAt(b, k);
    assert a[..0] + a[1..] == a[1..];
    WithoutOne(multiset(a[1..]), multiset(b[..k] + b[k + 1..]), a[0]);
  }

  lemma {:induction false} PickCons<T>(s: seq<T>, first: nat, order: seq<nat>)
    requires first < |s| && InRange(order, |s|)
    ensures InRange([first] + order, |s|) && Pick(s, [first] + order) == [s[first]] + Pick(s, order)
  {
    PickAt(s, order);
    PickAt(s, [first] + order);
  }

  /** Both orders compare alike. */
  ghost predicate Mirrors<T>(s: seq<T>, le: (nat, nat) -> bool, leT: (T, T) -> bool) {
    forall i: nat, j: nat :: i < |s| && j < |s| ==> (le(i, j) <==> leT(s[i], s[j]))
  }

  lemma {:induction false} PickInsert<T>(
      s: seq<T>, x: nat, order: seq<nat>, le: (nat, nat) -> bool, leT: (T, T) -> bool)
    requires x < |s| && InRange(order, |s|) && Mirrors(s, le, leT)
    ensures InRange(Insert(x, order, le), |s|)
    ensures Pick(s, Insert(x, order, le)) == Insert(s[x], Pick(s, order), leT)
  {
    if order == [] {
      PickCons(s, x, order);
    } else {
      var first, rest := order[0], order[1..];
      assert order == [first] + rest;
      PickCons(s, first, rest);
      assert Pick(s, order)[1..] == Pick(s, rest);
      if le(x, first) {
        PickCons(s, x, order);
      } else {
        PickInsert(s, x, rest, le, leT);
        PickCons(s, first, Insert(x, rest, le));
      }
    }
  }

  /** Sorting the indices by what they pick sorts what they pick. */
  lemma {:induction false} PickSort<T>(s: seq<T>, order: seq<nat>, le: (nat, nat) -> bool, leT: (T, T) -> bool)
    requires InRange(order, |s|) && Mirrors(s, le, leT)
    ensures InRange(Sort(order, le), |s|)
    ensures Pick(s, Sort(order, le)) == Sort(Pick(s, order), leT)
  {
    if order != [] {
      var first, rest := order[0], order[1..];
      assert order == [first] + rest;
      PickCons(s, first, rest);
      assert Pick(s, order)[1..] == Pick(s, rest);
      PickSort(s, rest, le, leT);
      PickInsert(s, first, Sort(rest, le), le, leT);
    }
  }
}
