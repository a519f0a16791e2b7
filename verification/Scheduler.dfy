/** The rate limiter of the latest-frame scheduler: due times with catch-up and a freshness
    guard, over the history of accepted frames. Time is counted in clock ticks. */
module Scheduler {
  import opened Options

  datatype Frame = Frame(index: nat, arrival: int)

  /** One accepted frame: the due time it met, when its age was checked, and the next due time. */
  datatype Acceptance = Acceptance(frame: Frame, due: int, examined: int, dueAfter: int)

  datatype Timing = Timing(period: int, maxAge: int)

  predicate Sensible(t: Timing) {
    0 < t.period && 0 <= t.maxAge
  }

  /** The frame was due and fresh, and the due time moved on by whole periods: one, or as many
      as it takes to be no more than a period behind the clock. */
  predicate Legal(a: Acceptance, t: Timing)
    requires t.period > 0
  {
    && a.due <= a.frame.arrival <= a.examined
    && a.examined - a.frame.arrival <= t.maxAge
    && (a.dueAfter - a.due) % t.period == 0
    && a.due + t.period <= a.dueAfter
    && a.examined - t.period <= a.dueAfter
    && (a.dueAfter == a.due + t.period || a.dueAfter < a.examined)
  }

  predicate Chain(log: seq<Acceptance>, t: Timing)
    requires t.period > 0
  {
    && (forall k :: 0 <= k < |log| ==> Legal(log[k], t))
    && (forall k :: 0 < k < |log| ==> log[k].due == log[k - 1].dueAfter)
  }

  lemma {:induction false} DueGrows(log: seq<Acceptance>, t: Timing, k: nat, j: nat)
    requires Sensible(t) && Chain(log, t) && k + j < |log|
    ensures log[k + j].due >= log[k].due + j * t.period
    ensures j >= 1 ==> log[k + j].due >= log[k].dueAfter + (j - 1) * t.period
  {
    if j > 0 {
      DueGrows(log, t, k, j - 1);
      assert log[k + j].due == log[k + j - 1].dueAfter;
      assert j * t.period == (j - 1) * t.period + t.period;
      if j > 1 {
        assert (j - 1) * t.period == (j - 2) * t.period + t.period;
      }
    }
  }

  /** `j` acceptances later at least `j - 2` periods have passed. */
  lemma {:induction false} Spacing(log: seq<Acceptance>, t: Timing, k: nat, j: nat)
    requires Sensible(t) && Chain(log, t) && k + j < |log| && j >= 1
    ensures log[k + j].frame.arrival >= log[k].frame.arrival + (j - 2) * t.period
  {
    DueGrows(log, t, k, j);
    assert (j - 1) * t.period == (j - 2) * t.period + t.period;
  }

  /** No more than one frame per period, plus one, counted from the first frame examined. */
  lemma {:induction false} Quota(log: seq<Acceptance>, t: Timing, n: nat, time: int)
    requires Sensible(t) && Chain(log, t) && 0 < n <= |log| && log[n - 1].frame.arrival <= time
    ensures n <= (time - log[0].due) / t.period + 1
  {
    DueGrows(log, t, 0, n - 1);
    QuotientAtLeast(n - 1, time - log[0].due, t.period);
  }

  lemma {:induction false} QuotientAtLeast(q: int, x: int, d: int)
    requires d > 0 && q * d <= x
    ensures q <= x / d
  {
    assert x == x / d * d + x % d;
    assert (x / d + 1 - q) * d == x / d * d + d - q * d;
    PositiveFactor(x / d + 1 - q, d);
  }

  lemma {:induction false} PositiveFactor(x: int, d: int)
    requires d > 0 && x * d > 0
    ensures x > 0
  {
  }

  /** A frame that may be accepted right after `a`. */
  predicate Follows(a: Acceptance, next: Acceptance, t: Timing)
    requires t.period > 0
  {
    Legal(next, t) && next.due == a.dueAfter && next.frame.index > a.frame.index
    && next.frame.arrival >= a.frame.arrival && next.examined >= a.examined
  }

  /** A history the limiter can produce from `a` on. */
  ghost predicate ContinuesFrom(a: Acceptance, log: seq<Acceptance>, t: Timing)
    requires t.period > 0
  {
    && log != [] && log[0] == a
    && Chain(log, t)
    && forall k :: 0 < k < |log| ==> Follows(log[k - 1], log[k], t)
  }

  predicate EndedBy(log: seq<Acceptance>, time: int) {
    log != [] && log[|log| - 1].frame.arrival <= time
  }

  /** No more than one frame per period, plus one, counted from the acceptance of `a`. */
  ghost predicate QuotaFrom(a: Acceptance, t: Timing)
    requires t.period > 0
  {
    forall log: seq<Acceptance>, time: int ::
      ContinuesFrom(a, log, t) && EndedBy(log, time) ==>
        |log| <= (time - a.frame.arrival) / t.period + 1
  }

  /** The quota may be counted from an accepted frame exactly if the next due time is a whole
      period after its arrival. */
  lemma {:induction false} QuotaFromIff(a: Acceptance, t: Timing)
    requires Sensible(t) && Legal(a, t)
    ensures QuotaFrom(a, t) <==> a.dueAfter >= a.frame.arrival + t.period
  {
    if a.dueAfter >= a.frame.arrival + t.period {
      forall log: seq<Acceptance>, time: int | ContinuesFrom(a, log, t) && EndedBy(log, time)
        ensures |log| <= (time - a.frame.arrival) / t.period + 1
      {
        var j := |log| - 1;
        DueGrows(log, t, 0, j);
        assert j * t.period == (j - 1) * t.period + t.period;
        QuotientAtLeast(j, time - a.frame.arrival, t.period);
      }
    } else {
      var log := TooSoon(a, t);
      var time := log[1].frame.arrival;
      assert ContinuesFrom(a, log, t) && EndedBy(log, time);
      assert (time - a.frame.arrival) / t.period == 0;
    }
  }

  /** Two acceptances less than a period apart. */
  lemma {:induction false} TooSoon(a: Acceptance, t: Timing) returns (log: seq<Acceptance>)
    requires Sensible(t) && Legal(a, t) && a.dueAfter < a.frame.arrival + t.period
    ensures ContinuesFrom(a, log, t) && |log| == 2
    ensures a.frame.arrival <= log[1].frame.arrival < a.frame.arrival + t.period
  {
    var arrival := if a.dueAfter > a.frame.arrival then a.dueAfter else a.frame.arrival;
    var examined := if arrival > a.examined then arrival else a.examined;
    var dueAfter := a.dueAfter + t.period;
    assert (dueAfter - a.dueAfter) % t.period == 0;
    log := [a, Acceptance(Frame(a.frame.index + 1, arrival), a.dueAfter, examined, dueAfter)];
    assert Legal(log[1], t);
    assert Follows(a, log[1], t);
  }

  /** With an age limit below the period, as the source has it, that means: accepted on its due
      time. */
  lemma {:induction false} QuotaFromPunctualIff(a: Acceptance, t: Timing)
    requires Sensible(t) && t.maxAge < t.period && Legal(a, t)
    ensures QuotaFrom(a, t) <==> a.frame.arrival == a.due
  {
    QuotaFromIff(a, t);
  }

  /** The catch-up loop. */
  method Advance(due: int, now: int, period: int) returns (next: int)
    requires period > 0 && due <= now
    ensures (next - due) % period == 0 && due + period <= next
    ensures now - period <= next <= now + period
    ensures next == due + period || next < now
  {
    next := due + period;
    assert (next - due) % period == 0;
    while next < now - period
      invariant (next - due) % period == 0 && due + period <= next <= now + period
      invariant next == due + period || next < now
      decreases now - next
    {
      Remainder(next - due, period);
      next := next + period;
    }
  }

  lemma {:induction false} Remainder(x: int, d: int)
    requires d > 0 && x % d == 0
    ensures (x + d) % d == 0
  {
    assert x + d == d * (x / d + 1);
    MultipleRemainder(x / d + 1, d);
  }

  lemma {:induction false} MultipleRemainder(q: int, d: int)
    requires d > 0
    ensures (d * q) % d == 0
  {
    var x := d * q;
    assert x == d * (x / d) + x % d;
    assert d * (q - x / d) == x % d;
    assert (q - x / d + 1) * d == x % d + d && (1 - (q - x / d)) * d == d - x % d;
    PositiveFactor(q - x / d + 1, d);
    PositiveFactor(1 - (q - x / d), d);
  }

  /** The lawful next due time is unique. */
  lemma {:induction false} DueIsUnique(a: Acceptance, b: Acceptance, t: Timing)
    requires t.period > 0 && Legal(a, t) && Legal(b, t) && a.due == b.due && a.examined == b.examined
    ensures a.dueAfter == b.dueAfter
  {
    CloseMultiples(a.dueAfter - a.due, b.dueAfter - b.due, t.period);
  }

  lemma {:induction false} CloseMultiples(x: int, y: int, d: int)
    requires d > 0 && x % d == 0 && y % d == 0 && -d < x - y < d
    ensures x == y
  {
    var i, j := x / d, y / d;
    assert x == d * i && y == d * j;
    FactorsInOrder(i, j, d);
    FactorsInOrder(j, i, d);
  }

  lemma {:induction false} FactorsInOrder(i: int, j: int, d: int)
    requires d > 0 && d * i < d * j + d
    ensures i <= j
  {
    assert d * (i - j - 1) < 0;
  }
}
