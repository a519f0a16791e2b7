/** The three threads of the latest-frame scheduler over their two one-frame slots. Each method
    is one atomic step of one thread; Run interleaves them in any order. */
module Pipeline {
  import opened Options
  import opened Scheduler

  datatype CapturePoint = Pulling | Stamped(frame: Frame) | CountingCapture

  datatype DecodePoint =
    | WaitingFrame
    | Holding(frame: Frame)
    | Decoding(frame: Frame)
    | Ready(frame: Frame)
    | CountingPrepared

  datatype InferPoint = Polling | Inferring(frame: Frame)

  /** Time passes, or one thread takes its next step. */
  datatype Action = Elapse(ticks: nat) | Capture | Decode(success: bool) | Infer

  function One(present: bool): nat {
    if present then 1 else 0
  }

  predicate Ordered(frames: seq<Frame>) {
    forall i, j :: 0 <= i < j < |frames| ==> Older(frames[i], frames[j])
  }

  predicate Older(a: Frame, b: Frame) {
    a.index < b.index && a.arrival <= b.arrival
  }

  predicate Behind(a: Option<Frame>, b: Option<Frame>) {
    a.Some? && b.Some? ==> Older(a.value, b.value)
  }

  /** The newest result and the frame, if any, at each later stage, from inference back to capture. */
  datatype Stages = Stages(
    result: Option<Frame>,
    infer: Option<Frame>,
    prepared: Option<Frame>,
    decode: Option<Frame>,
    compressed: Option<Frame>,
    capture: Option<Frame>
  ) {
    predicate InOrder() {
      && Behind(result, infer) && Behind(result, prepared) && Behind(result, decode)
      && Behind(result, compressed) && Behind(result, capture)
      && Behind(infer, prepared) && Behind(infer, decode) && Behind(infer, compressed) && Behind(infer, capture)
      && Behind(prepared, decode) && Behind(prepared, compressed) && Behind(prepared, capture)
      && Behind(decode, compressed) && Behind(decode, capture)
      && Behind(compressed, capture)
    }

    /** Every frame is older than the next one to be pulled. */
    predicate Below(next: Frame) {
      && Behind(result, Some(next)) && Behind(infer, Some(next)) && Behind(prepared, Some(next))
      && Behind(decode, Some(next)) && Behind(compressed, Some(next)) && Behind(capture, Some(next))
    }
  }

  /** The whole pipeline between two steps. */
  datatype Moment = Moment(
    clock: int,
    capture: CapturePoint,
    pulled: nat,
    captured: nat,
    compressedOverwrites: nat,
    compressed: Option<Frame>,
    decode: DecodePoint,
    nextDue: Option<int>,
    rateLimited: nat,
    staleDrops: nat,
    decodeAttempts: nat,
    decodeFailures: nat,
    preparedCount: nat,
    preparedOverwrites: nat,
    prepared: Option<Frame>,
    infer: InferPoint,
    inferred: nat,
    log: seq<Acceptance>,
    results: seq<Frame>
  )

  /** What a step of the capture thread does; a full slot's frame is overwritten and counted. */
  predicate Captured(before: Moment, now: Moment) {
    match before.capture
    case Pulling => now == before.(capture := Stamped(Frame(before.pulled, before.clock)), pulled := before.pulled + 1)
    case Stamped(frame) =>
      now == before.(capture := CountingCapture, compressed := Some(frame),
                     compressedOverwrites := before.compressedOverwrites + One(before.compressed.Some?))
    case CountingCapture => now == before.(capture := Pulling, captured := before.captured + 1)
  }

  /** What examining a frame does: a frame that is not due yet is refused, then one that is too old;
      any other is accepted, and the due time moves on. */
  predicate Examined(frame: Frame, due: int, before: Moment, now: Moment, t: Timing)
    requires t.period > 0
  {
    if frame.arrival < due then
      now == before.(decode := WaitingFrame, nextDue := Some(due), rateLimited := before.rateLimited + 1)
    else if before.clock - frame.arrival > t.maxAge then
      now == before.(decode := WaitingFrame, nextDue := Some(due), staleDrops := before.staleDrops + 1)
    else
      && now.nextDue.Some?
      && var a := Acceptance(frame, due, before.clock, now.nextDue.value);
        Legal(a, t)
        && now == before.(decode := Decoding(frame), nextDue := now.nextDue,
                          decodeAttempts := before.decodeAttempts + 1, log := before.log + [a])
  }

  /** What a step of the decode thread does; waiting for a frame may find none, and the first frame
      examined is due at once. */
  predicate Decoded(success: bool, before: Moment, now: Moment, t: Timing)
    requires t.period > 0
  {
    match before.decode
    case WaitingFrame =>
      now == if before.compressed.None? then before
             else before.(decode := Holding(before.compressed.value), compressed := None)
    case Holding(frame) =>
      Examined(frame, if before.nextDue.Some? then before.nextDue.value else frame.arrival, before, now, t)
    case Decoding(frame) =>
      now == if success then before.(decode := Ready(frame))
             else before.(decode := WaitingFrame, decodeFailures := before.decodeFailures + 1)
    case Ready(frame) =>
      now == before.(decode := CountingPrepared, prepared := Some(frame),
                     preparedOverwrites := before.preparedOverwrites + One(before.prepared.Some?))
    case CountingPrepared => now == before.(decode := WaitingFrame, preparedCount := before.preparedCount + 1)
  }

  /** What a step of the inference loop does; polling may find no frame. */
  predicate Inferred(before: Moment, now: Moment) {
    match before.infer
    case Polling =>
      now == if before.prepared.None? then before
             else before.(infer := Inferring(before.prepared.value), prepared := None)
    case Inferring(frame) =>
      now == before.(infer := Polling, inferred := before.inferred + 1, results := before.results + [frame])
  }

  predicate Stepped(action: Action, before: Moment, now: Moment, t: Timing)
    requires t.period > 0
  {
    match action
    case Elapse(ticks) => now == before.(clock := before.clock + ticks)
    case Capture => Captured(before, now)
    case Decode(success) => Decoded(success, before, now, t)
    case Infer => Inferred(before, now)
  }

  /** A step is determined: the acceptance's due time is the only lawful one. */
  lemma {:induction false} StepIsDetermined(action: Action, before: Moment, a: Moment, b: Moment, t: Timing)
    requires t.period > 0 && Stepped(action, before, a, t) && Stepped(action, before, b, t)
    ensures a == b
  {
    if action.Decode? && before.decode.Holding? && a.nextDue.Some? && b.nextDue.Some? {
      var frame := before.decode.frame;
      var due := if before.nextDue.Some? then before.nextDue.value else frame.arrival;
      if due <= frame.arrival && before.clock - frame.arrival <= t.maxAge {
        DueIsUnique(Acceptance(frame, due, before.clock, a.nextDue.value),
                    Acceptance(frame, due, before.clock, b.nextDue.value), t);
      }
    }
  }

  // ---------------------------------------------------------------------------------------
  // What every step keeps

  /** The frame passed the age check when it was accepted. */
  ghost predicate Passed(frame: Frame, log: seq<Acceptance>) {
    exists k :: 0 <= k < |log| && log[k].frame == frame
  }

  ghost predicate AllPassed(frames: seq<Frame>, log: seq<Acceptance>) {
    forall i :: 0 <= i < |frames| ==> Passed(frames[i], log)
  }

  lemma {:induction false} PassedGrows(log: seq<Acceptance>, a: Acceptance)
    ensures forall f :: Passed(f, log) || f == a.frame ==> Passed(f, log + [a])
  {
    assert (log + [a])[|log|] == a;
    forall f | Passed(f, log)
      ensures Passed(f, log + [a])
    {
      var k :| 0 <= k < |log| && log[k].frame == f;
      assert (log + [a])[k] == log[k];
    }
  }

  lemma {:induction false} ChainGrows(log: seq<Acceptance>, a: Acceptance, t: Timing)
    requires t.period > 0 && Chain(log, t) && Legal(a, t)
    requires log != [] ==> a.due == log[|log| - 1].dueAfter
    ensures Chain(log + [a], t)
  {
  }

  /** The limiter's history. */
  ghost predicate Limited(m: Moment, t: Timing) {
    && Sensible(t)
    && Chain(m.log, t)
    && |m.log| == m.decodeAttempts
    && (m.log != [] ==> m.nextDue == Some(m.log[|m.log| - 1].dueAfter))
  }

  /** Every accepted frame still on its way or inferred is in the history. */
  ghost predicate OnlyAccepted(m: Moment) {
    && AllPassed(m.results, m.log)
    && (m.infer.Inferring? ==> Passed(m.infer.frame, m.log))
    && (m.prepared.Some? ==> Passed(m.prepared.value, m.log))
    && (m.decode.Decoding? || m.decode.Ready? ==> Passed(m.decode.frame, m.log))
  }

  function StagesOf(m: Moment): Stages {
    Stages(
      if m.results == [] then None else Some(m.results[|m.results| - 1]),
      if m.infer.Inferring? then Some(m.infer.frame) else None,
      m.prepared,
      if m.decode.Holding? || m.decode.Decoding? || m.decode.Ready? then Some(m.decode.frame) else None,
      m.compressed,
      if m.capture.Stamped? then Some(m.capture.frame) else None)
  }

  /** Frames move in capture order. */
  predicate InOrder(m: Moment) {
    && StagesOf(m).InOrder()
    && StagesOf(m).Below(Frame(m.pulled, m.clock))
    && Ordered(m.results)
  }

  /** Every frame put into the compressed slot is accounted for, and so is every attempt, every
      prepared frame and every result. */
  predicate Conserved(m: Moment) {
    && m.captured + One(m.capture.CountingCapture?)
       == m.compressedOverwrites + m.rateLimited + m.staleDrops + m.decodeAttempts
          + One(m.compressed.Some?) + One(m.decode.Holding?)
    && m.decodeAttempts
       == m.decodeFailures + m.preparedCount + One(m.decode.Decoding? || m.decode.Ready?)
          + One(m.decode.CountingPrepared?)
    && m.preparedCount + One(m.decode.CountingPrepared?)
       == m.preparedOverwrites + m.inferred + One(m.prepared.Some?) + One(m.infer.Inferring?)
    && m.inferred == |m.results|
  }

  ghost predicate Good(m: Moment, t: Timing) {
    Conserved(m) && InOrder(m) && Limited(m, t) && OnlyAccepted(m)
  }

  lemma {:induction false} CaptureKeepsOrder(before: Moment, now: Moment)
    requires InOrder(before) && Captured(before, now)
    ensures InOrder(now)
  {
  }

  lemma {:induction false} CaptureConserves(before: Moment, now: Moment)
    requires Conserved(before) && Captured(before, now)
    ensures Conserved(now)
  {
  }

  lemma {:induction false} CaptureKeeps(before: Moment, now: Moment, t: Timing)
    requires Good(before, t) && Captured(before, now)
    ensures Good(now, t)
  {
    CaptureKeepsOrder(before, now);
    CaptureConserves(before, now);
  }

  lemma {:induction false} AcceptanceKeepsPassed(before: Moment, a: Acceptance, now: Moment)
    requires OnlyAccepted(before) && now == before.(decode := Decoding(a.frame), nextDue := now.nextDue,
      decodeAttempts := before.decodeAttempts + 1, log := before.log + [a])
    ensures OnlyAccepted(now)
  {
    PassedGrows(before.log, a);
  }

  lemma {:induction false} ExaminationKeeps(frame: Frame, due: int, before: Moment, now: Moment, t: Timing)
    requires Good(before, t) && before.decode == Holding(frame)
    requires before.nextDue == Some(due) || (before.nextDue.None? && before.log == [])
    requires Examined(frame, due, before, now, t)
    ensures Good(now, t)
  {
    if due <= frame.arrival && before.clock - frame.arrival <= t.maxAge {
      var a := Acceptance(frame, due, before.clock, now.nextDue.value);
      AcceptanceKeepsPassed(before, a, now);
      ChainGrows(before.log, a, t);
    }
  }

  /** A frame moves on to the next stage, or leaves the decoder. */
  predicate Moved(s: Stages, now: Stages) {
    || now == s
    || now == s.(decode := s.compressed, compressed := None)
    || now == s.(prepared := s.decode, decode := None)
    || now == s.(decode := None)
    || now == s.(infer := s.prepared, prepared := None)
    || now == s.(result := s.infer, infer := None)
  }

  /** Frames that move on only into empty stages, or onto older frames, stay in order. */
  lemma {:induction false} MovedKeepsOrder(s: Stages, now: Stages, next: Frame)
    requires s.InOrder() && s.Below(next) && Moved(s, now)
    ensures now.InOrder() && now.Below(next)
  {
  }

  lemma {:induction false} DecodeMoves(success: bool, before: Moment, now: Moment, t: Timing)
    requires t.period > 0 && Decoded(success, before, now, t) && !before.decode.Holding?
    ensures Moved(StagesOf(before), StagesOf(now))
  {
  }

  lemma {:induction false} DecodeKeepsOrder(success: bool, before: Moment, now: Moment, t: Timing)
    requires t.period > 0 && InOrder(before) && Decoded(success, before, now, t) && !before.decode.Holding?
    ensures InOrder(now)
  {
    DecodeMoves(success, before, now, t);
    MovedKeepsOrder(StagesOf(before), StagesOf(now), Frame(before.pulled, before.clock));
  }

  lemma {:induction false} DecodeConserves(success: bool, before: Moment, now: Moment, t: Timing)
    requires t.period > 0 && Conserved(before) && Decoded(success, before, now, t) && !before.decode.Holding?
    ensures Conserved(now)
  {
  }

  lemma {:induction false} DecodeKeepsAccepted(success: bool, before: Moment, now: Moment, t: Timing)
    requires Limited(before, t) && OnlyAccepted(before) && Decoded(success, before, now, t) && !before.decode.Holding?
    ensures Limited(now, t) && OnlyAccepted(now)
  {
  }

  lemma {:induction false} DecodeKeeps(success: bool, before: Moment, now: Moment, t: Timing)
    requires Good(before, t) && Decoded(success, before, now, t)
    ensures Good(now, t)
  {
    if before.decode.Holding? {
      var frame := before.decode.frame;
      ExaminationKeeps(frame, if before.nextDue.Some? then before.nextDue.value else frame.arrival, before, now, t);
    } else {
      DecodeKeepsOrder(success, before, now, t);
      DecodeConserves(success, before, now, t);
      DecodeKeepsAccepted(success, before, now, t);
    }
  }

  lemma {:induction false} InferenceMoves(before: Moment, now: Moment)
    requires Inferred(before, now)
    ensures Moved(StagesOf(before), StagesOf(now))
  {
  }

  lemma {:induction false} InferenceKeepsOrder(before: Moment, now: Moment)
    requires InOrder(before) && Inferred(before, now)
    ensures InOrder(now)
  {
    InferenceMoves(before, now);
    MovedKeepsOrder(StagesOf(before), StagesOf(now), Frame(before.pulled, before.clock));
  }

  lemma {:induction false} InferenceKeeps(before: Moment, now: Moment, t: Timing)
    requires Good(before, t) && Inferred(before, now)
    ensures Good(now, t)
  {
    InferenceKeepsOrder(before, now);
  }

  /** Conservation, order and the limiter's law survive every step of every thread. */
  lemma {:induction false} StepKeepsGood(action: Action, before: Moment, now: Moment, t: Timing)
    requires Good(before, t) && Stepped(action, before, now, t)
    ensures Good(now, t)
  {
    match action {
      case Elapse(_) =>
      case Capture => CaptureKeeps(before, now, t);
      case Decode(success) => DecodeKeeps(success, before, now, t);
      case Infer => InferenceKeeps(before, now, t);
    }
  }

  /** When the first frame was examined. */
  function FirstExamined(m: Moment): Option<int> {
    if m.log == [] then m.nextDue else Some(m.log[0].due)
  }

  /** A frame a whole period after the last acceptance was checked is never refused by the
      limiter. */
  lemma {:induction false} PeriodLaterIsDue(m: Moment, t: Timing, frame: Frame)
    requires Good(m, t) && m.log != [] && frame.arrival >= m.log[|m.log| - 1].examined + t.period
    ensures m.nextDue.Some? && m.nextDue.value <= frame.arrival
  {
    assert Legal(m.log[|m.log| - 1], t);
  }

  /** The quota holds from the first accepted frame exactly if that frame arrived when the first
      examined one did. */
  lemma {:induction false} QuotaFromFirstIff(m: Moment, t: Timing)
    requires Good(m, t) && m.log != [] && t.maxAge < t.period
    ensures QuotaFrom(m.log[0], t) <==> FirstExamined(m) == Some(m.log[0].frame.arrival)
  {
    assert Legal(m.log[0], t);
    QuotaFromPunctualIff(m.log[0], t);
  }

  class Benchmark {
    const timing: Timing
    var clock: int

    // capture thread
    var capture: CapturePoint
    var captured: nat
    var compressedOverwrites: nat

    // the slots
    var compressed: Option<Frame>
    var prepared: Option<Frame>

    // decode thread
    var decode: DecodePoint
    var nextDue: Option<int>
    var rateLimited: nat
    var staleDrops: nat
    var decodeAttempts: nat
    var decodeFailures: nat
    var preparedCount: nat
    var preparedOverwrites: nat

    // inference loop
    var infer: InferPoint
    var inferred: nat

    // history; `pulled` numbers the frames
    var pulled: nat
    ghost var log: seq<Acceptance>
    ghost var results: seq<Frame>

    constructor (timing: Timing, clock: int)
      requires Sensible(timing)
      ensures Valid() && this.timing == timing && log == [] && results == []
    {
      this.timing := timing;
      this.clock := clock;
      capture, captured, compressedOverwrites := Pulling, 0, 0;
      compressed, prepared := None, None;
      decode, nextDue := WaitingFrame, None;
      rateLimited, staleDrops, decodeAttempts, decodeFailures := 0, 0, 0, 0;
      preparedCount, preparedOverwrites := 0, 0;
      infer, inferred := Polling, 0;
      pulled, log, results := 0, [], [];
    }

    ghost function Now(): Moment
      reads this
    {
      Moment(clock, capture, pulled, captured, compressedOverwrites, compressed, decode, nextDue, rateLimited,
             staleDrops, decodeAttempts, decodeFailures, preparedCount, preparedOverwrites, prepared, infer, inferred,
             log, results)
    }

    ghost predicate Valid()
      reads this
    {
      Good(Now(), timing)
    }

    method PullSample()
      requires capture == Pulling
      modifies `capture, `pulled
      ensures Captured(old(Now()), Now())
    {
      capture := Stamped(Frame(pulled, clock));
      pulled := pulled + 1;
    }

    /** The latest-frame slot: an unread frame gives way to the newer one. */
    method Put()
      requires capture.Stamped?
      modifies `capture, `compressed, `compressedOverwrites
      ensures Captured(old(Now()), Now())
    {
      if compressed.Some? {
        compressedOverwrites := compressedOverwrites + 1;
      }
      compressed := Some(capture.frame);
      capture := CountingCapture;
    }

    method CountCapture()
      requires capture == CountingCapture
      modifies `capture, `captured
      ensures Captured(old(Now()), Now())
    {
      captured := captured + 1;
      capture := Pulling;
    }

    method Take()
      requires timing.period > 0 && decode == WaitingFrame
      modifies `decode, `compressed
      ensures Decoded(true, old(Now()), Now(), timing)
    {
      if compressed.Some? {
        decode := Holding(compressed.value);
        compressed := None;
      }
    }

    /** The first frame examined is due at once; then the rate limit comes first, the age second. */
    method ExamineFrame()
      requires timing.period > 0 && decode.Holding? && decode.frame.arrival <= clock
      modifies `decode, `nextDue, `rateLimited, `staleDrops, `decodeAttempts, `log
      ensures var frame := old(decode).frame;
        Examined(frame, if old(nextDue).Some? then old(nextDue).value else frame.arrival, old(Now()), Now(), timing)
    {
      var frame := decode.frame;
      if nextDue.None? {
        nextDue := Some(frame.arrival);
      }
      if frame.arrival < nextDue.value {
        rateLimited := rateLimited + 1;
        decode := WaitingFrame;
      } else if clock - frame.arrival > timing.maxAge {
        staleDrops := staleDrops + 1;
        decode := WaitingFrame;
      } else {
        var next := Advance(nextDue.value, clock, timing.period);
        log := log + [Acceptance(frame, nextDue.value, clock, next)];
        nextDue := Some(next);
        decodeAttempts := decodeAttempts + 1;
        decode := Decoding(frame);
      }
    }

    method FinishDecode(success: bool)
      requires timing.period > 0 && decode.Decoding?
      modifies `decode, `decodeFailures
      ensures Decoded(success, old(Now()), Now(), timing)
    {
      if success {
        decode := Ready(decode.frame);
      } else {
        decodeFailures := decodeFailures + 1;
        decode := WaitingFrame;
      }
    }

    method PutReady()
      requires timing.period > 0 && decode.Ready?
      modifies `decode, `prepared, `preparedOverwrites
      ensures Decoded(true, old(Now()), Now(), timing)
    {
      if prepared.Some? {
        preparedOverwrites := preparedOverwrites + 1;
      }
      prepared := Some(decode.frame);
      decode := CountingPrepared;
    }

    method CountReady()
      requires timing.period > 0 && decode == CountingPrepared
      modifies `decode, `preparedCount
      ensures Decoded(true, old(Now()), Now(), timing)
    {
      preparedCount := preparedCount + 1;
      decode := WaitingFrame;
    }

    method TakeReady()
      requires infer == Polling
      modifies `infer, `prepared
      ensures Inferred(old(Now()), Now())
    {
      if prepared.Some? {
        infer := Inferring(prepared.value);
        prepared := None;
      }
    }

    method FinishInference()
      requires infer.Inferring?
      modifies `infer, `inferred, `results
      ensures Inferred(old(Now()), Now())
    {
      results := results + [infer.frame];
      inferred := inferred + 1;
      infer := Polling;
    }

    /** The capture thread's next step. */
    method CaptureStep()
      modifies `capture, `pulled, `captured, `compressed, `compressedOverwrites
      ensures Captured(old(Now()), Now())
    {
      match capture {
        case Pulling => PullSample();
        case Stamped(_) => Put();
        case CountingCapture => CountCapture();
      }
    }

    /** The decode thread's next step. */
    method DecodeStep(success: bool)
      requires timing.period > 0 && (decode.Holding? ==> decode.frame.arrival <= clock)
      modifies `decode, `compressed, `prepared, `nextDue, `log, `rateLimited, `staleDrops, `decodeAttempts,
        `decodeFailures, `preparedCount, `preparedOverwrites
      ensures Decoded(success, old(Now()), Now(), timing)
    {
      match decode {
        case WaitingFrame => Take();
        case Holding(_) => ExamineFrame();
        case Decoding(_) => FinishDecode(success);
        case Ready(_) => PutReady();
        case CountingPrepared => CountReady();
      }
    }

    /** The inference loop's next step. */
    method InferStep()
      modifies `infer, `prepared, `inferred, `results
      ensures Inferred(old(Now()), Now())
    {
      match infer {
        case Polling => TakeReady();
        case Inferring(_) => FinishInference();
      }
    }

    method TakeStep(action: Action)
      requires Valid()
      modifies this
      ensures Valid() && Stepped(action, old(Now()), Now(), timing)
    {
      ghost var before := Now();
      match action {
        case Elapse(ticks) => clock := clock + ticks;
        case Capture => CaptureStep();
        case Decode(success) => DecodeStep(success);
        case Infer => InferStep();
      }
      StepKeepsGood(action, before, Now(), timing);
    }

    /** Any interleaving of any length: every action takes its step, and whatever the order, frames
        are conserved and stay in order, and no accepted frame was too old. */
    method Run(schedule: seq<Action>) returns (ghost moments: seq<Moment>)
      requires Valid()
      modifies this
      ensures Valid() && Conserved(Now())
      ensures Ordered(results) && AllPassed(results, log)
      ensures forall k :: 0 <= k < |log| ==> log[k].examined - log[k].frame.arrival <= timing.maxAge
      ensures Chain(log, timing)
      ensures |moments| == |schedule| + 1 && moments[0] == old(Now()) && moments[|schedule|] == Now()
      ensures forall i :: 0 <= i < |schedule| ==> Stepped(schedule[i], moments[i], moments[i + 1], timing)
    {
      moments := [Now()];
      for i := 0 to |schedule|
        invariant Valid()
        invariant |moments| == i + 1 && moments[0] == old(Now()) && moments[i] == Now()
        invariant forall j :: 0 <= j < i ==> Stepped(schedule[j], moments[j], moments[j + 1], timing)
      {
        TakeStep(schedule[i]);
        moments := moments + [Now()];
      }
    }
  }
}
