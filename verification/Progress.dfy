/** Throttled progress reports. Times are in nanoseconds of a clock that never goes back. */
module Progress {
  import opened Basics
  import opened Arithmetic

  const MILLISECOND := 1_000_000
  const SECOND := 1_000_000_000

  /** The progress hash of a task in Redis. */
  datatype Stored = Stored(current: Option<u32>, message: Option<string>)

  /** How the two writes of a report end; the second one is only tried if the first one succeeds. */
  datatype Write = HSetFails | ExpireFails | Succeeds

  datatype Outcome = Refused | Throttled | WriteFailed | Reported

  /** The state of a context. */
  datatype Context = Context(throttleMs: nat, last: int, current: u32, stored: Stored)

  function Fresh(throttleMs: nat, now: int): Context {
    Context(throttleMs, now - SECOND, 0, Stored(None, None))
  }

  function Elapsed(c: Context, now: int): nat {
    if now >= c.last then now - c.last else 0
  }

  /** The report is let through to Redis. */
  predicate Passes(c: Context, value: u32, now: int) {
    value == 100 || (value < 100 && Elapsed(c, now) >= c.throttleMs * MILLISECOND)
  }

  function Report(c: Context, value: u32, message: Option<string>, now: int, write: Write): (Context, Outcome) {
    if value > 100 then (c, Refused)
    else if !Passes(c, value, now) then (c, Throttled)
    else
      var stored := Stored(Some(value), if message.Some? then message else c.stored.message);
      match write
      case HSetFails => (c.(last := now), WriteFailed)
      case ExpireFails => (c.(last := now, stored := stored), WriteFailed)
      case Succeeds => (c.(last := now, stored := stored, current := value), Reported)
  }

  /** The value that an increment reports. */
  function Incremented(c: Context, delta: u32): u32 {
    var sum := if c.current + delta < U32_LIMIT then c.current + delta else U32_LIMIT - 1;
    if sum <= 100 then sum else 100
  }

  /** The context as handlers use it. */
  class ProgressContext {
    const throttleMs: nat
    var lastUpdate: int
    var currentValue: u32
    var stored: Stored

    constructor (throttleMs: nat, now: int)
      ensures State() == Fresh(throttleMs, now)
    {
      this.throttleMs, lastUpdate, currentValue, stored := throttleMs, now - SECOND, 0, Stored(None, None);
    }

    function State(): Context
      reads this
    {
      Context(throttleMs, lastUpdate, currentValue, stored)
    }

    method ReportWithMessage(value: u32, message: Option<string>, now: int, write: Write) returns (r: Outcome)
      modifies this
      ensures (State(), r) == Report(old(State()), value, message, now, write)
    {
      if value > 100 {
        return Refused;
      }
      var elapsed := if now >= lastUpdate then now - lastUpdate else 0;
      if elapsed < throttleMs * MILLISECOND && value < 100 {
        return Throttled;
      }
      lastUpdate := now;
      if write.HSetFails? {
        return WriteFailed;
      }
      stored := stored.(current := Some(value));
      if message.Some? {
        stored := stored.(message := message);
      }
      if write.ExpireFails? {
        return WriteFailed;
      }
      currentValue := value;
      return Reported;
    }

    method Increment(delta: u32, now: int, write: Write) returns (r: Outcome)
      modifies this
      ensures (State(), r) == Report(old(State()), Incremented(old(State()), delta), None, now, write)
    {
      var sum := if currentValue + delta < U32_LIMIT then currentValue + delta else U32_LIMIT - 1;
      r := ReportWithMessage(if sum <= 100 then sum else 100, None, now, write);
    }
  }

  // ---- runs ----

  datatype Call =
    | Set(value: u32, message: Option<string>, now: int, write: Write)
    | Add(delta: u32, now: int, write: Write)

  function Asked(c: Context, call: Call): u32 {
    match call
    case Set(value, _, _, _) => value
    case Add(delta, _, _) => Incremented(c, delta)
  }

  function Handle(c: Context, call: Call): (Context, Outcome) {
    Report(c, Asked(c, call), if call.Set? then call.message else None, call.now, call.write)
  }

  /** The context after the calls. */
  function Run(c: Context, calls: seq<Call>): Context {
    if calls == [] then c else Handle(Run(c, calls[..|calls| - 1]), calls[|calls| - 1]).0
  }

  /** The call got as far as the writes. */
  predicate LetThrough(r: Outcome) {
    r.WriteFailed? || r.Reported?
  }

  /** What call number i is answered. */
  function Answer(c: Context, calls: seq<Call>, i: nat): Outcome
    requires i < |calls|
  {
    Handle(Run(c, calls[..i]), calls[i]).1
  }

  /** The times of the reports below 100 that were let through. */
  function PassTimes(c: Context, calls: seq<Call>): seq<int> {
    if calls == [] then []
    else
      var before, call := Run(c, calls[..|calls| - 1]), calls[|calls| - 1];
      PassTimes(c, calls[..|calls| - 1]) +
      if Asked(before, call) < 100 && LetThrough(Handle(before, call).1) then [call.now] else []
  }

  predicate ClockRises(start: int, calls: seq<Call>) {
    (forall i :: 0 <= i < |calls| ==> start <= calls[i].now) &&
    (forall i, j :: 0 <= i < j < |calls| ==> calls[i].now <= calls[j].now)
  }

  predicate Spaced(times: seq<int>, gap: nat) {
    forall i, j :: 0 <= i < j < |times| ==> times[i] + gap <= times[j]
  }

  lemma {:induction false} PassesSpaced(c: Context, start: int, calls: seq<Call>)
    requires ClockRises(start, calls) && c.last <= start
    ensures Run(c, calls).throttleMs == c.throttleMs
    ensures Spaced(PassTimes(c, calls), c.throttleMs * MILLISECOND)
    ensures forall i :: 0 <= i < |PassTimes(c, calls)| ==> PassTimes(c, calls)[i] <= Run(c, calls).last
    ensures Run(c, calls).last <= (if calls == [] then start else calls[|calls| - 1].now)
    decreases |calls|
  {
    if calls != [] {
      PassesSpaced(c, start, calls[..|calls| - 1]);
    }
  }

  /** How many of the times lie between a and b. */
  function CountIn(times: seq<int>, a: int, b: int): nat {
    if times == [] then 0
    else CountIn(times[..|times| - 1], a, b) + if a <= times[|times| - 1] <= b then 1 else 0
  }

  lemma {:induction false} CountSame(times: seq<int>, a: int, b: int, b': int)
    requires b' <= b && forall i :: 0 <= i < |times| ==> times[i] <= b'
    ensures CountIn(times, a, b) == CountIn(times, a, b')
    decreases |times|
  {
    if times != [] {
      CountSame(times[..|times| - 1], a, b, b');
    }
  }

  lemma {:induction false} NoneIn(times: seq<int>, a: int, b: int)
    requires b < a
    ensures CountIn(times, a, b) == 0
    decreases |times|
  {
    if times != [] {
      NoneIn(times[..|times| - 1], a, b);
    }
  }

  /** Times that lie gap apart fill at least that much of the window. */
  lemma {:induction false} SpacedCount(times: seq<int>, gap: nat, a: int, b: int)
    requires Spaced(times, gap) && a <= b
    ensures CountIn(times, a, b) == 0 || gap * (CountIn(times, a, b) - 1) <= b - a
    decreases |times|
  {
    if times != [] {
      var rest, t := times[..|times| - 1], times[|times| - 1];
      if a <= t <= b {
        CountSame(rest, a, b, t - gap);
        if t - gap < a {
          NoneIn(rest, a, t - gap);
        } else {
          SpacedCount(rest, gap, a, t - gap);
          OneMore(gap, CountIn(rest, a, b));
        }
      } else {
        SpacedCount(rest, gap, a, b);
      }
    }
  }

  lemma OneMore(gap: nat, k: int)
    ensures gap * k == gap * (k - 1) + gap
  {
  }

  /**
   * Main result: with a throttle of at least a millisecond, whatever mix of reports and
   * increments is made, at most floor(T / throttle) + 1 reports below 100 get through to Redis
   * in any window of length T.
   */
  lemma ThrottleBound(throttleMs: nat, created: int, calls: seq<Call>, a: int, length: nat)
    requires throttleMs >= 1 && ClockRises(created, calls)
    ensures CountIn(PassTimes(Fresh(throttleMs, created), calls), a, a + length) <= length / (throttleMs * MILLISECOND) + 1
  {
    PassesSpaced(Fresh(throttleMs, created), created, calls);
    var times, gap := PassTimes(Fresh(throttleMs, created), calls), throttleMs * MILLISECOND;
    SpacedCount(times, gap, a, a + length);
    AtMost(CountIn(times, a, a + length), gap, length);
  }

  lemma AtMost(k: nat, gap: nat, length: nat)
    requires gap > 0 && (k == 0 || gap * (k - 1) <= length)
    ensures k <= length / gap + 1
  {
    if k > 0 {
      FitsInto(k - 1, gap, length);
    }
  }

  /** A report of 100 is never throttled: it reaches Redis unless a write fails. */
  lemma CompletionPasses(c: Context, message: Option<string>, now: int, write: Write)
    ensures Report(c, 100, message, now, write).1 == if write.Succeeds? then Reported else WriteFailed
    ensures Report(c, 100, message, now, write).0.stored.current == if write.HSetFails? then c.stored.current else Some(100)
  {
  }

  /** The first report right after creation passes exactly if the throttle is at most a second. */
  lemma FirstReport(throttleMs: nat, now: int, value: u32)
    requires value < 100
    ensures Passes(Fresh(throttleMs, now), value, now) <==> throttleMs <= 1000
  {
  }

  // ---- what each call is answered ----

  /** A call before this one was let through less than the throttle before it, or the context is that new. */
  ghost predicate TooSoon(throttleMs: nat, created: int, calls: seq<Call>, i: nat)
    requires i < |calls|
  {
    || calls[i].now - created < (throttleMs - 1000) * 1_000_000
    || exists j :: 0 <= j < i && LetThrough(Answer(Fresh(throttleMs, created), calls, j)) && calls[i].now - calls[j].now < throttleMs * 1_000_000
  }

  /** After n calls: the time that the next one is measured against is that of the last one let through. */
  ghost predicate LastIs(throttleMs: nat, created: int, calls: seq<Call>, n: nat)
    requires n <= |calls|
  {
    var c := Fresh(throttleMs, created);
    var last := Run(c, calls[..n]).last;
    && Run(c, calls[..n]).throttleMs == throttleMs && created - SECOND <= last
    && (forall j :: 0 <= j < n && LetThrough(Answer(c, calls, j)) ==> calls[j].now <= last)
    && (last == created - SECOND || exists j :: 0 <= j < n && LetThrough(Answer(c, calls, j)) && calls[j].now == last)
  }

  lemma LastNext(throttleMs: nat, created: int, calls: seq<Call>, n: nat)
    requires ClockRises(created, calls) && n < |calls| && LastIs(throttleMs, created, calls, n)
    ensures LastIs(throttleMs, created, calls, n + 1)
  {
    var c := Fresh(throttleMs, created);
    assert calls[..n + 1][..n] == calls[..n] && calls[..n + 1][n] == calls[n];
    var before, after := Run(c, calls[..n]), Run(c, calls[..n + 1]);
    assert after == Handle(before, calls[n]).0;
    assert after.last == if LetThrough(Answer(c, calls, n)) then calls[n].now else before.last;
  }

  lemma {:induction false} LastIsThroughout(throttleMs: nat, created: int, calls: seq<Call>, n: nat)
    requires ClockRises(created, calls) && n <= |calls|
    ensures LastIs(throttleMs, created, calls, n)
  {
    if n == 0 {
      assert calls[..0] == [];
    } else {
      LastIsThroughout(throttleMs, created, calls, n - 1);
      LastNext(throttleMs, created, calls, n - 1);
    }
  }

  /**
   * Main result: over any calls at rising times, a value above 100 is refused; one below 100 is
   * throttled if and only if an earlier call was let through less than the throttle before it, or
   * the context was created less than the throttle minus a second before it; every other call is
   * let through and answered according to its writes.
   */
  lemma AnswersExactly(throttleMs: nat, created: int, calls: seq<Call>, i: nat)
    requires ClockRises(created, calls) && i < |calls|
    ensures var value := Asked(Run(Fresh(throttleMs, created), calls[..i]), calls[i]);
            Answer(Fresh(throttleMs, created), calls, i) ==
              if value > 100 then Refused
              else if value < 100 && TooSoon(throttleMs, created, calls, i) then Throttled
              else if calls[i].write.Succeeds? then Reported
              else WriteFailed
  {
    LastIsThroughout(throttleMs, created, calls, i);
    var before := Run(Fresh(throttleMs, created), calls[..i]);
    assert before.last <= calls[i].now;
    assert calls[i].now - before.last < throttleMs * 1_000_000 <==> TooSoon(throttleMs, created, calls, i);
  }

  /** An increment asks for the sum, but at most for 100. */
  lemma IncrementCaps(c: Context, delta: u32)
    ensures Incremented(c, delta) == if c.current + delta <= 100 then c.current + delta else 100
  {
  }

  // ---- the local value and the one in Redis ----

  /** The value asked for by the last call that was let through and whose writes ended in one of these ways. */
  function LastOf(c: Context, calls: seq<Call>, writes: set<Write>): Option<u32> {
    if calls == [] then None
    else
      var before, call := Run(c, calls[..|calls| - 1]), calls[|calls| - 1];
      if LetThrough(Handle(before, call).1) && call.write in writes then Some(Asked(before, call))
      else LastOf(c, calls[..|calls| - 1], writes)
  }

  /** The message of the last call that was let through with one and whose HSET succeeded. */
  function LastMessage(c: Context, calls: seq<Call>): Option<string> {
    if calls == [] then None
    else
      var before, call := Run(c, calls[..|calls| - 1]), calls[|calls| - 1];
      if LetThrough(Handle(before, call).1) && !call.write.HSetFails? && call.Set? && call.message.Some? then call.message
      else LastMessage(c, calls[..|calls| - 1])
  }

  function OrZero(v: Option<u32>): u32 { if v.Some? then v.value else 0 }

  /**
   * The local value never leaves 0..100; it is the last one let through both of whose writes
   * succeeded. Redis shows the last one whose HSET succeeded, whether the EXPIRE after it did or
   * not, and the last message that was written.
   */
  lemma {:induction false} ValueTracks(throttleMs: nat, created: int, calls: seq<Call>)
    ensures var c0 := Fresh(throttleMs, created); var c := Run(c0, calls);
            && c.current <= 100
            && c.current == OrZero(LastOf(c0, calls, {Succeeds}))
            && c.stored.current == LastOf(c0, calls, {Succeeds, ExpireFails})
            && c.stored.message == LastMessage(c0, calls)
    decreases |calls|
  {
    if calls != [] {
      ValueTracks(throttleMs, created, calls[..|calls| - 1]);
    }
  }

  /** Redis shows the local value, or nothing while that is zero. */
  predicate Agree(c: Context) {
    OrZero(c.stored.current) == c.current
  }

  /** The last call that reached Redis succeeded, or asked for the value that was there locally. */
  predicate LastWriteKept(c: Context, calls: seq<Call>) {
    calls != [] ==>
      var before, call := Run(c, calls[..|calls| - 1]), calls[|calls| - 1];
      if LetThrough(Handle(before, call).1) && !call.write.HSetFails?
      then call.write.Succeeds? || Asked(before, call) == before.current
      else LastWriteKept(c, calls[..|calls| - 1])
  }

  /**
   * Main result: the two values agree if and only if the last call that reached Redis either set
   * the expiry as well, or asked for the value that was there locally. So a failed EXPIRE makes
   * them differ until the next report that succeeds.
   */
  lemma {:induction false} AgreeIffLastWriteKept(throttleMs: nat, created: int, calls: seq<Call>)
    ensures Agree(Run(Fresh(throttleMs, created), calls)) <==> LastWriteKept(Fresh(throttleMs, created), calls)
    decreases |calls|
  {
    if calls != [] {
      AgreeIffLastWriteKept(throttleMs, created, calls[..|calls| - 1]);
    }
  }

  /** A first report of 7 whose EXPIRE fails: Redis shows 7, and an increment by one then reports 1. */
  lemma ExpireFailureShows(created: int)
    ensures var c := Run(Fresh(500, created), [Set(7, None, created, ExpireFails)]);
            c.stored.current == Some(7) && c.current == 0 && !Agree(c) && Incremented(c, 1) == 1
  {
    var calls := [Set(7, None, created, ExpireFails)];
    assert calls[..0] == [];
    assert Run(Fresh(500, created), []) == Fresh(500, created);
  }
}
