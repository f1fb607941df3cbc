/** Task records and the retry policy. */
module Tasks {
  import opened Basics

  datatype Status = Pending | Active | Processed | Failed | Retry | Dead

  /** The fields of a task that the queue protocol reads or writes. */
  datatype Task = Task(
    id: Id,
    queue: string,
    maxRetry: u32,
    priority: int,
    dependsOn: seq<Id>,
    uniqueKey: Option<string>,
    group: Option<string>,
    status: Status,
    retryCnt: nat)

  predicate CanRetry(t: Task) {
    t.retryCnt < t.maxRetry
  }

  function Pow2(n: nat): nat {
    if n == 0 then 1 else 2 * Pow2(n - 1)
  }

  /** The exponent is the retry count plus one (saturating in u32), but at most six. */
  function Exponent(retryCnt: nat): nat {
    var next := if retryCnt + 1 < U32_LIMIT then retryCnt + 1 else U32_LIMIT - 1;
    if next < 6 then next else 6
  }

  function RetryDelay(t: Task): Option<nat> {
    if CanRetry(t) then Some(Pow2(Exponent(t.retryCnt))) else None
  }

  /** How a worker records one failed attempt, before it decides between retry and death. */
  function Attempted(t: Task): Task {
    t.(retryCnt := t.retryCnt + 1)
  }

  /** The number of handler runs that a task is entitled to. */
  function Attempts(t: Task): (n: nat)
    ensures 1 <= n < U32_LIMIT
  {
    if t.maxRetry <= 1 then 1 else t.maxRetry
  }

  /** The delays, in seconds, with which a task that fails every time is rescheduled from now on. */
  function Delays(t: Task): seq<nat>
    decreases if t.maxRetry < t.retryCnt then 0 else t.maxRetry - t.retryCnt
  {
    var next := Attempted(t);
    if CanRetry(next) then [RetryDelay(next).value] + Delays(next) else []
  }

  function Sum(s: seq<nat>): nat {
    if s == [] then 0 else s[0] + Sum(s[1..])
  }

  /** A worker asks for a delay only after it saw that the task can be retried, and then there is one. */
  lemma DelayWhenAsked(t: Task)
    ensures CanRetry(t) <==> RetryDelay(t).Some?
    ensures RetryDelay(t).Some? && t.retryCnt >= 1 ==> 4 <= RetryDelay(t).value <= 64
  {
    PowUpToSix(Exponent(t.retryCnt));
  }

  lemma PowUpToSix(n: nat)
    requires n <= 6
    ensures Pow2(n) == [1, 2, 4, 8, 16, 32, 64][n]
  {
    assert Pow2(0) == 1 && Pow2(1) == 2 && Pow2(2) == 4 && Pow2(3) == 8;
    assert Pow2(4) == 16 && Pow2(5) == 32 && Pow2(6) == 64;
  }

  /** The sum of the remaining delays after c failures, in closed form. */
  function Remaining(m: nat, c: nat): int {
    if c + 1 >= m then 0
    else if m <= 6 then Pow2(m + 1) - Pow2(c + 2)
    else if c < 5 then 128 - Pow2(c + 2) + 64 * (m - 6)
    else 64 * (m - 1 - c)
  }

  lemma {:induction false} DelaysFrom(t: Task)
    requires t.retryCnt < t.maxRetry
    ensures |Delays(t)| == t.maxRetry - 1 - t.retryCnt
    ensures forall i :: 0 <= i < |Delays(t)| ==>
      4 <= Delays(t)[i] <= 64 && Delays(t)[i] == Pow2(Exponent(t.retryCnt + 1 + i))
    ensures Sum(Delays(t)) == Remaining(t.maxRetry, t.retryCnt)
    decreases t.maxRetry - t.retryCnt
  {
    var next := Attempted(t);
    if CanRetry(next) {
      DelaysFrom(next);
      DelayWhenAsked(next);
      var e := Exponent(next.retryCnt);
      PowUpToSix(e);
      assert Delays(t)[1..] == Delays(next);
      RemainingStep(t.maxRetry, t.retryCnt);
      forall i | 0 <= i < |Delays(t)|
        ensures 4 <= Delays(t)[i] <= 64 && Delays(t)[i] == Pow2(Exponent(t.retryCnt + 1 + i))
      {
        if i > 0 {
          assert Delays(t)[i] == Delays(next)[i - 1];
        }
      }
    }
  }

  lemma RemainingStep(m: nat, c: nat)
    requires c + 1 < m < U32_LIMIT
    ensures Remaining(m, c) == Pow2(Exponent(c + 1)) + Remaining(m, c + 1)
  {
    PowUpToSix(6);
    assert c + 2 < U32_LIMIT;
    if m <= 6 || c < 5 {
      assert Pow2(c + 3) == 2 * Pow2(c + 2);
      if c + 2 == m { assert Pow2(m + 1) == 2 * Pow2(c + 2); }
      assert Pow2(7) == 2 * Pow2(6);
    }
  }

  /**
   * A new task that fails every time is rescheduled max_retry - 1 times. The delays never
   * shrink, lie between 4 and 64 seconds, and add up to 2^(m+1) - 4 for m <= 6 and to
   * 124 + 64 * (m - 6) for m >= 6.
   */
  lemma BackoffSchedule(t: Task)
    requires t.retryCnt == 0 && 1 <= t.maxRetry
    ensures |Delays(t)| == t.maxRetry - 1
    ensures forall i :: 0 <= i < |Delays(t)| ==> 4 <= Delays(t)[i] <= 64
    ensures forall i, j :: 0 <= i < j < |Delays(t)| ==> Delays(t)[i] <= Delays(t)[j]
    ensures t.maxRetry <= 6 ==> Sum(Delays(t)) == Pow2(t.maxRetry + 1) - 4
    ensures t.maxRetry >= 6 ==> Sum(Delays(t)) == 124 + 64 * (t.maxRetry - 6)
  {
    DelaysFrom(t);
    PowUpToSix(2);
    PowUpToSix(6);
    assert Pow2(7) == 2 * Pow2(6);
    forall i, j | 0 <= i < j < |Delays(t)|
      ensures Delays(t)[i] <= Delays(t)[j]
    {
      PowUpToSix(Exponent(1 + i));
      PowUpToSix(Exponent(1 + j));
    }
  }
}
