/** Retries on the clock: when a row's timer is due, and how much later its sends are. All
    times here are written out in milliseconds. */
module RetryClock {
  import opened Options
  import opened BigoApi
  import opened Sums
  import opened RetryQueue

  // ----- One refusal -----

  /** The wait before a retry, by the code of the refusal and the number of the retry. */
  function WaitMs(rescode: int, retry: nat): nat {
    if rescode == 7212012 then
      (if retry == 1 then 1_800_000 else if retry == 2 then 3_600_000 else 5_400_000)
    else
      (if retry == 1 then 180_000 else if retry == 2 then 780_000 else 1_680_000)
  }

  /** The first answer to a row that was sent at now or before: a delivery ends it, the two
      retryable codes schedule it that long after the answer, any other code fails it. */
  lemma FirstAnswerSchedules(q: Queue, r: nat, x: Answer, now: int)
    requires Awaits(q, r, true)
    ensures var q' := AnswerFirst(q, r, x, now);
      r < |q'.rows|
      && match x.refusal
         case None => q'.rows[r].status == Success && q'.rows[r].rescode == Some(0)
         case Some(code) =>
           if code == 7212012 || code == 500001 then
             q'.rows[r].status == RetryPending && q'.rows[r].nextRetry == Some(now + WaitMs(code, 1))
             && r in q'.timers && q'.timers[r].due == now + WaitMs(code, 1)
           else q'.rows[r].status == Failed && q'.timers == q.timers
  {
  }

  /** The answer to the retry with number attempt. */
  lemma RetryAnswerSchedules(q: Queue, r: nat, x: Answer, now: int)
    requires Awaits(q, r, false) && q.calls[r] <= 3
    ensures var q' := AnswerRetry(q, r, x, now);
      var next := q.calls[r] + 1;
      r < |q'.rows|
      && match x.refusal
         case None => q'.rows[r].status == Success && q'.rows[r].nextRetry == None
         case Some(code) =>
           if (code == 7212012 || code == 500001) && next <= 3 then
             q'.rows[r].status == RetryPending && q'.rows[r].nextRetry == Some(now + WaitMs(code, next))
             && r in q'.timers && q'.timers[r].due == now + WaitMs(code, next)
           else q'.rows[r].status == Failed && q'.timers == q.timers
  {
  }

  // ----- The instants of a row's sends -----

  function SendTimes(log: seq<Note>, r: nat): seq<int> {
    if |log| == 0 then []
    else
      var n := log[|log| - 1];
      SendTimes(log[..|log| - 1], r) + (if n.Sent? && n.row == r then [n.at] else [])
  }

  /** The clock does not run backwards between two notes of the row. */
  ghost predicate OnClock(log: seq<Note>, r: nat) {
    forall i, j | 0 <= i < j < |log| && log[i].row == r && log[j].row == r :: log[i].at <= log[j].at
  }

  lemma SendTimesAppend(log: seq<Note>, n: Note, r: nat)
    ensures SendTimes(log + [n], r) == SendTimes(log, r) + (if n.Sent? && n.row == r then [n.at] else [])
  {
    assert (log + [n])[..|log|] == log;
  }

  lemma {:induction false} SendTimesCount(log: seq<Note>, r: nat)
    ensures |SendTimes(log, r)| == Sum(log, SendOf(r))
  {
    if |log| == 0 {
    } else {
      SendTimesCount(log[..|log| - 1], r);
    }
  }

  lemma {:induction false} LastSendIsNoted(log: seq<Note>, r: nat)
    requires |SendTimes(log, r)| > 0
    ensures exists k | 0 <= k < |log| ::
      log[k].Sent? && log[k].row == r && log[k].at == SendTimes(log, r)[|SendTimes(log, r)| - 1]
  {
    var n := log[|log| - 1];
    if n.Sent? && n.row == r {
      assert log[|log| - 1].at == SendTimes(log, r)[|SendTimes(log, r)| - 1];
    } else {
      var before := log[..|log| - 1];
      LastSendIsNoted(before, r);
      var k :| 0 <= k < |before| && before[k].Sent? && before[k].row == r
        && before[k].at == SendTimes(before, r)[|SendTimes(before, r)| - 1];
      assert log[k] == before[k];
    }
  }

  lemma PrefixOnClock(log: seq<Note>, more: seq<Note>, r: nat)
    requires OnClock(log + more, r)
    ensures OnClock(log, r)
  {
    forall i, j | 0 <= i < j < |log| && log[i].row == r && log[j].row == r ensures log[i].at <= log[j].at {
      assert (log + more)[i] == log[i] && (log + more)[j] == log[j];
    }
  }

  // ----- What every step keeps -----

  /** Note k scheduled the pending retry of row r, at the instant of the refusal before it,
      and no note of the row is later. */
  ghost predicate ScheduledBy(q: Queue, r: nat, k: nat)
    requires r < |q.rows|
  {
    && 0 < k < |q.log| && q.log[k].Scheduled? && q.log[k].row == r
    && q.log[k - 1].Answered? && q.log[k - 1].row == r && q.log[k - 1].at == q.log[k].at
    && (forall m | k < m < |q.log| :: q.log[m].row != r)
    && q.rows[r].rescode.Some? && 60_000 * q.log[k].minutes == WaitMs(q.rows[r].rescode.value, q.rows[r].attempts)
    && r in q.timers && q.timers[r].due == q.log[k].at + 60_000 * q.log[k].minutes
    && q.rows[r].nextRetry == Some(q.timers[r].due)
  }

  /** The instant that ends the waits so far. */
  function WaitEnd(q: Queue, r: nat): int
    requires r < |q.rows| && |SendTimes(q.log, r)| > 0
  {
    if q.rows[r].status == RetryPending && r in q.timers then q.timers[r].due
    else SendTimes(q.log, r)[|SendTimes(q.log, r)| - 1]
  }

  ghost predicate RowTimed(q: Queue, r: nat)
    requires r < |q.rows|
  {
    && |SendTimes(q.log, r)| > 0
    && (q.rows[r].status == RetryPending ==> exists k: nat :: ScheduledBy(q, r, k))
    && (OnClock(q.log, r) ==> 60_000 * Waited(q, r) <= WaitEnd(q, r) - SendTimes(q.log, r)[0])
  }

  ghost predicate Timed(q: Queue) { forall r | 0 <= r < |q.rows| :: RowTimed(q, r) }

  /** Notes about other rows, and what happens to other rows, do not matter. */
  ghost predicate RowAside(q: Queue, q': Queue, r: nat)
    requires r < |q.rows|
  {
    && r < |q'.rows| && q'.rows[r] == q.rows[r]
    && (r in q.timers <==> r in q'.timers) && (r in q.timers ==> q'.timers[r] == q.timers[r])
    && q.log <= q'.log && (forall k | |q.log| <= k < |q'.log| :: q'.log[k].row != r)
  }

  lemma {:induction false} AsideSums(log: seq<Note>, log': seq<Note>, r: nat)
    requires log <= log' && forall k | |log| <= k < |log'| :: log'[k].row != r
    ensures SendTimes(log', r) == SendTimes(log, r) && Sum(log', MinutesOf(r)) == Sum(log, MinutesOf(r))
    decreases |log'|
  {
    if |log'| == |log| {
      assert log' == log;
    } else {
      AsideSums(log, log'[..|log'| - 1], r);
    }
  }

  lemma AsideStaysTimed(q: Queue, q': Queue, r: nat)
    requires r < |q.rows| && RowTimed(q, r) && RowAside(q, q', r)
    ensures RowTimed(q', r)
  {
    AsideSums(q.log, q'.log, r);
    assert q'.log == q.log + q'.log[|q.log|..];
    if OnClock(q'.log, r) { PrefixOnClock(q.log, q'.log[|q.log|..], r); }
    if q.rows[r].status == RetryPending {
      var k: nat :| ScheduledBy(q, r, k);
      assert ScheduledBy(q', r, k);
    }
  }

  lemma OpenedIsTimed(q: Queue, n: string, dto: Body, seqid: NonEmpty, now: int)
    requires Budgets(q) && !Used(q.rows, n)
    ensures RowTimed(Open(q, n, dto, seqid, now).value, |q.rows|)
  {
    var r := |q.rows|;
    var note := Sent(r, Stamp(dto, seqid), now);
    AsideSums([], q.log, r);
    SendTimesAppend(q.log, note, r);
    SumAppend(q.log, note, MinutesOf(r));
  }

  lemma FiredIsTimed(q: Queue, r: nat, now: int)
    requires r < |q.rows| && RowTimed(q, r) && RowAgrees(q, r)
    ensures RowTimed(Fire(q, r, now), r)
  {
    if r in q.timers && now >= q.timers[r].due {
      var row := q.rows[r];
      var note := Sent(r, Stamp(ReconstructDto(row.request), row.seqid), now);
      SendTimesAppend(q.log, note, r);
      SumAppend(q.log, note, MinutesOf(r));
      if OnClock(q.log + [note], r) { PrefixOnClock(q.log, [note], r); }
    }
  }

  /** Hearing an answer adds no wait and no send. */
  lemma HungUp(q: Queue, r: nat, x: Answer, now: int)
    requires r < |q.rows| && q.rows[r].status == Requested && RowTimed(q, r)
    ensures RowTimed(HangUp(q, r, x, now), r)
    ensures OnClock(HangUp(q, r, x, now).log, r) ==> WaitEnd(q, r) <= now
  {
    var note := Answered(r, x.posts, now);
    SendTimesAppend(q.log, note, r);
    SumAppend(q.log, note, MinutesOf(r));
    if OnClock(q.log + [note], r) {
      PrefixOnClock(q.log, [note], r);
      LastSendIsNoted(q.log, r);
      var k :| 0 <= k < |q.log| && q.log[k].Sent? && q.log[k].row == r
        && q.log[k].at == SendTimes(q.log, r)[|SendTimes(q.log, r)| - 1];
      assert (q.log + [note])[k] == q.log[k] && (q.log + [note])[|q.log|] == note;
    }
  }

  lemma EndedIsTimed(q: Queue, q': Queue, r: nat)
    requires r < |q.rows| && RowTimed(q, r) && q.rows[r].status != RetryPending
    requires r < |q'.rows| && q'.rows[r].status != RetryPending && q'.log == q.log
    ensures RowTimed(q', r)
  {
  }

  /** Scheduling a retry right after the refusal was heard. */
  lemma ScheduledIsTimed(q: Queue, r: nat, rescode: int, attempt: Attempt, now: int)
    requires r < |q.rows| && q.rows[r].status == Requested && RowTimed(q, r)
    requires |q.log| > 0 && q.log[|q.log| - 1].Answered? && q.log[|q.log| - 1].row == r
    requires q.log[|q.log| - 1].at == now
    requires OnClock(q.log, r) ==> WaitEnd(q, r) <= now
    requires ShouldRetry(rescode) && attempt <= MAX_RETRIES
    ensures RowTimed(AddToRetryQueue(q, r, rescode, attempt, now), r)
  {
    var note := Scheduled(r, RetryDelay(rescode, attempt), now);
    SendTimesAppend(q.log, note, r);
    SumAppend(q.log, note, MinutesOf(r));
    if OnClock(q.log + [note], r) { PrefixOnClock(q.log, [note], r); }
    var q' := AddToRetryQueue(q, r, rescode, attempt, now);
    assert ScheduledBy(q', r, |q.log|);
  }

  /** A refusal of an open request, heard and handled at now. */
  lemma RefusedIsTimed(q: Queue, r: nat, x: Answer, rescode: int, attempt: Attempt, now: int)
    requires r < |q.rows| && q.rows[r].status == Requested && RowTimed(q, r)
    ensures RowTimed(AddToRetryQueue(HangUp(q, r, x, now), r, rescode, attempt, now), r)
  {
    var q1 := HangUp(q, r, x, now);
    HungUp(q, r, x, now);
    if ShouldRetry(rescode) && attempt <= MAX_RETRIES {
      SameEnd(q, r, x, now);
      ScheduledIsTimed(q1, r, rescode, attempt, now);
    } else {
      EndedIsTimed(q1, MarkFailed(q1, r), r);
    }
  }

  lemma SameEnd(q: Queue, r: nat, x: Answer, now: int)
    requires r < |q.rows| && q.rows[r].status == Requested && |SendTimes(q.log, r)| > 0
    ensures |SendTimes(HangUp(q, r, x, now).log, r)| > 0 && WaitEnd(HangUp(q, r, x, now), r) == WaitEnd(q, r)
  {
    SendTimesAppend(q.log, Answered(r, x.posts, now), r);
  }

  lemma AnsweredIsTimed(q: Queue, r: nat, x: Answer, now: int)
    requires r < |q.rows| && r in q.calls && RowAgrees(q, r) && RowTimed(q, r)
    ensures RowTimed(if q.calls[r] == 0 then AnswerFirst(q, r, x, now) else AnswerRetry(q, r, x, now), r)
  {
    match x.refusal
    case Some(rescode) => RefusedIsTimed(q, r, x, rescode, q.calls[r] + 1, now);
    case None =>
      HungUp(q, r, x, now);
      EndedIsTimed(HangUp(q, r, x, now),
                   if q.calls[r] == 0 then AnswerFirst(q, r, x, now) else AnswerRetry(q, r, x, now), r);
  }

  /** The row that a step is about. */
  function RowOf(q: Queue, a: QueueStep): nat {
    match a
    case DoOpen(_, _, _, _) => |q.rows|
    case DoAnswerFirst(r, _, _) => r
    case DoFire(r, _) => r
    case DoAnswerRetry(r, _, _) => r
  }

  lemma OthersAside(q: Queue, a: QueueStep, r: nat)
    requires r < |q.rows| && r != RowOf(q, a)
    ensures RowAside(q, Step(q, a), r)
  {
  }

  lemma StepKeepsRowTimed(q: Queue, a: QueueStep, r: nat)
    requires TimersAgree(q) && r < |q.rows| && RowTimed(q, r) && r == RowOf(q, a)
    ensures r < |Step(q, a).rows| && RowTimed(Step(q, a), r)
  {
    assert RowAgrees(q, r);
    match a
    case DoFire(_, now) => FiredIsTimed(q, r, now);
    case DoAnswerFirst(_, x, now) => if Awaits(q, r, true) { AnsweredIsTimed(q, r, x, now); }
    case DoAnswerRetry(_, x, now) => if Awaits(q, r, false) { AnsweredIsTimed(q, r, x, now); }
  }

  lemma StepKeepsTimed(q: Queue, a: QueueStep)
    requires TimersAgree(q) && Budgets(q) && Timed(q)
    ensures Timed(Step(q, a))
  {
    forall r | 0 <= r < |Step(q, a).rows| ensures RowTimed(Step(q, a), r) {
      if r == |q.rows| {
        OpenedIsTimed(q, a.buOrderId, a.dto, a.seqid, a.now);
      } else if r == RowOf(q, a) {
        StepKeepsRowTimed(q, a, r);
      } else {
        OthersAside(q, a, r);
        AsideStaysTimed(q, Step(q, a), r);
      }
    }
  }

  lemma {:induction false} RunKeepsTimed(steps: seq<QueueStep>)
    requires forall a | a in steps :: Proper(a)
    ensures Inv(Run(EMPTY, steps)) && Timed(Run(EMPTY, steps))
  {
    RunKeepsInv(EMPTY, steps);
    if |steps| == 0 {
    } else {
      RunKeepsTimed(steps[..|steps| - 1]);
      StepKeepsTimed(Run(EMPTY, steps[..|steps| - 1]), steps[|steps| - 1]);
    }
  }

  // ----- Main results -----

  /** In every reachable state a pending row is due exactly the wait of its code and retry
      after the refusal that scheduled it. */
  lemma {:induction false} PendingIsDue(steps: seq<QueueStep>, r: nat)
    requires forall a | a in steps :: Proper(a)
    requires r < |Run(EMPTY, steps).rows| && Run(EMPTY, steps).rows[r].status == RetryPending
    ensures exists k: nat :: ScheduledBy(Run(EMPTY, steps), r, k)
  {
    RunKeepsTimed(steps);
    assert RowTimed(Run(EMPTY, steps), r);
  }

  /** The state of a row that failed at its fourth request. */
  ghost predicate FourthRefused(q: Queue, r: nat) {
    r < |q.rows| && q.rows[r].status == Failed && |SendTimes(q.log, r)| == 4
  }

  lemma FourthIsLate(q: Queue, r: nat)
    requires Inv(q) && Timed(q) && FourthRefused(q, r) && OnClock(q.log, r)
    ensures var t := SendTimes(q.log, r);
      && 2_640_000 <= 60_000 * Waited(q, r) <= 10_800_000
      && t[3] - t[0] >= 60_000 * Waited(q, r) >= 2_640_000
  {
    assert RowAgrees(q, r) && WithinBudget(q, r) && RowTimed(q, r);
    SendTimesCount(q.log, r);
  }

  /** As long as the clock does not run backwards, a row that fails at its fourth request has
      sent it at least 44 minutes after its first; its scheduled waits add up to between 44
      and 180 minutes. */
  lemma {:induction false} FourthSendIsLate(steps: seq<QueueStep>, r: nat)
    requires forall a | a in steps :: Proper(a)
    requires FourthRefused(Run(EMPTY, steps), r) && OnClock(Run(EMPTY, steps).log, r)
    ensures var t := SendTimes(Run(EMPTY, steps).log, r);
      var waits := 60_000 * Waited(Run(EMPTY, steps), r);
      2_640_000 <= waits <= 10_800_000 && t[3] - t[0] >= waits
  {
    RunKeepsTimed(steps);
    FourthIsLate(Run(EMPTY, steps), r);
  }
}
