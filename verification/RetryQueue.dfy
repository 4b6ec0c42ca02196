/** The rs_recharge rows, their retry timers and the signed requests under way.
    A row is named by its position in the table; rows are never deleted. */
module RetryQueue {
  import opened Options
  import opened BigoApi
  import opened Sums
  import opened Calendar

  const MAX_RETRIES: nat := 3
  const RETRY_DELAYS: seq<nat> := [3, 13, 28]
  const RATE_LIMITED := 7212012
  const INTERNAL_ERROR := 500001

  type Attempt = n: nat | n >= 1 witness 1

  datatype BigoStatus = Requested | Success | Failed | RetryPending

  datatype BigoRow = BigoRow(
    buOrderId: string, seqid: NonEmpty, request: Body,
    status: BigoStatus, attempts: nat, nextRetry: Option<int>, rescode: Option<int>)

  // A pending setTimeout: the attempt its closure captured and when it fires.
  datatype Timer = Timer(attempt: Attempt, due: int)

  // History of the queue, kept to state what was sent, when, and how long was waited.
  datatype Note =
    | Sent(row: nat, body: Body, at: int)
    | Answered(row: nat, posts: nat, at: int)
    | Scheduled(row: nat, minutes: nat, at: int)

  /** calls holds the signed requests that await an answer, with the number of the
      retry that made each of them (0 for the first request). */
  datatype Queue = Queue(rows: seq<BigoRow>, timers: map<nat, Timer>, calls: map<nat, nat>, log: seq<Note>)

  const EMPTY := Queue([], map[], map[], [])

  // ----- The operations -----

  predicate ShouldRetry(rescode: int) { rescode == RATE_LIMITED || rescode == INTERNAL_ERROR }

  function Min(a: int, b: int): int { if a <= b then a else b }

  /** Minutes to wait before the given attempt; an attempt outside the table, or a zero
      entry of it, falls back to 30. */
  function RetryDelay(rescode: int, attempt: nat): nat {
    if rescode == RATE_LIMITED then Min(30 * attempt, 120)
    else if 1 <= attempt <= |RETRY_DELAYS| && RETRY_DELAYS[attempt - 1] != 0
    then RETRY_DELAYS[attempt - 1] else 30
  }

  predicate Used(rows: seq<BigoRow>, buOrderId: string) {
    exists r | 0 <= r < |rows| :: rows[r].buOrderId == buOrderId
  }

  /** The check for a used bu_orderid and the insertion of the log row, then the send.
      None is the "has already been used" error. */
  function Open(q: Queue, buOrderId: string, dto: Body, seqid: NonEmpty, now: int): Option<Queue> {
    if Used(q.rows, buOrderId) then None
    else
      var body := Stamp(dto, seqid);
      var r := |q.rows|;
      Some(Queue(
        q.rows + [BigoRow(buOrderId, seqid, body, Requested, 0, None, None)],
        q.timers, q.calls[r := 0], q.log + [Sent(r, body, now)]))
  }

  function MarkFailed(q: Queue, r: nat): Queue
    requires r < |q.rows|
  {
    q.(rows := q.rows[r := q.rows[r].(status := Failed, nextRetry := None)])
  }

  function AddToRetryQueue(q: Queue, r: nat, rescode: int, attempt: Attempt, now: int): Queue
    requires r < |q.rows|
  {
    if !ShouldRetry(rescode) || attempt > MAX_RETRIES then MarkFailed(q, r)
    else
      var minutes := RetryDelay(rescode, attempt);
      var due := now + minutes * MINUTE;
      q.(rows := q.rows[r := q.rows[r].(status := RetryPending, nextRetry := Some(due),
                                        attempts := attempt, rescode := Some(rescode))],
         timers := q.timers[r := Timer(attempt, due)],
         log := q.log + [Scheduled(r, minutes, now)])
  }

  predicate Awaits(q: Queue, r: nat, first: bool) {
    r < |q.rows| && r in q.calls && (q.calls[r] == 0 <==> first)
  }

  function HangUp(q: Queue, r: nat, x: Answer, now: int): Queue {
    q.(calls := q.calls - {r}, log := q.log + [Answered(r, x.posts, now)])
  }

  /** The answer to the first request of a row. */
  function AnswerFirst(q: Queue, r: nat, x: Answer, now: int): Queue {
    if !Awaits(q, r, true) then q
    else
      var q' := HangUp(q, r, x, now);
      match x.refusal
      case None => q'.(rows := q'.rows[r := q'.rows[r].(status := Success, rescode := Some(0))])
      case Some(rescode) => AddToRetryQueue(q', r, rescode, 1, now)
  }

  /** A timer fires, not before it is due: the first half of processSpecificRetry, up to
      the send. */
  function Fire(q: Queue, r: nat, now: int): Queue {
    if r !in q.timers || now < q.timers[r].due then q
    else
      var q' := q.(timers := q.timers - {r});
      if r >= |q.rows| || q.rows[r].status != RetryPending then q'
      else
        var row := q.rows[r];
        q'.(rows := q.rows[r := row.(status := Requested)],
            calls := q.calls[r := q.timers[r].attempt],
            log := q.log + [Sent(r, Stamp(ReconstructDto(row.request), row.seqid), now)])
  }

  /** The answer to a retry: the second half of processSpecificRetry. */
  function AnswerRetry(q: Queue, r: nat, x: Answer, now: int): Queue {
    if !Awaits(q, r, false) then q
    else
      var attempt := q.calls[r];
      var q' := HangUp(q, r, x, now);
      match x.refusal
      case None => q'.(rows := q'.rows[r := q'.rows[r].(status := Success, nextRetry := None)])
      case Some(rescode) =>
        if ShouldRetry(rescode) then AddToRetryQueue(q', r, rescode, attempt + 1, now)
        else MarkFailed(q', r)
  }

  datatype QueueStep =
    | DoOpen(buOrderId: string, dto: Body, seqid: NonEmpty, now: int)
    | DoAnswerFirst(row: nat, x: Answer, now: int)
    | DoFire(row: nat, now: int)
    | DoAnswerRetry(row: nat, x: Answer, now: int)

  function Step(q: Queue, a: QueueStep): Queue {
    match a
    case DoOpen(n, dto, seqid, now) => (match Open(q, n, dto, seqid, now) case Some(q') => q' case None => q)
    case DoAnswerFirst(r, x, now) => AnswerFirst(q, r, x, now)
    case DoFire(r, now) => Fire(q, r, now)
    case DoAnswerRetry(r, x, now) => AnswerRetry(q, r, x, now)
  }

  function Run(q: Queue, steps: seq<QueueStep>): Queue {
    if |steps| == 0 then q else Step(Run(q, steps[..|steps| - 1]), steps[|steps| - 1])
  }

  /** Only dto fields, with the order number among them. */
  predicate ProperDto(buOrderId: string, dto: Body) {
    dto.Keys <= DTO_FIELDS && BuOrderid in dto && dto[BuOrderid] == Text(buOrderId)
  }

  /** Every dto that is opened is proper. */
  predicate Proper(a: QueueStep) { a.DoOpen? ==> ProperDto(a.buOrderId, a.dto) }

  // ----- What every step keeps -----

  function SendOf(r: nat): Note -> int { (n: Note) => if n.Sent? && n.row == r then 1 else 0 }
  function AnswerOf(r: nat): Note -> int { (n: Note) => if n.Answered? && n.row == r then 1 else 0 }
  function PostsOf(r: nat): Note -> int { (n: Note) => if n.Answered? && n.row == r then n.posts else 0 }
  function MinutesOf(r: nat): Note -> int { (n: Note) => if n.Scheduled? && n.row == r then n.minutes else 0 }

  function Sends(q: Queue, r: nat): int { Sum(q.log, SendOf(r)) }
  function Answers(q: Queue, r: nat): int { Sum(q.log, AnswerOf(r)) }
  function HttpPosts(q: Queue, r: nat): int { Sum(q.log, PostsOf(r)) }
  function Waited(q: Queue, r: nat): int { Sum(q.log, MinutesOf(r)) }

  function LeastWait(attempts: nat): nat {
    if attempts == 0 then 0 else if attempts == 1 then 3 else if attempts == 2 then 16 else 44
  }
  function MostWait(attempts: nat): nat {
    if attempts == 0 then 0 else if attempts == 1 then 30 else if attempts == 2 then 90 else 180
  }

  predicate Terminal(row: BigoRow) { row.status == Success || row.status == Failed }

  /** Timers are exactly the pending rows and calls exactly the requested ones. */
  ghost predicate TimersAgree(q: Queue) {
    && (forall r | r in q.timers :: r < |q.rows|)
    && (forall r | r in q.calls :: r < |q.rows|)
    && (forall r | 0 <= r < |q.rows| :: RowAgrees(q, r))
  }

  ghost predicate RowAgrees(q: Queue, r: nat)
    requires r < |q.rows|
  {
    var row := q.rows[r];
    && (r in q.timers <==> row.status == RetryPending)
    && (r in q.calls <==> row.status == Requested)
    && row.attempts <= MAX_RETRIES
    && (row.status == RetryPending ==>
          q.timers[r].attempt == row.attempts && row.attempts >= 1
          && row.nextRetry == Some(q.timers[r].due))
    && (row.status == Requested ==> q.calls[r] == row.attempts)
    && (Terminal(row) || row.attempts == 0 ==> row.nextRetry == None)
  }

  ghost predicate Budgets(q: Queue) {
    && (forall r | 0 <= r < |q.rows| :: WithinBudget(q, r))
    && (forall k | 0 <= k < |q.log| :: q.log[k].row < |q.rows|)
  }

  ghost predicate WithinBudget(q: Queue, r: nat)
    requires r < |q.rows|
  {
    var row := q.rows[r];
    && Sends(q, r) == row.attempts + (if row.status == RetryPending then 0 else 1)
    && Answers(q, r) == row.attempts + (if Terminal(row) then 1 else 0)
    && HttpPosts(q, r) <= 2 * Answers(q, r)
    && LeastWait(row.attempts) <= Waited(q, r) <= MostWait(row.attempts)
  }

  ghost predicate SameRequest(q: Queue) {
    && (forall r | 0 <= r < |q.rows| ::
          var row := q.rows[r];
          Seqid in row.request && row.request[Seqid] == Text(row.seqid)
          && row.request.Keys <= DTO_FIELDS + {Seqid}
          && BuOrderid in row.request && row.request[BuOrderid] == Text(row.buOrderId))
    && (forall k | 0 <= k < |q.log| && q.log[k].Sent? ::
          q.log[k].row < |q.rows| && q.log[k].body == q.rows[q.log[k].row].request)
  }

  ghost predicate DistinctOrders(q: Queue) {
    forall i, j | 0 <= i < j < |q.rows| :: q.rows[i].buOrderId != q.rows[j].buOrderId
  }

  ghost predicate Inv(q: Queue) {
    TimersAgree(q) && Budgets(q) && SameRequest(q) && DistinctOrders(q)
  }

  lemma OpenKeepsTimers(q: Queue, n: string, dto: Body, seqid: NonEmpty, now: int)
    requires TimersAgree(q) && !Used(q.rows, n)
    ensures TimersAgree(Open(q, n, dto, seqid, now).value)
  {
    var q' := Open(q, n, dto, seqid, now).value;
    forall r | 0 <= r < |q'.rows| ensures RowAgrees(q', r) {
      if r < |q.rows| { assert RowAgrees(q, r); }
    }
  }

  lemma FireKeepsTimers(q: Queue, at: nat, now: int)
    requires TimersAgree(q)
    ensures TimersAgree(Fire(q, at, now))
  {
    var q' := Fire(q, at, now);
    forall r | 0 <= r < |q'.rows| ensures RowAgrees(q', r) { assert RowAgrees(q, r); }
  }

  /** The row whose call was answered ends up queued or failed; the others stay. */
  lemma AddKeepsTimers(q: Queue, at: nat, x: Answer, rescode: int, now: int)
    requires TimersAgree(q) && at < |q.rows| && at in q.calls
    ensures TimersAgree(AddToRetryQueue(HangUp(q, at, x, now), at, rescode, q.calls[at] + 1, now))
    ensures TimersAgree(MarkFailed(HangUp(q, at, x, now), at))
  {
    assert RowAgrees(q, at);
    var q' := AddToRetryQueue(HangUp(q, at, x, now), at, rescode, q.calls[at] + 1, now);
    var q'' := MarkFailed(HangUp(q, at, x, now), at);
    forall r | 0 <= r < |q.rows| ensures RowAgrees(q', r) && RowAgrees(q'', r) { assert RowAgrees(q, r); }
  }

  lemma AnswerKeepsTimers(q: Queue, at: nat, x: Answer, now: int)
    requires TimersAgree(q)
    ensures TimersAgree(AnswerFirst(q, at, x, now)) && TimersAgree(AnswerRetry(q, at, x, now))
  {
    if at < |q.rows| && at in q.calls {
      assert RowAgrees(q, at);
      if x.refusal.Some? {
        AddKeepsTimers(q, at, x, x.refusal.value, now);
      } else {
        DeliveryKeepsTimers(q, at, x, now);
      }
    }
  }

  lemma DeliveryKeepsTimers(q: Queue, at: nat, x: Answer, now: int)
    requires TimersAgree(q) && at < |q.rows| && at in q.calls && x.refusal == None
    ensures TimersAgree(AnswerFirst(q, at, x, now)) && TimersAgree(AnswerRetry(q, at, x, now))
  {
    assert RowAgrees(q, at);
    var q', q'' := AnswerFirst(q, at, x, now), AnswerRetry(q, at, x, now);
    forall r | 0 <= r < |q.rows| ensures RowAgrees(q', r) && RowAgrees(q'', r) { assert RowAgrees(q, r); }
  }

  lemma StepKeepsTimers(q: Queue, a: QueueStep)
    requires TimersAgree(q)
    ensures TimersAgree(Step(q, a))
  {
    match a
    case DoOpen(n, dto, seqid, now) => if !Used(q.rows, n) { OpenKeepsTimers(q, n, dto, seqid, now); }
    case DoFire(r, now) => FireKeepsTimers(q, r, now);
    case DoAnswerFirst(r, x, now) => AnswerKeepsTimers(q, r, x, now);
    case DoAnswerRetry(r, x, now) => AnswerKeepsTimers(q, r, x, now);
  }

  lemma NoteSums(q: Queue, note: Note, r: nat)
    ensures Sum(q.log + [note], SendOf(r)) == Sends(q, r) + SendOf(r)(note)
    ensures Sum(q.log + [note], AnswerOf(r)) == Answers(q, r) + AnswerOf(r)(note)
    ensures Sum(q.log + [note], PostsOf(r)) == HttpPosts(q, r) + PostsOf(r)(note)
    ensures Sum(q.log + [note], MinutesOf(r)) == Waited(q, r) + MinutesOf(r)(note)
  {
    SumAppend(q.log, note, SendOf(r));
    SumAppend(q.log, note, AnswerOf(r));
    SumAppend(q.log, note, PostsOf(r));
    SumAppend(q.log, note, MinutesOf(r));
  }

  lemma NewRowSums(q: Queue)
    requires Budgets(q)
    ensures var r := |q.rows|;
      Sends(q, r) == Answers(q, r) == HttpPosts(q, r) == Waited(q, r) == 0
  {
    var r := |q.rows|;
    SumZero(q.log, SendOf(r));
    SumZero(q.log, AnswerOf(r));
    SumZero(q.log, PostsOf(r));
    SumZero(q.log, MinutesOf(r));
  }

  /** What AddToRetryQueue does to the row it is called for. */
  lemma AddSums(q: Queue, at: nat, rescode: int, attempt: Attempt, now: int, r: nat)
    requires at < |q.rows|
    ensures var q' := AddToRetryQueue(q, at, rescode, attempt, now);
      && Sends(q', r) == Sends(q, r) && Answers(q', r) == Answers(q, r)
      && HttpPosts(q', r) == HttpPosts(q, r)
      && Waited(q', r) == Waited(q, r)
         + (if r == at && q'.rows[at].status == RetryPending then RetryDelay(rescode, attempt) else 0)
  {
    NoteSums(q, Scheduled(at, RetryDelay(rescode, attempt), now), r);
  }

  lemma DelayBounds(rescode: int, attempts: nat)
    requires ShouldRetry(rescode) && attempts < MAX_RETRIES
    ensures LeastWait(attempts + 1) - LeastWait(attempts) <= RetryDelay(rescode, attempts + 1)
            <= MostWait(attempts + 1) - MostWait(attempts)
  {
  }

  /** The sums of row r while the answer to a request of row at is being handled. */
  ghost predicate MidAnswer(q: Queue, at: nat, r: nat)
    requires r < |q.rows|
  {
    var row := q.rows[r];
    && Sends(q, r) == row.attempts + (if row.status == RetryPending then 0 else 1)
    && Answers(q, r) == row.attempts + (if Terminal(row) || r == at then 1 else 0)
    && HttpPosts(q, r) <= 2 * Answers(q, r)
    && LeastWait(row.attempts) <= Waited(q, r) <= MostWait(row.attempts)
  }

  lemma HangUpKeepsCounts(q: Queue, at: nat, x: Answer, now: int, r: nat)
    requires r < |q.rows| && at < |q.rows| && q.rows[at].status == Requested && WithinBudget(q, r)
    ensures MidAnswer(HangUp(q, at, x, now), at, r)
  {
    NoteSums(q, Answered(at, x.posts, now), r);
  }

  lemma AddKeepsBudget(q: Queue, at: nat, rescode: int, now: int, r: nat)
    requires r < |q.rows| && at < |q.rows| && q.rows[at].status == Requested
    requires q.rows[at].attempts <= MAX_RETRIES && MidAnswer(q, at, r)
    ensures WithinBudget(AddToRetryQueue(q, at, rescode, q.rows[at].attempts + 1, now), r)
  {
    var next := q.rows[at].attempts + 1;
    AddSums(q, at, rescode, next, now, r);
    if ShouldRetry(rescode) && next <= MAX_RETRIES {
      DelayBounds(rescode, next - 1);
    }
  }

  lemma AnswerKeepsBudget(q: Queue, at: nat, x: Answer, now: int, r: nat)
    requires r < |q.rows| && at < |q.rows| && at in q.calls
    requires RowAgrees(q, at) && WithinBudget(q, r)
    ensures WithinBudget(if q.calls[at] == 0 then AnswerFirst(q, at, x, now) else AnswerRetry(q, at, x, now), r)
  {
    var q1 := HangUp(q, at, x, now);
    HangUpKeepsCounts(q, at, x, now, r);
    match x.refusal
    case None => DeliveryKeepsBudget(q, at, x, now, r);
    case Some(rescode) => AddKeepsBudget(q1, at, rescode, now, r);
  }

  lemma DeliveryKeepsBudget(q: Queue, at: nat, x: Answer, now: int, r: nat)
    requires r < |q.rows| && at < |q.rows| && at in q.calls && x.refusal == None
    requires RowAgrees(q, at) && MidAnswer(HangUp(q, at, x, now), at, r)
    ensures WithinBudget(if q.calls[at] == 0 then AnswerFirst(q, at, x, now) else AnswerRetry(q, at, x, now), r)
  {
  }

  lemma OpenKeepsBudget(q: Queue, n: string, dto: Body, seqid: NonEmpty, now: int, r: nat)
    requires Budgets(q) && r <= |q.rows| && !Used(q.rows, n)
    ensures WithinBudget(Open(q, n, dto, seqid, now).value, r)
  {
    NewRowSums(q);
    NoteSums(q, Sent(|q.rows|, Stamp(dto, seqid), now), r);
    if r < |q.rows| { assert WithinBudget(q, r); }
  }

  lemma FireKeepsBudget(q: Queue, at: nat, now: int, r: nat)
    requires r < |q.rows| && at < |q.rows| && RowAgrees(q, at) && WithinBudget(q, r)
    ensures WithinBudget(Fire(q, at, now), r)
  {
    var row := q.rows[at];
    NoteSums(q, Sent(at, Stamp(ReconstructDto(row.request), row.seqid), now), r);
  }

  lemma StepKeepsBudgets(q: Queue, a: QueueStep)
    requires TimersAgree(q) && Budgets(q)
    ensures Budgets(Step(q, a))
  {
    var q' := Step(q, a);
    forall r | 0 <= r < |q'.rows| ensures WithinBudget(q', r) {
      if r < |q.rows| { assert WithinBudget(q, r); }
      match a
      case DoOpen(n, dto, seqid, now) =>
        if !Used(q.rows, n) { OpenKeepsBudget(q, n, dto, seqid, now, r); }
      case DoFire(at, now) =>
        if at < |q.rows| {
          assert RowAgrees(q, at);
          FireKeepsBudget(q, at, now, r);
        }
      case DoAnswerFirst(at, x, now) =>
        if Awaits(q, at, true) { assert RowAgrees(q, at); AnswerKeepsBudget(q, at, x, now, r); }
      case DoAnswerRetry(at, x, now) =>
        if Awaits(q, at, false) { assert RowAgrees(q, at); AnswerKeepsBudget(q, at, x, now, r); }
    }
  }

  lemma AddKeepsRequests(q: Queue, r: nat, rescode: int, attempt: Attempt, now: int)
    requires SameRequest(q) && DistinctOrders(q) && r < |q.rows|
    ensures SameRequest(AddToRetryQueue(q, r, rescode, attempt, now))
    ensures DistinctOrders(AddToRetryQueue(q, r, rescode, attempt, now))
  {
  }

  lemma FireKeepsRequests(q: Queue, r: nat, now: int)
    requires SameRequest(q) && DistinctOrders(q)
    ensures SameRequest(Fire(q, r, now)) && DistinctOrders(Fire(q, r, now))
  {
    if r < |q.rows| { RebuildIsIdentity(q.rows[r].request, q.rows[r].seqid); }
  }

  lemma OpenKeepsRequests(q: Queue, n: string, dto: Body, seqid: NonEmpty, now: int)
    requires SameRequest(q) && DistinctOrders(q) && ProperDto(n, dto) && !Used(q.rows, n)
    ensures SameRequest(Open(q, n, dto, seqid, now).value) && DistinctOrders(Open(q, n, dto, seqid, now).value)
  {
  }

  lemma AnswerKeepsRequests(q: Queue, r: nat, x: Answer, now: int)
    requires SameRequest(q) && DistinctOrders(q) && r < |q.rows| && r in q.calls
    ensures var q' := if q.calls[r] == 0 then AnswerFirst(q, r, x, now) else AnswerRetry(q, r, x, now);
      SameRequest(q') && DistinctOrders(q')
  {
    if x.refusal.Some? {
      AddKeepsRequests(HangUp(q, r, x, now), r, x.refusal.value, q.calls[r] + 1, now);
    }
  }

  lemma StepKeepsRequests(q: Queue, a: QueueStep)
    requires SameRequest(q) && DistinctOrders(q) && Proper(a)
    ensures SameRequest(Step(q, a)) && DistinctOrders(Step(q, a))
  {
    match a
    case DoOpen(n, dto, seqid, now) => if !Used(q.rows, n) { OpenKeepsRequests(q, n, dto, seqid, now); }
    case DoFire(r, now) => FireKeepsRequests(q, r, now);
    case DoAnswerFirst(r, x, now) => if Awaits(q, r, true) { AnswerKeepsRequests(q, r, x, now); }
    case DoAnswerRetry(r, x, now) => if Awaits(q, r, false) { AnswerKeepsRequests(q, r, x, now); }
  }

  lemma {:induction false} RunKeepsInv(q: Queue, steps: seq<QueueStep>)
    requires Inv(q) && forall a | a in steps :: Proper(a)
    ensures Inv(Run(q, steps))
  {
    if |steps| == 0 {
    } else {
      var before := Run(q, steps[..|steps| - 1]);
      RunKeepsInv(q, steps[..|steps| - 1]);
      StepKeepsTimers(before, steps[|steps| - 1]);
      StepKeepsBudgets(before, steps[|steps| - 1]);
      StepKeepsRequests(before, steps[|steps| - 1]);
    }
  }

  // ----- Main results -----

  /** At most one row per bu_orderid, in every reachable state. */
  lemma {:induction false} OneRowPerOrder(steps: seq<QueueStep>, i: nat, j: nat)
    requires forall a | a in steps :: Proper(a)
    requires i < |Run(EMPTY, steps).rows| && j < |Run(EMPTY, steps).rows|
    requires Run(EMPTY, steps).rows[i].buOrderId == Run(EMPTY, steps).rows[j].buOrderId
    ensures i == j
  {
    RunKeepsInv(EMPTY, steps);
  }

  /** Every send of a row is the body that was stored and sent first. */
  lemma {:induction false} EverySendIsTheFirst(steps: seq<QueueStep>, m: nat, n: nat)
    requires forall a | a in steps :: Proper(a)
    requires m < n < |Run(EMPTY, steps).log|
    requires Run(EMPTY, steps).log[m].Sent? && Run(EMPTY, steps).log[n].Sent?
    requires Run(EMPTY, steps).log[m].row == Run(EMPTY, steps).log[n].row
    ensures Run(EMPTY, steps).log[m].body == Run(EMPTY, steps).log[n].body
  {
    RunKeepsInv(EMPTY, steps);
  }

  /** In every reachable state a row has made at most four signed requests and eight
      posts, and a row whose fourth request failed has waited 44 to 180 minutes. */
  lemma {:induction false} RetryBudget(steps: seq<QueueStep>, r: nat)
    requires forall a | a in steps :: Proper(a)
    requires r < |Run(EMPTY, steps).rows|
    ensures var q := Run(EMPTY, steps);
      && 1 <= Sends(q, r) <= 1 + MAX_RETRIES
      && HttpPosts(q, r) <= 8
      && (q.rows[r].status == Failed && Sends(q, r) == 1 + MAX_RETRIES ==> 44 <= Waited(q, r) <= 180)
  {
    RunKeepsInv(EMPTY, steps);
    var q := Run(EMPTY, steps);
    assert WithinBudget(q, r) && RowAgrees(q, r);
  }

  /** How many changes of status a row may still see. */
  function Measure(row: BigoRow): nat {
    if Terminal(row) || row.attempts > MAX_RETRIES then 0
    else if row.status == Requested then 7 - 2 * row.attempts
    else 8 - 2 * row.attempts
  }

  /** A step leaves a row as it is or lowers its measure, so finished rows never change. */
  lemma StepLowersMeasure(q: Queue, a: QueueStep, r: nat)
    requires TimersAgree(q) && r < |q.rows|
    ensures var q' := Step(q, a);
      r < |q'.rows| && (q'.rows[r] == q.rows[r] || Measure(q'.rows[r]) < Measure(q.rows[r]))
  {
    assert RowAgrees(q, r);
  }

  /** The number of steps of a run that change row r. */
  function Changes(q: Queue, steps: seq<QueueStep>, r: nat): nat
    decreases |steps|
  {
    if |steps| == 0 then 0
    else
      var q' := Step(q, steps[0]);
      Changes(q', steps[1..], r)
      + (if r < |q.rows| && r < |q'.rows| && q'.rows[r] != q.rows[r] then 1 else 0)
  }

  /** Whatever Bigo answers and however steps interleave, a row changes at most as
      often as its measure allows: seven times in its life. */
  lemma {:induction false} ChangesAreBounded(q: Queue, steps: seq<QueueStep>, r: nat)
    requires TimersAgree(q) && r < |q.rows|
    ensures Changes(q, steps, r) <= Measure(q.rows[r]) <= 7
    decreases |steps|
  {
    assert RowAgrees(q, r);
    if |steps| > 0 {
      StepKeepsTimers(q, steps[0]);
      StepLowersMeasure(q, steps[0], r);
      ChangesAreBounded(Step(q, steps[0]), steps[1..], r);
    }
  }

  /** The answer to whichever request of row r is open. */
  function AnswerOpen(q: Queue, r: nat, x: Answer): Queue {
    if Awaits(q, r, true) then AnswerFirst(q, r, x, 0) else AnswerRetry(q, r, x, 0)
  }

  function DueOf(q: Queue, r: nat): int { if r in q.timers then q.timers[r].due else 0 }

  /** A pending timer fires, and then the open request of row r is answered. */
  function OneExchange(q: Queue, r: nat, x: Answer): Queue { AnswerOpen(Fire(q, r, DueOf(q, r)), r, x) }

  /** Let row r run on until the answers are used up or it has ended. */
  function Drive(q: Queue, r: nat, answers: seq<Answer>): Queue
    decreases |answers|
  {
    if |answers| == 0 || r >= |q.rows| || Terminal(q.rows[r]) then q
    else Drive(OneExchange(q, r, answers[0]), r, answers[1..])
  }

  /** How a row ends that has made the given number of retries, read off the answers. */
  function Ending(attempts: nat, answers: seq<Answer>): BigoStatus
    requires attempts <= MAX_RETRIES && |answers| + attempts >= 1 + MAX_RETRIES
    decreases |answers|
  {
    match answers[0].refusal
    case None => Success
    case Some(rescode) =>
      if ShouldRetry(rescode) && attempts < MAX_RETRIES
      then Ending(attempts + 1, answers[1..]) else Failed
  }

  lemma FireWakes(q: Queue, r: nat)
    requires TimersAgree(q) && r < |q.rows| && !Terminal(q.rows[r])
    ensures var q1 := Fire(q, r, DueOf(q, r));
      TimersAgree(q1) && r < |q1.rows| && q1.rows[r].status == Requested && q1.rows[r].attempts == q.rows[r].attempts
  {
    assert RowAgrees(q, r);
    FireKeepsTimers(q, r, DueOf(q, r));
  }

  lemma AnswerMoves(q: Queue, r: nat, x: Answer)
    requires TimersAgree(q) && r < |q.rows| && q.rows[r].status == Requested
    ensures var q' := AnswerOpen(q, r, x);
      && TimersAgree(q') && r < |q'.rows|
      && match x.refusal
         case None => q'.rows[r].status == Success
         case Some(rescode) =>
           if ShouldRetry(rescode) && q.rows[r].attempts < MAX_RETRIES
           then q'.rows[r].status == RetryPending && q'.rows[r].attempts == q.rows[r].attempts + 1
           else q'.rows[r].status == Failed
  {
    assert RowAgrees(q, r);
    AnswerKeepsTimers(q, r, x, 0);
  }

  lemma ExchangeMoves(q: Queue, r: nat, x: Answer)
    requires TimersAgree(q) && r < |q.rows| && !Terminal(q.rows[r])
    ensures var q' := OneExchange(q, r, x);
      && TimersAgree(q') && r < |q'.rows|
      && match x.refusal
         case None => q'.rows[r].status == Success
         case Some(rescode) =>
           if ShouldRetry(rescode) && q.rows[r].attempts < MAX_RETRIES
           then q'.rows[r].status == RetryPending && q'.rows[r].attempts == q.rows[r].attempts + 1
           else q'.rows[r].status == Failed
  {
    FireWakes(q, r);
    AnswerMoves(Fire(q, r, DueOf(q, r)), r, x);
  }

  /** Every row ends: four answers from its opening always bring SUCCESS or FAILED. It is
      FAILED exactly after a refusal that is not retryable or after the fourth refusal. */
  lemma {:induction false} EveryRowEnds(q: Queue, r: nat, answers: seq<Answer>)
    requires TimersAgree(q) && r < |q.rows| && !Terminal(q.rows[r])
    requires |answers| + q.rows[r].attempts >= 1 + MAX_RETRIES && q.rows[r].attempts <= MAX_RETRIES
    ensures var end := Drive(q, r, answers);
      r < |end.rows| && Terminal(end.rows[r]) && end.rows[r].status == Ending(q.rows[r].attempts, answers)
    decreases |answers|
  {
    ExchangeMoves(q, r, answers[0]);
    if !Terminal(OneExchange(q, r, answers[0]).rows[r]) {
      EveryRowEnds(OneExchange(q, r, answers[0]), r, answers[1..]);
    }
  }

  /** The minutes to wait after an answer to a row that has made the given number of retries. */
  function DelayAfter(x: Answer, attempts: nat): nat {
    match x.refusal
    case None => 0
    case Some(rescode) =>
      if ShouldRetry(rescode) && attempts < MAX_RETRIES then RetryDelay(rescode, attempts + 1) else 0
  }

  /** The minutes a row waits until its end, read off the answers. */
  function Delays(attempts: nat, answers: seq<Answer>): nat
    requires attempts <= MAX_RETRIES && |answers| + attempts >= 1 + MAX_RETRIES
    decreases |answers|
  {
    DelayAfter(answers[0], attempts)
    + (if answers[0].refusal.Some? && ShouldRetry(answers[0].refusal.value) && attempts < MAX_RETRIES
       then Delays(attempts + 1, answers[1..]) else 0)
  }

  lemma FireWaitsNothing(q: Queue, r: nat, at: nat, now: int)
    requires TimersAgree(q) && r < |q.rows|
    ensures Waited(Fire(q, at, now), r) == Waited(q, r)
  {
    if at < |q.rows| {
      var row := q.rows[at];
      NoteSums(q, Sent(at, Stamp(ReconstructDto(row.request), row.seqid), now), r);
    }
  }

  /** What is waited after an answer to the open request. */
  lemma AnswerWaits(q: Queue, r: nat, x: Answer, attempts: nat, waited: int)
    requires TimersAgree(q) && r < |q.rows| && q.rows[r].status == Requested
    requires q.rows[r].attempts == attempts && Waited(q, r) == waited
    ensures Waited(AnswerOpen(q, r, x), r) == waited + DelayAfter(x, attempts)
  {
    assert RowAgrees(q, r);
    NoteSums(q, Answered(r, x.posts, 0), r);
    if x.refusal.Some? {
      AddSums(HangUp(q, r, x, 0), r, x.refusal.value, attempts + 1, 0, r);
    }
  }

  lemma ExchangeWaits(q: Queue, r: nat, x: Answer)
    requires TimersAgree(q) && r < |q.rows| && !Terminal(q.rows[r])
    ensures Waited(OneExchange(q, r, x), r) == Waited(q, r) + DelayAfter(x, q.rows[r].attempts)
  {
    FireWakes(q, r);
    FireWaitsNothing(q, r, r, DueOf(q, r));
    AnswerWaits(Fire(q, r, DueOf(q, r)), r, x, q.rows[r].attempts, Waited(q, r));
  }

  /** Until its end a row waits exactly the delays that the answers call for. */
  lemma {:induction false} WaitsExactly(q: Queue, r: nat, answers: seq<Answer>)
    requires TimersAgree(q) && r < |q.rows| && !Terminal(q.rows[r])
    requires |answers| + q.rows[r].attempts >= 1 + MAX_RETRIES && q.rows[r].attempts <= MAX_RETRIES
    ensures Waited(Drive(q, r, answers), r) == Waited(q, r) + Delays(q.rows[r].attempts, answers)
    decreases |answers|
  {
    ExchangeWaits(q, r, answers[0]);
    ExchangeMoves(q, r, answers[0]);
    if !Terminal(OneExchange(q, r, answers[0]).rows[r]) {
      WaitsExactly(OneExchange(q, r, answers[0]), r, answers[1..]);
    }
  }

  /** Both bounds are attained: four internal errors wait 3 + 13 + 28 minutes, four rate
      limits 30 + 60 + 90. */
  lemma WaitBoundsAreTight(x: Answer)
    requires x.refusal.Some? && ShouldRetry(x.refusal.value)
    ensures Delays(0, [x, x, x, x]) == if x.refusal.value == INTERNAL_ERROR then 44 else 180
  {
    var rescode := x.refusal.value;
    assert [x, x, x, x][1..] == [x, x, x] && [x, x, x][1..] == [x, x] && [x, x][1..] == [x];
    assert Delays(3, [x]) == 0;
    assert Delays(2, [x, x]) == RetryDelay(rescode, 3);
    assert Delays(1, [x, x, x]) == RetryDelay(rescode, 2) + RetryDelay(rescode, 3);
  }

  /** From the HTTP answers to the row: after the first request the row is SUCCESS iff
      the last host replied 0, RETRY_PENDING iff it replied a retryable code, and
      FAILED on every other non-negative code. */
  lemma LastReplyDecidesRow(q: Queue, r: nat, exchange: Exchange, now: int)
    requires Awaits(q, r, true) && LastAnswer(exchange).Reply? && LastAnswer(exchange).rescode >= 0
    ensures var code := LastAnswer(exchange).rescode;
      AnswerFirst(q, r, Heard(exchange), now).rows[r].status ==
        (if code == 0 then Success else if ShouldRetry(code) then RetryPending else Failed)
  {
    LastHostDecides(exchange);
  }
}
