/** bigo.service.ts and bigo-retry.service.ts, which are injected into each other: methods
    that update the rows, the timer map and the request object step by step. */
module BigoServices {
  import opened Options
  import opened Schema
  import opened Calendar
  import opened RescodeText
  import opened BigoApi
  import opened Engine
  import opened Storage
  import Q = RetryQueue

  class BigoRetryService {
    const db: Database
    var retryTimeouts: map<nat, Q.Timer>

    constructor (db: Database)
      ensures this.db == db && retryTimeouts == map[]
    {
      this.db := db;
      retryTimeouts := map[];
    }

    function Queue(): Q.Queue
      reads this, db
    {
      Q.Queue(db.bigoRecharges, retryTimeouts, db.calls, db.log)
    }

    method MarkAsFailed(r: nat)
      requires r < |db.bigoRecharges|
      modifies db`bigoRecharges
      ensures Queue() == Q.MarkFailed(old(Queue()), r)
    {
      var row := db.bigoRecharges[r];
      db.bigoRecharges := db.bigoRecharges[r := row.(status := Q.Failed, nextRetry := None)];
    }

    method AddToRetryQueue(r: nat, rescode: int, attempt: Q.Attempt, now: int)
      requires r < |db.bigoRecharges|
      modifies this, db`bigoRecharges, db`log
      ensures Queue() == Q.AddToRetryQueue(old(Queue()), r, rescode, attempt, now)
    {
      if !Q.ShouldRetry(rescode) {
        MarkAsFailed(r);
        return;
      }
      if attempt > Q.MAX_RETRIES {
        MarkAsFailed(r);
        return;
      }
      var delayMinutes := Q.RetryDelay(rescode, attempt);
      var nextRetry := now + delayMinutes * MINUTE;
      var row := db.bigoRecharges[r];
      db.bigoRecharges := db.bigoRecharges[r := row.(
        status := Q.RetryPending, nextRetry := Some(nextRetry), attempts := attempt, rescode := Some(rescode))];
      retryTimeouts := retryTimeouts[r := Q.Timer(attempt, nextRetry)];
      db.log := db.log + [Q.Scheduled(r, delayMinutes, now)];
    }

    /** The parser inlined in the catch block: default first, then overwrite. */
    method RescodeOf(message: string) returns (rescode: nat)
      ensures rescode == ExtractRescode(message)
    {
      rescode := DEFAULT_RESCODE;
      if Includes(message, MARK) {
        var found := FirstMatch(message, 0);
        if found.Some? {
          rescode := ParseDigits(found.value);
        }
      }
    }

    /** At its time the timer of row r fires, and Bigo gives the answers of the exchange. */
    method ProcessSpecificRetry(bigo: BigoService, r: nat, exchange: Exchange, now: nat)
      requires bigo.db == db && bigo.retry == this
      modifies this, db`bigoRecharges, db`log, db`calls
      ensures Queue() == ProcessRetry(old(Queue()), r, Heard(exchange), now)
    {
      if r !in retryTimeouts || now < retryTimeouts[r].due { return; }   // setTimeout has not fired
      var attempt := retryTimeouts[r].attempt;
      retryTimeouts := retryTimeouts - {r};
      if r >= |db.bigoRecharges| { return; }
      var row := db.bigoRecharges[r];
      if row.status != Q.RetryPending { return; }
      db.bigoRecharges := db.bigoRecharges[r := row.(status := Q.Requested)];
      db.calls := db.calls[r := attempt];
      var dto := new Dto(ReconstructDto(row.request));
      var outcome := bigo.DiamondRechargeAgain(dto, r, row.seqid, exchange, now);
      match outcome
      case Delivered =>
        var current := db.bigoRecharges[r];
        db.bigoRecharges := db.bigoRecharges[r := current.(status := Q.Success, nextRetry := None)];
      case Refused(message) =>
        var rescode := RescodeOf(message);
        if Q.ShouldRetry(rescode) {
          AddToRetryQueue(r, rescode, attempt + 1, now);
        } else {
          MarkAsFailed(r);
        }
    }

    /** Shutdown cancels every timer and leaves the rows as they are. */
    method OnModuleDestroy()
      modifies this
      ensures Queue() == old(Queue()).(timers := map[])
    {
      retryTimeouts := map[];
    }
  }

  // ----- bigo.service.ts -----

  /** The request object that diamondRecharge stamps in place. */
  class Dto {
    var body: Body
    constructor (body: Body)
      ensures this.body == body
    {
      this.body := body;
    }
  }

  class BigoService {
    const db: Database
    const retry: BigoRetryService

    constructor (db: Database, retry: BigoRetryService)
      ensures this.db == db && this.retry == retry
    {
      this.db := db;
      this.retry := retry;
    }

    /** One post and the validation of its reply. */
    method Post(answer: Http) returns (error: Option<string>)
      ensures error == HostError(answer)
    {
      match answer
      case Reply(rescode, message) =>
        if rescode != 0 {
          return Some(BigoErrorMessage(rescode, message));
        }
        error := None;
      case Unreachable(problem) => error := Some(problem);
    }

    method MakeSignedRequest(x: Exchange) returns (outcome: Outcome, posts: PostCount)
      ensures outcome == BigoApi.MakeSignedRequest(x) && posts == Posts(x)
    {
      var error := Post(x.primary);
      posts := 1;
      if error.None? {
        return Delivered, posts;
      }
      if x.backup.Some? {
        var backupError := Post(x.backup.value);
        posts := posts + 1;
        if backupError.None? {
          return Delivered, posts;
        }
        return Refused(NETWORK_ERROR + backupError.value), posts;
      }
      return Refused(NETWORK_ERROR + error.value), posts;
    }

    /** diamondRecharge with a seqid, as a retry calls it: no log row is touched. */
    method DiamondRechargeAgain(dto: Dto, r: nat, seqid: NonEmpty, x: Exchange, now: nat) returns (outcome: Outcome)
      modifies dto, db`calls, db`log
      ensures dto.body == Stamp(old(dto.body), seqid)
      ensures outcome == BigoApi.MakeSignedRequest(x)
      ensures db.calls == old(db.calls) - {r}
      ensures db.log == old(db.log) + [Q.Sent(r, dto.body, now)] + [Q.Answered(r, Posts(x), now)]
    {
      dto.body := dto.body[Seqid := Text(seqid)];
      db.log := db.log + [Q.Sent(r, dto.body, now)];
      var posts;
      outcome, posts := MakeSignedRequest(x);
      db.log := db.log + [Q.Answered(r, posts, now)];
      db.calls := db.calls - {r};
    }

    /** diamondRecharge without a seqid: the first request for an order number, stamped
        with a generated seqid. The result is false when the call throws. */
    method DiamondRecharge(dto: Dto, buOrderId: string, seqid: NonEmpty, x: Exchange, now: nat) returns (ok: bool)
      requires retry.db == db
      modifies dto, retry, db`bigoRecharges, db`calls, db`log
      ensures dto.body == Stamp(old(dto.body), seqid)
      ensures match Q.Open(old(retry.Queue()), buOrderId, old(dto.body), seqid, now)
              case None => retry.Queue() == old(retry.Queue()) && !ok
              case Some(queue) =>
                retry.Queue() == Q.AnswerFirst(queue, |old(db.bigoRecharges)|, Heard(x), now)
                && (ok <==> Heard(x).refusal.None?)
    {
      ghost var q0 := retry.Queue();
      dto.body := dto.body[Seqid := Text(seqid)];
      if Q.Used(db.bigoRecharges, buOrderId) {
        return false;
      }
      var r := |db.bigoRecharges|;
      db.bigoRecharges := db.bigoRecharges + [Q.BigoRow(buOrderId, seqid, dto.body, Q.Requested, 0, None, None)];
      db.calls := db.calls[r := 0];
      db.log := db.log + [Q.Sent(r, dto.body, now)];
      ghost var q1 := retry.Queue();
      assert Q.Open(q0, buOrderId, old(dto.body), seqid, now) == Some(q1);
      var outcome, posts := MakeSignedRequest(x);
      db.calls := db.calls - {r};
      db.log := db.log + [Q.Answered(r, posts, now)];
      assert retry.Queue() == Q.HangUp(q1, r, Heard(x), now);
      match outcome
      case Delivered =>
        var row := db.bigoRecharges[r];
        db.bigoRecharges := db.bigoRecharges[r := row.(status := Q.Success, rescode := Some(0))];
        ok := true;
      case Refused(message) =>
        retry.AddToRetryQueue(r, ExtractRescode(message), 1, now);
        ok := false;
    }
  }
}
