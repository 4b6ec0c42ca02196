/** Reading the status text of a webhook or of a polled payment. */
module Notices {
  import opened Options
  import opened BigoApi
  import opened Engine

  function UpperChar(c: char): char { if 'a' <= c <= 'z' then (c as int - 32) as char else c }

  function ToUpper(s: string): (upper: string)
    ensures |upper| == |s|
  {
    if |s| == 0 then "" else ToUpper(s[..|s| - 1]) + [UpperChar(s[|s| - 1])]
  }

  /** The cases of the two handlers; a missing or empty status is absent. */
  function NoticeOf(upper: string): Notice {
    if upper == "" then Absent
    else if upper == "APPROVED" then Approved
    else if upper == "REJECTED" then Rejected
    else if upper == "CANCELED" then Canceled
    else if upper == "REFUNDED" then Refunded
    else if upper == "CHARGEBACK" then Chargeback
    else if upper == "IN_DISPUTE" then InDispute
    else if upper == "PENDING" then Pending
    else Unhandled
  }

  function ParseNotice(status: Option<string>): Notice {
    match status case None => Absent case Some(text) => NoticeOf(ToUpper(text))
  }

  /** A webhook and a poll as they arrive, with the status as text. */
  function ReceiveWebhook(db: Db, b: string, status: Option<string>, seqid: NonEmpty, x: Answer, now: nat): Db {
    HandleWebhook(db, b, ParseNotice(status), seqid, x, now)
  }
  function ReceivePoll(db: Db, b: string, status: Option<string>, seqid: NonEmpty, x: Answer, now: nat): Db {
    HandlePoll(db, b, ParseNotice(status), seqid, x, now)
  }

  predicate PollReports(db: Db, b: string, status: Option<string>) { PollUpdates(db, b, ParseNotice(status)) }

  /** Equal, or the two cases of one ASCII letter. */
  predicate SameLetter(c: char, d: char) {
    c == d || ('a' <= c <= 'z' && d as int == c as int - 32) || ('a' <= d <= 'z' && c as int == d as int - 32)
  }

  predicate SameButForCase(s: string, t: string) {
    |s| == |t| && forall i | 0 <= i < |s| :: SameLetter(s[i], t[i])
  }

  lemma {:induction false} UpperIsCaseless(s: string, t: string)
    ensures ToUpper(s) == ToUpper(t) <==> SameButForCase(s, t)
  {
    if |s| != |t| {
    } else if |s| == 0 {
    } else {
      var n := |s| - 1;
      UpperIsCaseless(s[..n], t[..n]);
      assert ToUpper(s)[..n] == ToUpper(s[..n]) && ToUpper(t)[..n] == ToUpper(t[..n]);
      assert UpperChar(s[n]) == UpperChar(t[n]) <==> SameLetter(s[n], t[n]);
    }
  }

  /** Any two spellings that differ in the case of letters only are the same notice. */
  lemma CaseDoesNotMatter(s: string, t: string)
    requires SameButForCase(s, t)
    ensures ParseNotice(Some(s)) == ParseNotice(Some(t))
  {
    UpperIsCaseless(s, t);
  }
}
