/** The signed request to Bigo: the JSON body that is sent and stored, the fall-back
    from the primary to the backup host, and the wrapping of errors. */
module BigoApi {
  import opened Options
  import opened RescodeText

  // JSON objects, by field name.
  datatype Field =
    | RechargeBigoid | BuOrderid | DiamondValue | TotalCost | Currency
    | Seqid | OtherField(name: string)
  datatype Json = Text(text: string) | Number(number: int)
  type Body = map<Field, Json>

  // The seqids the service generates have 13 to 32 characters; only that there are some matters.
  type NonEmpty = s: string | |s| > 0 witness "0"

  const DTO_FIELDS: set<Field> := {RechargeBigoid, BuOrderid, DiamondValue, TotalCost, Currency}

  function Stamp(dto: Body, seqid: string): Body { dto[Seqid := Text(seqid)] }

  /** The rs_recharge branch of reconstructDto; an absent field stays absent in JSON. */
  function ReconstructDto(stored: Body): Body {
    map f | f in stored && f in DTO_FIELDS :: stored[f]
  }

  /** Rebuilding a stored body and stamping it gives the stored body back exactly when
      it held no field beyond the dto and the same seqid. */
  lemma RebuildIsIdentity(stored: Body, seqid: string)
    ensures Stamp(ReconstructDto(stored), seqid) == stored
            <==> stored.Keys <= DTO_FIELDS + {Seqid} && Seqid in stored && stored[Seqid] == Text(seqid)
  {
    var rebuilt := Stamp(ReconstructDto(stored), seqid);
    if rebuilt == stored {
      assert rebuilt.Keys <= DTO_FIELDS + {Seqid};
      assert Seqid in rebuilt;
    }
  }

  // What one host does with a post.
  datatype Http = Reply(rescode: int, message: string) | Unreachable(error: string)
  // backup is None when no backup domain is configured.
  datatype Exchange = Exchange(primary: Http, backup: Option<Http>)
  datatype Outcome = Delivered | Refused(message: string)

  /** The error raised inside the try block around one post, if any. */
  function HostError(answer: Http): Option<string> {
    match answer
    case Reply(rescode, message) =>
      if rescode != 0 then Some(BigoErrorMessage(rescode, message)) else None
    case Unreachable(error) => Some(error)
  }

  const NETWORK_ERROR := "Network error: "

  function MakeSignedRequest(x: Exchange): Outcome {
    match HostError(x.primary)
    case None => Delivered
    case Some(error) =>
      match x.backup
      case None => Refused(NETWORK_ERROR + error)
      case Some(backup) =>
        match HostError(backup)
        case None => Delivered
        case Some(backupError) => Refused(NETWORK_ERROR + backupError)
  }

  type PostCount = n: nat | 1 <= n <= 2 witness 1

  // What the caller learns from a signed request: the posts it took and, unless it was
  // delivered, the rescode read from the error text.
  datatype Answer = Answer(posts: PostCount, refusal: Option<nat>)

  function Posts(x: Exchange): PostCount {
    if HostError(x.primary).None? || x.backup.None? then 1 else 2
  }

  function Heard(x: Exchange): Answer {
    match MakeSignedRequest(x)
    case Delivered => Answer(Posts(x), None)
    case Refused(message) => Answer(Posts(x), Some(ExtractRescode(message)))
  }

  /** The answer of the host that was asked last. */
  function LastAnswer(x: Exchange): Http {
    if Posts(x) == 2 then x.backup.value else x.primary
  }

  lemma NoMarkAdded(error: string)
    ensures Includes(NETWORK_ERROR + error, MARK) <==> Includes(error, MARK)
  {
    var n := |NETWORK_ERROR|;
    var s := NETWORK_ERROR + error;
    forall i | 0 <= i <= |error| ensures StandsAt(error, MARK, i) <==> StandsAt(s, MARK, n + i) {
      if i + |MARK| <= |error| {
        assert s[n + i..n + i + |MARK|] == error[i..i + |MARK|];
      }
    }
    forall i | 0 <= i < n ensures !StandsAt(s, MARK, i) {
      if i + |MARK| <= |s| {
        assert s[i..i + |MARK|][0] == s[i] == NETWORK_ERROR[i];
        assert 'B' !in NETWORK_ERROR && MARK[0] == 'B';
      }
    }
    if Includes(s, MARK) {
      var i :| 0 <= i <= |s| && StandsAt(s, MARK, i);
      assert StandsAt(error, MARK, i - n);
    }
  }

  /** A request is classified by the host that was asked last: a reply is delivered
      exactly when its code is 0, a reply with another non-negative code is refused with
      that code, and a transport failure that does not itself quote Bigo counts as the
      internal error 500001. */
  lemma LastHostDecides(x: Exchange)
    ensures Heard(x).refusal == None <==> LastAnswer(x).Reply? && LastAnswer(x).rescode == 0
    ensures LastAnswer(x).Reply? && LastAnswer(x).rescode > 0 ==>
              Heard(x).refusal == Some(LastAnswer(x).rescode)
    ensures LastAnswer(x).Unreachable? && !Includes(LastAnswer(x).error, MARK) ==>
              Heard(x).refusal == Some(DEFAULT_RESCODE)
  {
    match LastAnswer(x)
    case Reply(rescode, message) => RescodeRoundTrip(NETWORK_ERROR, rescode, message);
    case Unreachable(error) => NoMarkAdded(error);
  }
}
