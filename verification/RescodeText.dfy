/** The error text that carries a Bigo rescode, and the parser that reads it back. */
module RescodeText {
  import opened Options

  const MARK := "Bigo API Error"
  const DEFAULT_RESCODE := 500001
  const DIGIT := "0123456789"

  predicate IsDigit(c: char) { '0' <= c <= '9' }

  function DigitValue(c: char): nat
    requires IsDigit(c)
  {
    c as int - '0' as int
  }

  function Digits(n: nat): (s: string)
    ensures |s| >= 1 && forall c | c in s :: IsDigit(c)
  {
    if n < 10 then [DIGIT[n]] else Digits(n / 10) + [DIGIT[n % 10]]
  }

  /** A template literal prints a negative number with its sign. */
  function PrintInt(n: int): string {
    if n < 0 then "-" + Digits(-n) else Digits(n)
  }

  function ParseDigits(s: string): nat
    requires forall c | c in s :: IsDigit(c)
  {
    if |s| == 0 then 0
    else ParseDigits(s[..|s| - 1]) * 10 + DigitValue(s[|s| - 1])
  }

  function KnownMessage(rescode: int): Option<string> {
    match rescode
    case 400001 => Some("Invalid request parameters")
    case 7212001 => Some("Recharge API disabled by Bigo")
    case 7212002 => Some("Recharge API disabled by third-party website")
    case 7212003 => Some("IP not authorized to make requests")
    case 7212006 => Some("Reseller not linked to client_id")
    case 7212004 => Some("Bigo user does not exist")
    case 7212005 => Some("User cannot be recharged")
    case 7212008 => Some("Diamond amount exceeds upper limit")
    case 7212009 => Some("Currency not supported")
    case 7212010 => Some("Order ID duplicated")
    case 7212011 => Some("Insufficient balance")
    case 7212012 => Some("Request too frequent, please wait a moment")
    case 7212013 => Some("Diamond pricing outside specified range")
    case 7212014 => Some("User area not eligible")
    case 7212015 => Some("Recharge not supported in your area")
    case 500001 => Some("Internal error, contact Bigo team")
    case _ => None
  }

  function BigoErrorMessage(rescode: int, original: string): string {
    MARK + " " + "(" + PrintInt(rescode) + ")" + (": " + UserText(rescode, original))
  }

  function UserText(rescode: int, original: string): string {
    match KnownMessage(rescode)
    case Some(known) => known
    case None => if original == "" then "Unknown error" else original
  }

  predicate StandsAt(s: string, part: string, i: nat) {
    i + |part| <= |s| && s[i..i + |part|] == part
  }

  predicate Includes(s: string, part: string) {
    exists i | 0 <= i <= |s| :: StandsAt(s, part, i)
  }

  /** The end of the run of digits that starts at i. */
  function DigitsEnd(s: string, i: nat): (end: nat)
    requires i <= |s|
    ensures i <= end <= |s|
    ensures forall k | i <= k < end :: IsDigit(s[k])
    ensures end < |s| ==> !IsDigit(s[end])
    decreases |s| - i
  {
    if i < |s| && IsDigit(s[i]) then DigitsEnd(s, i + 1) else i
  }

  /** The group captured when a parenthesised run of digits stands at i. */
  function MatchAt(s: string, i: nat): (group: Option<string>)
    requires i < |s|
    ensures group.Some? ==> forall c | c in group.value :: IsDigit(c)
  {
    var end := if s[i] == '(' then DigitsEnd(s, i + 1) else i;
    if end > i + 1 && end < |s| && s[end] == ')' then Some(s[i + 1..end]) else None
  }

  /** The leftmost match at or after i. */
  function FirstMatch(s: string, i: nat): (group: Option<string>)
    requires i <= |s|
    ensures group.Some? ==> forall c | c in group.value :: IsDigit(c)
    decreases |s| - i
  {
    if i == |s| then None
    else match MatchAt(s, i) case Some(g) => Some(g) case None => FirstMatch(s, i + 1)
  }

  function ExtractRescode(message: string): nat {
    if Includes(message, MARK) then
      match FirstMatch(message, 0) case Some(g) => ParseDigits(g) case None => DEFAULT_RESCODE
    else DEFAULT_RESCODE
  }

  lemma {:induction false} DigitsRoundTrip(n: nat)
    ensures ParseDigits(Digits(n)) == n
  {
    if n < 10 {
    } else {
      DigitsRoundTrip(n / 10);
      assert Digits(n)[..|Digits(n)| - 1] == Digits(n / 10);
    }
  }

  lemma {:induction false} DigitsEndAt(s: string, i: nat, end: nat)
    requires i <= end < |s|
    requires forall k | i <= k < end :: IsDigit(s[k])
    requires !IsDigit(s[end])
    ensures DigitsEnd(s, i) == end
    decreases end - i
  {
    if i == end {
    } else {
      DigitsEndAt(s, i + 1, end);
    }
  }

  /** Text before the first opening parenthesis cannot match. */
  lemma {:induction false} SkipToParenthesis(s: string, i: nat, open: nat)
    requires i <= open < |s|
    requires forall k | i <= k < open :: s[k] != '('
    ensures FirstMatch(s, i) == FirstMatch(s, open)
    decreases open - i
  {
    if i == open {
    } else {
      SkipToParenthesis(s, i + 1, open);
    }
  }

  lemma CodeInText(before: string, code: nat, after: string)
    requires '(' !in before
    ensures FirstMatch(before + "(" + Digits(code) + ")" + after, 0) == Some(Digits(code))
  {
    var d := Digits(code);
    var s := before + "(" + d + ")" + after;
    var open := |before|;
    var end := open + 1 + |d|;
    assert s[open + 1..end] == d;
    forall k | open + 1 <= k < end ensures IsDigit(s[k]) {
      assert s[k] == d[k - open - 1];
    }
    SkipToParenthesis(s, 0, open);
    DigitsEndAt(s, open + 1, end);
  }

  /** Printing a rescode and parsing the text gives the rescode back exactly when it
      is not negative, bare or behind any prefix without an opening parenthesis. */
  lemma RescodeRoundTrip(prefix: string, rescode: int, original: string)
    requires '(' !in prefix
    ensures ExtractRescode(prefix + BigoErrorMessage(rescode, original)) == rescode
            <==> rescode >= 0
  {
    if rescode >= 0 {
      PrefixedCode(prefix, rescode, ": " + UserText(rescode, original));
      assert prefix + BigoErrorMessage(rescode, original)
          == prefix + (MARK + " " + "(" + Digits(rescode) + ")" + (": " + UserText(rescode, original)));
    }
  }

  lemma MarkIncluded(prefix: string, rest: string)
    ensures Includes(prefix + (MARK + rest), MARK)
  {
    var message := prefix + (MARK + rest);
    assert message[|prefix|..] == MARK + rest;
    assert message[|prefix|..|prefix| + |MARK|] == MARK;
    assert StandsAt(message, MARK, |prefix|);
  }

  lemma PrefixedCode(prefix: string, code: nat, tail: string)
    requires '(' !in prefix
    ensures ExtractRescode(prefix + (MARK + " " + "(" + Digits(code) + ")" + tail)) == code
  {
    var rest := " " + "(" + Digits(code) + ")" + tail;
    var before := prefix + MARK + " ";
    assert MARK + " " + "(" + Digits(code) + ")" + tail == MARK + rest;
    assert prefix + (MARK + rest) == before + "(" + Digits(code) + ")" + tail;
    CodeInText(before, code, tail);
    DigitsRoundTrip(code);
    MarkIncluded(prefix, rest);
  }
}
