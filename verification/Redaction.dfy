// What a caller is told in place of a failure text that may name this machine.
module Redaction {
  import opened Bytes
  import opened Wrappers

  datatype Cause = Dns | Tls | Timeout | Canceled | Connect | OtherCause

  // The two questions asked of a failure text: is it recognisably the
  // upstream's own (JSON shape, allow-listed type, safe message), and which
  // kind of transport failure does its wording name.
  datatype Policy = Policy(isUpstream: bytes -> bool, cause: bytes -> Cause)

  // A byte that stands for itself inside a JSON string, as Go writes one.
  predicate NeedsNoEscape(b: byte) { ' ' <= b <= '~' && b != QUOTE && b != '\\' && b != '<' && b != '>' && b != '&' }

  predicate Literal(s: bytes) { forall i :: 0 <= i < |s| ==> NeedsNoEscape(s[i]) }

  // A fixed text: short, and its own JSON spelling.
  type text = s: bytes | |s| <= 64 && Literal(s)

  // A fixed part of an envelope.
  type part = s: bytes | |s| <= 64 && SingleLine(s)

  const AUTHENTICATION_ERROR: text := "authentication_error"
  const PERMISSION_ERROR: text := "permission_error"
  const NOT_FOUND_ERROR: text := "not_found_error"
  const RATE_LIMIT_ERROR: text := "rate_limit_error"
  const API_ERROR: text := "api_error"

  const UNREACHABLE: text := "upstream unreachable: "
  const DNS_FAILED: text := UNREACHABLE + "dns resolution failed"
  const TLS_FAILED: text := UNREACHABLE + "tls handshake failed"
  const CONNECT_FAILED: text := UNREACHABLE + "connection failed"
  const TIMED_OUT: text := "upstream timeout"
  const CANCELED: text := "request canceled"
  const BAD_CREDENTIAL: text := "authentication failed"
  const DENIED: text := "permission denied"
  const NOT_FOUND: text := "not found"
  const RATE_LIMITED: text := "rate limited"
  const UNAVAILABLE: text := "upstream unavailable"
  const FAILED: text := "upstream request failed"

  const OPENING: part := "{\"type\":\"error\",\"error\":{\"type\":\""
  const BETWEEN: part := "\",\"message\":\""
  const CLOSING: part := "\"}}"

  function ErrorType(status: int): text {
    match status
    case 401 => AUTHENTICATION_ERROR
    case 403 => PERMISSION_ERROR
    case 404 => NOT_FOUND_ERROR
    case 429 => RATE_LIMIT_ERROR
    case _ => API_ERROR
  }

  function FailureLine(status: int, cause: Cause): text {
    match cause
    case Dns => DNS_FAILED
    case Tls => TLS_FAILED
    case Timeout => TIMED_OUT
    case Canceled => CANCELED
    case Connect => CONNECT_FAILED
    case OtherCause =>
      match status
      case 401 => BAD_CREDENTIAL
      case 403 => DENIED
      case 404 => NOT_FOUND
      case 429 => RATE_LIMITED
      case 502 => UNAVAILABLE
      case 503 => UNAVAILABLE
      case _ => FAILED
  }

  // The fixed line a withheld failure becomes. Of the original text only its
  // cause gets through.
  function Replacement(p: Policy, status: int, original: bytes): (r: bytes)
    ensures SingleLine(r) && 0 < |r| <= 320
  {
    OPENING + ErrorType(status) + BETWEEN + FailureLine(status, p.cause(original)) + CLOSING
  }

  // ---------- the replacement as JSON ----------

  // What stands between `before` and the next quote, and what is left then.
  function ReadQuoted(before: bytes, s: bytes): Option<(bytes, bytes)> {
    if !(before <= s) then None
    else
      var v := UntilQuote(s[|before|..]);
      Some((v, s[|before| + |v|..]))
  }

  // The two strings between three fixed parts; None when these are not there.
  function ReadTwo(a: bytes, b: bytes, c: bytes, s: bytes): Option<(bytes, bytes)> {
    match ReadQuoted(a, s)
    case None => None
    case Some((first, rest)) =>
      match ReadQuoted(b, rest)
      case None => None
      case Some((second, last)) => if last == c then Some((first, second)) else None
  }

  lemma QuotedReadsBack(before: bytes, v: bytes, after: bytes)
    requires QUOTE !in v && after != [] && after[0] == QUOTE
    ensures ReadQuoted(before, before + v + after) == Some((v, after))
  {
    var s := before + v + after;
    assert s[|before|..] == v + after == v + [QUOTE] + after[1..];
    UntilQuoteStops(v, after[1..]);
    assert s[|before| + |v|..] == after;
  }

  lemma TwoReadBack(a: bytes, first: bytes, b: bytes, second: bytes, c: bytes)
    requires QUOTE !in first && QUOTE !in second && b != [] && b[0] == QUOTE && c != [] && c[0] == QUOTE
    ensures ReadTwo(a, b, c, a + first + b + second + c) == Some((first, second))
  {
    var rest := b + second + c;
    QuotedReadsBack(a, first, rest);
    QuotedReadsBack(b, second, c);
    assert a + first + b + second + c == a + first + rest;
  }

  // `out` is a JSON object a caller can take apart again: its two texts, which
  // need no escape and end where their closing quotes are, name the status and
  // the cause, and nothing else of the original gets through.
  predicate SaysOnly(p: Policy, status: int, original: bytes, out: bytes) {
    var kind, message := ErrorType(status), FailureLine(status, p.cause(original));
    Literal(kind) && Literal(message) && ReadTwo(OPENING, BETWEEN, CLOSING, out) == Some((kind, message))
  }

  // What a caller can conclude from the two texts.
  lemma StatusIsTold(status: int)
    ensures ErrorType(status) == "authentication_error" <==> status == 401
    ensures ErrorType(status) == "permission_error" <==> status == 403
    ensures ErrorType(status) == "not_found_error" <==> status == 404
    ensures ErrorType(status) == "rate_limit_error" <==> status == 429
  {
  }

  lemma CauseIsTold(status: int, cause: Cause)
    ensures FailureLine(status, cause) == "upstream unavailable" <==> cause == OtherCause && status in {502, 503}
    ensures FailureLine(status, cause) == "authentication failed" <==> cause == OtherCause && status == 401
    ensures FailureLine(status, cause) == "permission denied" <==> cause == OtherCause && status == 403
    ensures FailureLine(status, cause) == "not found" <==> cause == OtherCause && status == 404
    ensures FailureLine(status, cause) == "rate limited" <==> cause == OtherCause && status == 429
  {
  }

  lemma ReplacementReadsBack(p: Policy, status: int, original: bytes)
    ensures SaysOnly(p, status, original, Replacement(p, status, original))
  {
    TwoReadBack(OPENING, ErrorType(status), BETWEEN, FailureLine(status, p.cause(original)), CLOSING);
  }

  // What may be shown for a complete failure body.
  function Shown(p: Policy, status: int, body: bytes): bytes {
    if p.isUpstream(body) then body else Replacement(p, status, body)
  }

  // The same for a body that has to fit one line of an event stream.
  function ShownOnOneLine(p: Policy, status: int, body: bytes): (r: bytes)
    ensures SingleLine(r)
  {
    var trimmed := TrimSpace(body);
    if SingleLine(trimmed) && p.isUpstream(trimmed) then trimmed else Replacement(p, status, trimmed)
  }
}
