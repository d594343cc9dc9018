// The writer that keeps a failure body until it can be judged.
module ErrorEnvelope {
  import opened Bytes
  import opened Http
  import opened Redaction
  import D = Decimal

  const MAX_BODY := 0x1_0000

  // ---------- the whole-response specification ----------

  // Where the handler first states an outcome; flushes before it state none.
  function DecidedAt(made: seq<Call>): (i: nat)
    ensures i <= |made|
    ensures i < |made| ==> !made[i].Flush?
    ensures forall j :: 0 <= j < i ==> made[j].Flush?
  {
    if made == [] || !made[0].Flush? then 0 else 1 + DecidedAt(made[1..])
  }

  // A body without a status means 200.
  function CodeOf(c: Call): int { if c.Status? then c.code else 200 }

  predicate Streams(h: Headers) {
    Contains(Get(h, CONTENT_TYPE), EVENT_STREAM)
  }

  // Only a failure that is not already an event stream is held for judgement.
  ghost predicate Held(made: seq<Call>) {
    var i := DecidedAt(made);
    i < |made| && CodeOf(made[i]) >= 400 && !Streams(made[i].header)
  }

  ghost predicate TooLarge(made: seq<Call>) { |BodyBytes(made)| > MAX_BODY }

  // A failure still held, whose answer will be judged.
  ghost predicate HeldSmall(made: seq<Call>) { Held(made) && !TooLarge(made) }

  function HeldCode(made: seq<Call>): int
    requires DecidedAt(made) < |made|
  {
    CodeOf(made[DecidedAt(made)])
  }

  function HeldBack(body: bytes, h: Headers): seq<Call> {
    if body == [] then [] else [Body(body, h)]
  }

  // A held body that outgrew the bound: the status and what was held go out
  // with the write that crossed it, everything later goes straight through.
  ghost function Released(made: seq<Call>): seq<Call>
    requires Held(made) && TooLarge(made)
  {
    var n := |made| - 1;
    var before, last := made[..n], made[n];
    HeldIsStable(before, last);
    if Held(before) && TooLarge(before) then Released(before) + [last]
    else
      made[..DecidedAt(made)] + [Status(HeldCode(made), last.header)]
      + HeldBack(BodyBytes(before), last.header)
      + [last]
  }

  // What has reached the writer underneath while the handler is still running.
  ghost function Forwarded(made: seq<Call>): seq<Call> {
    if !Held(made) then made
    else if TooLarge(made) then Released(made)
    else made[..DecidedAt(made)]
  }

  function AnswerHeader(length: nat, h: Headers): Headers {
    Set(Set(h, CONTENT_TYPE, JSON), CONTENT_LENGTH, D.Decimal(length))
  }

  // The one complete answer a judged failure becomes.
  function Answer(code: int, out: bytes, h: Headers): seq<Call> {
    [Status(code, AnswerHeader(|out|, h)), Body(out, AnswerHeader(|out|, h))]
  }

  // And once the middleware has finished; `h` is the header map by then.
  ghost function Delivered(p: Policy, made: seq<Call>, h: Headers): seq<Call> {
    if !Held(made) || TooLarge(made) then Forwarded(made)
    else
      var out := Shown(p, HeldCode(made), BodyBytes(made));
      Forwarded(made) + Answer(HeldCode(made), out, h)
  }

  // ---------- what one more call changes ----------

  lemma {:induction false} DecisionIsStable(made: seq<Call>, c: Call)
    ensures DecidedAt(made) < |made| ==> DecidedAt(made + [c]) == DecidedAt(made)
    ensures DecidedAt(made) == |made| ==>
      DecidedAt(made + [c]) == if c.Flush? then |made| + 1 else |made|
  {
    if made == [] {
      assert [c][1..] == [];
    } else {
      assert (made + [c])[1..] == made[1..] + [c];
      DecisionIsStable(made[1..], c);
    }
  }

  lemma HeldIsStable(made: seq<Call>, c: Call)
    ensures DecidedAt(made) < |made| ==>
      DecidedAt(made + [c]) == DecidedAt(made) && Held(made + [c]) == Held(made)
    ensures DecidedAt(made) == |made| ==> !Held(made)
    ensures |BodyBytes(made)| <= |BodyBytes(made + [c])|
    ensures DecidedAt(made) == |made| ==> BodyBytes(made) == []
  {
    FlushesCarryNothing(made, DecidedAt(made));
    assert made[..|made|] == made;
    DecisionIsStable(made, c);
    BodyBytesSnoc(made, c);
  }

  lemma ForwardedSnoc(made: seq<Call>, c: Call)
    ensures !Held(made + [c]) || (Held(made) && TooLarge(made)) ==> Forwarded(made + [c]) == Forwarded(made) + [c]
    ensures Held(made + [c]) && !TooLarge(made + [c]) ==> Forwarded(made + [c]) == Forwarded(made)
    ensures HeldSmall(made) && TooLarge(made + [c]) ==>
      Forwarded(made + [c])
      == Forwarded(made) + [Status(HeldCode(made), c.header)] + HeldBack(BodyBytes(made), c.header) + [c]
  {
    HeldIsStable(made, c);
    DecisionIsStable(made, c);
    var all := made + [c];
    assert all[..|made|] == made && all[|made|] == c;
    if DecidedAt(made) < |made| {
      assert all[..DecidedAt(made)] == made[..DecidedAt(made)];
    }
  }

  lemma {:induction false} FlushesCarryNothing(made: seq<Call>, n: nat)
    requires n <= DecidedAt(made)
    ensures BodyBytes(made[..n]) == []
  {
    if n > 0 {
      FlushesCarryNothing(made, n - 1);
      assert made[..n] == made[..n - 1] + [made[n - 1]];
      BodyBytesSnoc(made[..n - 1], made[n - 1]);
    }
  }

  // A body never starts a held response, and continues one.
  lemma BodyNext(made: seq<Call>, b: bytes, h: Headers)
    ensures var all := made + [Body(b, h)]; var old' := DecidedAt(made) < |made|;
      && DecidedAt(all) < |all| && HeldCode(all) == (if old' then HeldCode(made) else 200)
      && Held(all) == Held(made)
      && BodyBytes(all) == BodyBytes(made) + b
      && (!Held(made) || TooLarge(made) ==> Forwarded(all) == Forwarded(made) + [Body(b, h)])
      && (HeldSmall(made) && !TooLarge(all) ==> Forwarded(all) == Forwarded(made))
      && (HeldSmall(made) && TooLarge(all) ==>
            Forwarded(all) == Forwarded(made) + [Status(HeldCode(made), h)] + HeldBack(BodyBytes(made), h) + [Body(b, h)])
  {
    HeldIsStable(made, Body(b, h));
    DecisionIsStable(made, Body(b, h));
    BodyBytesSnoc(made, Body(b, h));
    ForwardedSnoc(made, Body(b, h));
  }

  // ---------- what the client gets ----------

  lemma {:induction false} ReleasedKeepsBytes(made: seq<Call>)
    requires Held(made) && TooLarge(made)
    ensures BodyBytes(Released(made)) == BodyBytes(made)
    decreases |made|
  {
    var n := |made| - 1;
    var before, last := made[..n], made[n];
    assert made == before + [last];
    HeldIsStable(before, last);
    BodyBytesSnoc(before, last);
    if Held(before) && TooLarge(before) {
      ReleasedKeepsBytes(before);
      BodyBytesSnoc(Released(before), last);
    } else {
      var i := DecidedAt(made);
      var pre, status := made[..i], [Status(HeldCode(made), last.header)];
      var held := HeldBack(BodyBytes(before), last.header);
      FlushesCarryNothing(made, i);
      BodyBytesConcat(pre, status);
      BodyBytesConcat(pre + status, held);
      BodyBytesSnoc(pre + status + held, last);
      assert BodyBytes(status) == [];
      assert BodyBytes(held) == BodyBytes(before);
    }
  }

  // Holding a failure holds back its headers too, unless the handler had flushed.
  lemma ForwardedIsCommittedExactly(made: seq<Call>)
    ensures Committed(Forwarded(made)) <==> if HeldSmall(made) then DecidedAt(made) > 0 else Committed(made)
  {
    if HeldSmall(made) {
      assert DecidedAt(made) > 0 ==> made[..DecidedAt(made)][0].Flush?;
    } else if Held(made) {
      ReleasedKeepsBytes(made);
      BytesAreCommitted(made);
      BytesAreCommitted(Released(made));
    }
  }

  // What the layers above are told about it, while the handler runs.
  ghost predicate ToldWritten(made: seq<Call>) { Committed(Forwarded(made)) && !HeldSmall(made) }

  // Conservation: whatever the handler wrote arrives exactly, in every case but
  // a complete, small failure; and unless the failure was held, call for call.
  lemma OnlyJudgedBodiesChange(p: Policy, made: seq<Call>, h: Headers)
    ensures !Held(made) ==> Delivered(p, made, h) == made
    ensures !Held(made) || TooLarge(made) ==> BodyBytes(Delivered(p, made, h)) == BodyBytes(made)
  {
    if Held(made) && TooLarge(made) {
      ReleasedKeepsBytes(made);
    }
  }

  lemma StatusAndBody(status: Call, body: Call)
    requires status.Status? && body.Body?
    ensures BodyBytes([status, body]) == body.data
  {
    BodyBytesSnoc([], status);
    BodyBytesSnoc([] + [status], body);
    assert ([] + [status]) + [body] == [status, body];
  }

  lemma LengthIsStated(length: nat, h: Headers)
    ensures Get(AnswerHeader(length, h), CONTENT_LENGTH) == D.Decimal(length)
  {
  }

  lemma AnsweredAfter(before: seq<Call>, code: int, out: bytes, h: Headers)
    ensures var answer := Answer(code, out, h); var calls, n := before + answer, |before|;
      && |calls| == n + 2 && calls[..n] == before && calls[n] == answer[0]
      && (n == 0 <==> calls == answer)
      && BodyBytes(calls) == BodyBytes(before) + out
  {
    var answer := Answer(code, out, h);
    BodyBytesConcat(before, answer);
    StatusAndBody(answer[0], answer[1]);
    assert |before| > 0 ==> |before + answer| != |answer|;
  }

  // A complete, small failure arrives as one body, either itself or its
  // replacement, under a length that reads back as its own. Flushes the handler
  // made before stating the failure are passed on ahead of it; without any, the
  // status and the body are all the writer underneath ever sees.
  lemma JudgedFailureIsOneAnswer(p: Policy, made: seq<Call>, h: Headers)
    requires HeldSmall(made)
    ensures var calls, n := Delivered(p, made, h), DecidedAt(made);
      && |calls| == n + 2
      && calls[..n] == made[..n]
      && calls[n].Status? && calls[n].code == HeldCode(made)
      && (forall i :: 0 <= i < n ==> calls[i].Flush?)
      && (n == 0 <==> calls == Answer(HeldCode(made), Shown(p, HeldCode(made), BodyBytes(made)), h))
      && BodyBytes(calls) == Shown(p, HeldCode(made), BodyBytes(made))
      && var length := Get(calls[n].header, CONTENT_LENGTH);
         D.AllDigits(length) && D.Value(length) == |BodyBytes(calls)|
  {
    var out, n := Shown(p, HeldCode(made), BodyBytes(made)), DecidedAt(made);
    D.DecimalReadsBack(|out|);
    FlushesCarryNothing(made, n);
    AnsweredAfter(made[..n], HeldCode(made), out, h);
    LengthIsStated(|out|, h);
  }

  // ---------- by what the handler did first ----------

  // The first call that is not a flush.
  predicate DecidesAt(made: seq<Call>, i: nat) {
    i < |made| && !made[i].Flush? && forall j :: 0 <= j < i ==> made[j].Flush?
  }

  predicate IsEventStream(h: Headers) { Contains(Get(h, CONTENT_TYPE), EVENT_STREAM) }

  // A body first, a status below 400, or a failure said to be an event stream:
  // nothing is changed.
  lemma PassedThrough(p: Policy, made: seq<Call>, i: nat, h: Headers)
    requires DecidesAt(made, i)
    requires made[i].Status? ==> made[i].code < 400 || IsEventStream(made[i].header)
    ensures Delivered(p, made, h) == made
  {
    assert DecidedAt(made) == i;
  }

  // What the header map of a judged answer says.
  lemma AnswerHeaderSays(length: nat, h: Headers)
    ensures var h' := AnswerHeader(length, h);
      && Get(h', CONTENT_TYPE) == JSON
      && D.AllDigits(Get(h', CONTENT_LENGTH)) && D.Value(Get(h', CONTENT_LENGTH)) == length
      && forall name :: name != CONTENT_TYPE && name != CONTENT_LENGTH ==> Get(h', name) == Get(h, name)
  {
    D.DecimalReadsBack(length);
    assert |CONTENT_TYPE| != |CONTENT_LENGTH|;
  }

  // Any other failure with at most 64 KiB: its own text if that is the
  // upstream's, otherwise an object saying its status and cause.
  lemma FailureIsJudged(p: Policy, made: seq<Call>, i: nat, h: Headers)
    requires DecidesAt(made, i) && made[i].Status? && made[i].code >= 400 && !IsEventStream(made[i].header)
    requires |BodyBytes(made)| <= 0x1_0000
    ensures var calls, code, text := Delivered(p, made, h), made[i].code, BodyBytes(made);
      && |calls| == i + 2 && calls[..i] == made[..i]
      && calls[i] == Status(code, calls[i].header) && calls[i + 1] == Body(BodyBytes(calls), calls[i].header)
      && (p.isUpstream(text) ==> BodyBytes(calls) == text)
      && (!p.isUpstream(text) ==> SaysOnly(p, code, text, BodyBytes(calls)))
      && calls[i].header == AnswerHeader(|BodyBytes(calls)|, h)
  {
    assert DecidedAt(made) == i;
    JudgedFailureIsOneAnswer(p, made, h);
    ReplacementReadsBack(p, made[i].code, BodyBytes(made));
  }

  // And with more: the status ahead of every byte, and every byte.
  lemma LargeFailureIsReleased(p: Policy, made: seq<Call>, i: nat, h: Headers)
    requires DecidesAt(made, i) && made[i].Status? && made[i].code >= 400 && !IsEventStream(made[i].header)
    requires |BodyBytes(made)| > 0x1_0000
    ensures var calls := Delivered(p, made, h);
      && |calls| > i && calls[..i] == made[..i] && calls[i] == Status(made[i].code, calls[i].header)
      && BodyBytes(calls) == BodyBytes(made)
  {
    assert DecidedAt(made) == i;
    ReleasedKeepsBytes(made);
    StatusIsReleasedFirst(made);
  }

  lemma {:induction false} StatusIsReleasedFirst(made: seq<Call>)
    requires Held(made) && TooLarge(made)
    ensures var calls, i := Released(made), DecidedAt(made);
      |calls| > i && calls[..i] == made[..i] && calls[i] == Status(HeldCode(made), calls[i].header)
    decreases |made|
  {
    var n := |made| - 1;
    var before, last := made[..n], made[n];
    assert made == before + [last];
    HeldIsStable(before, last);
    if Held(before) && TooLarge(before) {
      StatusIsReleasedFirst(before);
      var i := DecidedAt(made);
      assert before[..i] == made[..i] && Released(made)[..i] == Released(before)[..i];
    }
  }

  // Two failures told apart only by their wording look the same to the caller.
  lemma ReplacedFailuresLookAlike(p: Policy, a: seq<Call>, b: seq<Call>, h: Headers)
    requires HeldSmall(a) && !p.isUpstream(BodyBytes(a))
    requires HeldSmall(b) && !p.isUpstream(BodyBytes(b))
    requires a[..DecidedAt(a)] == b[..DecidedAt(b)] && HeldCode(a) == HeldCode(b)
    requires p.cause(BodyBytes(a)) == p.cause(BodyBytes(b))
    ensures Delivered(p, a, h) == Delivered(p, b, h)
  {
  }

  // ---------- the writer ----------

  class EnvelopeWriter {
    const policy: Policy
    // The header map of the writer underneath; the handler edits it directly.
    var header: Headers

    var status: int
    var buffering: bool
    var decided: bool
    var buf: bytes
    var overflowed: bool

    ghost var made: seq<Call>  // every call the handler made
    ghost var sent: seq<Call>  // every call passed on
    ghost var finished: bool

    ghost predicate Valid()
      reads this
    {
      && (decided <==> DecidedAt(made) < |made|)
      && (!decided ==> buf == [])
      && (decided ==> status == HeldCode(made))
      && (buffering <==> HeldSmall(made) && !finished)
      && (overflowed <==> Held(made) && TooLarge(made))
      && (buffering ==> buf == BodyBytes(made))
      && (!finished ==> sent == Forwarded(made))
    }

    constructor (policy: Policy, header: Headers)
      ensures Valid() && made == [] && sent == [] && !finished
      ensures this.policy == policy && this.header == header
    {
      this.policy, this.header := policy, header;
      status, buffering, decided, buf, overflowed := 0, false, false, [], false;
      made, sent, finished := [], [], false;
    }

    method EditHeader(h: Headers)
      requires Valid()
      modifies this`header
      ensures Valid() && header == h
    {
      header := h;
    }

    method Decide(code: int)
      modifies this`decided, this`status, this`buffering
      ensures decided
      ensures old(decided) ==> status == old(status) && buffering == old(buffering)
      ensures !old(decided) ==> status == code && buffering == (old(buffering) || (code >= 400 && !Streams(header)))
    {
      if decided {
        return;
      }
      decided := true;
      status := code;
      if code < 400 {
        return;
      }
      if Streams(header) {
        return;
      }
      buffering := true;
    }

    method WriteHeader(code: int)
      requires Valid() && !finished
      modifies this
      ensures Valid() && !finished && header == old(header)
      ensures made == old(made) + [Status(code, header)]
      ensures sent == Forwarded(made)
    {
      HeldIsStable(made, Status(code, header));
      DecisionIsStable(made, Status(code, header));
      BodyBytesSnoc(made, Status(code, header));
      ForwardedSnoc(made, Status(code, header));
      Decide(code);
      made := made + [Status(code, header)];
      if buffering {
        return;
      }
      sent := sent + [Status(code, header)];
    }

    // Too much to hold: the status, the held bytes and `b` all go out.
    method Release(b: bytes)
      modifies this`buffering, this`overflowed, this`buf, this`sent
      ensures !buffering && overflowed
      ensures sent == old(sent) + [Status(status, header)] + HeldBack(old(buf), header) + [Body(b, header)]
    {
      buffering := false;
      overflowed := true;
      sent := sent + [Status(status, header)];
      if |buf| > 0 {
        sent := sent + [Body(buf, header)];
        buf := [];
      }
      sent := sent + [Body(b, header)];
    }

    method Write(b: bytes)
      requires Valid() && !finished
      modifies this
      ensures Valid() && !finished && header == old(header)
      ensures made == old(made) + [Body(b, header)]
      ensures sent == Forwarded(made)
    {
      BodyNext(made, b, header);
      Decide(200);
      made := made + [Body(b, header)];
      if !buffering {
        sent := sent + [Body(b, header)];
        return;
      }
      if |buf| + |b| > MAX_BODY {
        Release(b);
        return;
      }
      buf := buf + b;
    }

    method Flush()
      requires Valid() && !finished
      modifies this
      ensures Valid() && !finished && header == old(header)
      ensures made == old(made) + [Call.Flush(header)]
      ensures sent == Forwarded(made)
    {
      HeldIsStable(made, Call.Flush(header));
      DecisionIsStable(made, Call.Flush(header));
      BodyBytesSnoc(made, Call.Flush(header));
      ForwardedSnoc(made, Call.Flush(header));
      made := made + [Call.Flush(header)];
      if buffering {
        return;
      }
      sent := sent + [Call.Flush(header)];
    }

    method Written(below: bool) returns (written: bool)
      requires Valid() && !finished
      requires below <==> Committed(sent)
      ensures written <==> ToldWritten(made)
    {
      if buffering {
        return false;
      }
      return below;
    }

    method Finish()
      requires Valid() && !finished
      modifies this
      ensures Valid() && finished && made == old(made)
      ensures sent == Delivered(policy, made, old(header))
    {
      finished := true;
      if !buffering || overflowed {
        return;
      }
      buffering := false;
      var body := buf;
      var out := body;
      if !policy.isUpstream(body) {
        out := Replacement(policy, status, body);
      }
      header := Set(header, CONTENT_TYPE, JSON);
      var length := D.Itoa(|out|);
      header := Set(header, CONTENT_LENGTH, length);
      sent := sent + [Status(status, header)];
      sent := sent + [Body(out, header)];
      assert sent == old(sent) + Answer(status, out, old(header));
    }
  }
}
