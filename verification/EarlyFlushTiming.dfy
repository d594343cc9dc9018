// How long things take when every goroutine runs as soon as it can: time
// passes only while nothing is due, and between the heartbeat's two clock reads.
module EarlyFlushTiming {
  import opened Bytes
  import opened Http
  import opened EarlyFlushDesign
  import opened EarlyFlushRuns
  import opened EarlyFlushStatus
  import opened Runs
  import opened Wrappers
  import E = ErrorEnvelope

  // Nothing is due before `s.now + d`.
  predicate Idle(s: Sys, d: nat) {
    && s.firing == 0
    && (s.timer.Some? ==> s.now + d <= s.timer.value)
    && (s.pc.Uploading? || s.pc.Handling? || s.pc.Done? || s.pc.Bypassed?)
    && (s.beat.NoBeat? || s.beat.Exited? || s.beat.Arming? || (s.beat.Waiting? && !s.stop && s.now + d <= s.beat.next))
  }

  predicate PromptStep(s: Sys, e: Event) { e.Pass? && e.d > 0 ==> Idle(s, e.d) }

  predicate Prompt(c: Config, es: seq<Event>) {
    es == [] || (Prompt(c, es[..|es| - 1]) && PromptStep(Run(c, es[..|es| - 1]), es[|es| - 1]))
  }

  function Max(a: nat, b: nat): nat { if a < b then b else a }

  function Bound(c: Config): nat { Max(c.delay, c.desperation) }

  // ---------- response headers in time ----------

  // Somebody is on the way to commit the headers.
  ghost predicate OnTheWay(c: Config, s: Sys) {
    && !s.pc.Disarming? && !s.pc.Bypassed?
    && (s.w.phase == Untouched && !s.w.closed ==>
          && s.now <= Bound(c)
          && (s.firing > 0 || (s.timer.Some? && s.now <= s.timer.value <= Bound(c))))
  }

  lemma OnTheWayByRequest(c: Config, s: Sys, e: Event)
    requires Sound(c) && c.verdict(c.length) == SaysStream
    requires Places(c, s) && OnTheWay(c, s) && !e.UploadCut?
    ensures OnTheWay(c, RequestStep(c, s, e))
  {
  }

  lemma OnTheWayByTimer(c: Config, s: Sys, e: Event)
    requires Sound(c) && c.verdict(c.length) == SaysStream
    requires Places(c, s) && OnTheWay(c, s)
    ensures OnTheWay(c, TimerStep(c, s, e))
  {
    assert c.verdict(s.received) != Undecided ==> c.verdict(c.length) == c.verdict(s.received);
  }

  lemma OnTheWayByHandler(c: Config, s: Sys, e: Event)
    requires OnTheWay(c, s)
    ensures OnTheWay(c, HandlerStep(s, e))
  {
  }

  lemma OnTheWayByBeat(c: Config, s: Sys, e: Event)
    requires Places(c, s) && OnTheWay(c, s)
    ensures OnTheWay(c, BeatStep(c, s, e))
  {
  }

  lemma OnTheWayKept(c: Config, s: Sys, e: Event)
    requires Sound(c) && c.verdict(c.length) == SaysStream
    requires Places(c, s) && OnTheWay(c, s) && PromptStep(s, e) && !e.UploadCut?
    ensures OnTheWay(c, Next(c, s, e))
  {
    OneStep(c, s, e);
    assert e.Pass? ==> OnTheWay(c, s.(now := s.now + e.d));
    OnTheWayByHandler(c, s, e);
    OnTheWayByBeat(c, s, e);
    OnTheWayByTimer(c, s, e);
    OnTheWayByRequest(c, s, e);
  }

  // However long the upload takes, by max(delay, desperation) after it came in
  // somebody has spoken on a streaming request whose body arrives.
  lemma {:induction false} SomebodySpeaksInTime(c: Config, es: seq<Event>)
    requires Sound(c) && c.verdict(c.length) == SaysStream
    requires Prompt(c, es) && Event.UploadCut !in es
    ensures OnTheWay(c, Run(c, es))
    decreases |es|
  {
    if es != [] {
      var n := |es| - 1;
      SomebodySpeaksInTime(c, es[..n]);
      EveryRun(c, es[..n]);
      OnTheWayKept(c, Run(c, es[..n]), es[n]);
    }
  }

  predicate OnlyStatuses(made: seq<Call>) { made != [] && !Committed(made) }

  lemma OnePastTheBound(c: Config, es: seq<Event>)
    requires Sound(c) && c.verdict(c.length) == SaysStream
    requires Prompt(c, es) && Event.UploadCut !in es
    requires Run(c, es).now > Bound(c) && !Run(c, es).w.closed
    ensures Preflushed(Run(c, es).w.phase) || Run(c, es).made != []
  {
    SomebodySpeaksInTime(c, es);
    EveryRun(c, es);
  }

  lemma FlushAheadIsCommitted(made: seq<Call>)
    requires E.DecidedAt(made) > 0
    ensures Committed(made)
  {
    assert made[0].Flush?;
  }

  // From then on its response headers have been committed, unless the handler
  // was first and has called for nothing but statuses; and through the error
  // envelope unless, besides, it is a failure held from its first call on.
  lemma HeadersAreCommittedInTime(c: Config, es: seq<Event>)
    requires Sound(c) && c.verdict(c.length) == SaysStream
    requires Prompt(c, es) && Event.UploadCut !in es
    requires Run(c, es).now > Bound(c) && !Run(c, es).w.closed
    ensures var s := Run(c, es);
      && (Committed(s.w.sent) <==> Preflushed(s.w.phase) || !OnlyStatuses(s.made))
      && (Committed(E.Forwarded(s.w.sent)) <==>
            || Preflushed(s.w.phase)
            || !(OnlyStatuses(s.made) || (E.HeldSmall(s.w.sent) && E.DecidedAt(s.w.sent) == 0)))
  {
    var s := Run(c, es);
    OnePastTheBound(c, es);
    CommittedExactly(c, es);
    CommittedThroughTheEnvelope(c, es);
    if E.DecidedAt(s.w.sent) > 0 {
      FlushAheadIsCommitted(s.w.sent);
    }
  }

  // ---------- the two exceptions happen ----------

  lemma PromptSnoc(c: Config, es: seq<Event>, e: Event)
    requires Prompt(c, es) && PromptStep(Run(c, es), e)
    ensures Prompt(c, es + [e]) && Run(c, es + [e]) == Next(c, Run(c, es), e)
  {
    assert (es + [e])[..|es|] == es;
    FoldSnoc(Stepper(c), Start(c), es, e);
  }

  // Every request can get as far as its handler at once.
  lemma HandlerStarts(c: Config) returns (es: seq<Event>)
    requires c.verdict(c.length) == SaysStream
    ensures Prompt(c, es) && Event.UploadCut !in es
    ensures Run(c, es) == Start(c).(received := c.length, sniff := false, timer := Some(c.delay), pc := Handling)
  {
    es := [];
    assert Run(c, es) == Start(c);
    PromptSnoc(c, es, Arrive(c.length));
    es := es + [Arrive(c.length)];
    assert Run(c, es) == Start(c).(received := c.length);
    PromptSnoc(c, es, UploadDone);
    es := es + [UploadDone];
    PromptSnoc(c, es, Rearm);
    es := es + [Rearm];
  }

  // The handler has spoken first and nothing is due any more.
  predicate HandlerIsFirst(c: Config, s: Sys) {
    && s.w.phase == Forwarding && s.w.header == s.w.shadow == c.entry && !s.w.closed && s.made == s.w.sent
    && s.now == 0 && s.pc.Handling? && s.beat.NoBeat? && s.timer.None? && s.firing == 0
  }

  lemma StatusFirst(c: Config, code: int) returns (es: seq<Event>)
    requires c.verdict(c.length) == SaysStream
    ensures Prompt(c, es) && Event.UploadCut !in es
    ensures HandlerIsFirst(c, Run(c, es)) && Run(c, es).made == [Status(code, c.entry)]
  {
    es := HandlerStarts(c);
    PromptSnoc(c, es, SayStatus(code));
    es := es + [SayStatus(code)];
  }

  lemma BodyStep(c: Config, s: Sys, b: bytes)
    requires HandlerIsFirst(c, s)
    ensures var t := Next(c, s, SayBytes(b)); HandlerIsFirst(c, t) && t.made == s.made + [Body(b, c.entry)]
  {
    assert Write(s.w, b) == s.w.(sent := s.w.sent + [Body(b, c.entry)]);
  }

  lemma BodyFollows(c: Config, es: seq<Event>, b: bytes) returns (fs: seq<Event>)
    requires Prompt(c, es) && Event.UploadCut !in es && HandlerIsFirst(c, Run(c, es))
    ensures Prompt(c, fs) && Event.UploadCut !in fs
    ensures HandlerIsFirst(c, Run(c, fs)) && Run(c, fs).made == Run(c, es).made + [Body(b, c.entry)]
  {
    BodyStep(c, Run(c, es), b);
    PromptSnoc(c, es, SayBytes(b));
    fs := es + [SayBytes(b)];
  }

  // After that time may pass as it likes.
  lemma NobodyCovers(c: Config, es: seq<Event>, late: nat) returns (fs: seq<Event>)
    requires Prompt(c, es) && Event.UploadCut !in es && HandlerIsFirst(c, Run(c, es))
    ensures Prompt(c, fs) && Event.UploadCut !in fs
    ensures Run(c, fs) == Run(c, es).(now := late)
  {
    PromptSnoc(c, es, Pass(late));
    fs := es + [Pass(late)];
  }

  // A status on its own stops the timer and sends nothing: from then on nobody
  // covers the wait, however long it gets.
  lemma StatusAloneIsNotCovered(c: Config, code: int, late: nat) returns (es: seq<Event>)
    requires c.verdict(c.length) == SaysStream
    ensures Prompt(c, es) && Event.UploadCut !in es
    ensures var s := Run(c, es);
      s.now == late && !s.w.closed && !Preflushed(s.w.phase) && OnlyStatuses(s.made) && !Committed(s.w.sent)
  {
    es := StatusFirst(c, code);
    es := NobodyCovers(c, es, late);
  }

  // Nor does anybody cover for a handler at work on a small failure's body.
  lemma HeldFailureIsNotCovered(c: Config, code: int, b: bytes, late: nat) returns (es: seq<Event>)
    requires c.verdict(c.length) == SaysStream
    requires code >= 400 && |b| <= E.MAX_BODY && !E.Streams(c.entry)
    ensures Prompt(c, es) && Event.UploadCut !in es
    ensures var s := Run(c, es);
      s.now == late && !s.w.closed && !Preflushed(s.w.phase) && Committed(s.w.sent) && E.Forwarded(s.w.sent) == []
  {
    es := StatusFirst(c, code);
    es := BodyFollows(c, es, b);
    SmallFailureIsHeld(code, b, c.entry);
    assert Run(c, es).made == [Status(code, c.entry), Body(b, c.entry)];
    es := NobodyCovers(c, es, late);
  }

  lemma SmallFailureIsHeld(code: int, b: bytes, h: Headers)
    requires code >= 400 && |b| <= E.MAX_BODY && !E.Streams(h)
    ensures var made := [Status(code, h), Body(b, h)]; Committed(made) && E.Forwarded(made) == []
  {
    var status, made := Status(code, h), [Status(code, h), Body(b, h)];
    assert made == ([] + [status]) + [made[1]];
    BodyBytesSnoc([], status);
    BodyBytesSnoc([] + [status], made[1]);
    assert !made[1].Status?;
  }
}
