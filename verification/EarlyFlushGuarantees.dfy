// What holds of every run of the early-flush machinery, whatever the
// interleaving of request, timer and heartbeat.
module EarlyFlushGuarantees {
  import opened Bytes
  import opened Http
  import opened Redaction
  import opened EarlyFlushDesign
  import opened EarlyFlushRuns
  import opened Runs
  import E = ErrorEnvelope
  import Sse

  // ---------- one story per client ----------

  ghost predicate TellsFailure(p: Policy, body: bytes, status: int, text: bytes) {
    Sse.Parse(body) == [Sse.Event("error", ShownOnOneLine(p, status, text), [])]
  }

  // After the preamble the client reads the handler's events, or one error
  // event under the status the request is filed with, or nothing: by the state
  // the wrapper ended in, and never a mixture.
  ghost predicate OneStory(p: Policy, s: Sys)
    requires s.pc.Done?
  {
    var body := BodyBytes(s.w.sent);
    match s.w.phase
    case Streamed =>
      && Sse.Parse(body) == (if s.beats == 0 then Sse.Parse(s.said) else Sse.ParseInside(s.said))
      && (!(Sse.BOM <= s.said) ==> Sse.Parse(body) == Sse.Parse(s.said))
    case Concluded => Sse.Parse(body) == []
    case Ended => Reported(s.w, 200) == 504 && TellsFailure(p, body, 504, [])
    case _ =>
      if s.pc.hungUp then Sse.Parse(body) == []
      else TellsFailure(p, body, Reported(s.w, 200), Head(s.said))
  }

  lemma FrameAfterKeepAlives(p: Policy, n: nat, status: int, text: bytes)
    ensures TellsFailure(p, Repeat(Sse.KEEP_ALIVE, n) + Frame(p, status, text), status, text)
  {
    Sse.KeepAlivesAreInvisible(n, Frame(p, status, text));
    Sse.ErrorFrameIsOneEvent(ShownOnOneLine(p, status, text));
  }

  lemma ClientReadsOneStory(c: Config, p: Policy, es: seq<Event>)
    requires c.voice == VoiceOf(p)
    requires Run(c, es).pc.Done? && Preflushed(Run(c, es).w.phase)
    ensures OneStory(p, Run(c, es))
  {
    var s := Run(c, es);
    EveryRun(c, es);
    Sse.KeepAlivesAreInvisible(s.beats, []);
    Sse.KeepAlivesAreInvisible(s.beats, s.said);
    FrameAfterKeepAlives(p, s.beats, 504, []);
    FrameAfterKeepAlives(p, s.beats, s.w.intended, Head(s.said));
  }

  // ---------- forwarding and the preamble exclude each other ----------

  lemma PreambleOrForwarding(c: Config, es: seq<Event>)
    ensures var s := Run(c, es); var w := s.w;
      && (Preflushed(w.phase) ==>
            && |w.sent| >= 2 && w.sent[0] == Status(200, w.header) && w.sent[1] == Flush(w.header)
            && (forall i :: 2 <= i < |w.sent| ==> !w.sent[i].Status?))
      && (!Preflushed(w.phase) ==> w.sent == Under(s.made, w.header))
  {
    EveryRun(c, es);
  }

  // ---------- states are never left backwards ----------

  predicate Leads(a: Phase, b: Phase) {
    || a == b
    || a == Untouched
    || (a == Covering && (b == Concluded || b == Streamed || b == Translating || b == Ended))
    || (a == Concluded && (b == Streamed || b == Translating))
  }

  // What a later state may not take back: the outcome chosen, what has been
  // sent, and -- once anybody has spoken -- the real header map.
  ghost predicate Extends(s: Sys, t: Sys) {
    && Leads(s.w.phase, t.w.phase)
    && s.w.sent <= t.w.sent
    && (s.w.phase != Untouched ==> t.w.header == s.w.header)
    && (s.w.closed ==> t.w.closed)
  }

  lemma HandlerExtends(c: Config, s: Sys, e: Event)
    requires Good(c, s)
    ensures Extends(s, HandlerStep(s, e))
  {
  }

  lemma TimerExtends(c: Config, s: Sys, e: Event)
    requires Good(c, s)
    ensures Extends(s, TimerStep(c, s, e))
  {
  }

  lemma BeatExtends(c: Config, s: Sys, e: Event)
    requires Good(c, s)
    ensures Extends(s, BeatStep(c, s, e))
  {
    BeatFrame(c, s, e);
  }

  lemma RequestExtends(c: Config, s: Sys, e: Event)
    requires Good(c, s)
    ensures Extends(s, RequestStep(c, s, e))
  {
  }

  lemma StepExtends(c: Config, s: Sys, e: Event)
    requires Good(c, s)
    ensures Extends(s, Next(c, s, e))
  {
    OneStep(c, s, e);
    HandlerExtends(c, s, e);
    TimerExtends(c, s, e);
    RequestExtends(c, s, e);
    BeatExtends(c, s, e);
  }

  lemma ExtendsOnwards(s: Sys, t: Sys, u: Sys)
    requires Extends(s, t) && Extends(t, u)
    ensures Extends(s, u)
  {
  }

  lemma {:induction false} RunExtends(c: Config, s: Sys, more: seq<Event>)
    requires Good(c, s)
    ensures Extends(s, RunFrom(c, s, more))
    decreases |more|
  {
    if more != [] {
      var n := |more| - 1;
      RunExtends(c, s, more[..n]);
      GoodFrom(c, s, more[..n]);
      var t := RunFrom(c, s, more[..n]);
      StepExtends(c, t, more[n]);
      ExtendsOnwards(s, t, Next(c, t, more[n]));
    }
  }

  // A request that was answered by a plain forward never gets a preamble
  // later, one that got the preamble is never forwarded as is.
  lemma OutcomeIsFinal(c: Config, es: seq<Event>, more: seq<Event>)
    ensures var s, t := Run(c, es), Run(c, es + more);
      && Extends(s, t)
      && (s.w.phase == Forwarding ==> t.w.phase == Forwarding)
      && (Preflushed(s.w.phase) ==> Preflushed(t.w.phase))
  {
    EveryRun(c, es);
    RunGoesOn(c, es, more);
    RunExtends(c, Run(c, es), more);
  }

  // ---------- the real header map ----------

  // It changes at most once: when the first of the two sides speaks. The
  // handler's way it becomes the map the handler sees, deletions included; the
  // timer's way the entry headers and the four of the preamble.
  ghost predicate HeaderRule(c: Config, s: Sys, t: Sys, byTimer: bool) {
    t.w.header != s.w.header ==>
      && s.w.phase == Untouched && s.w.header == c.entry
      && (if byTimer then t.w.phase == Covering && t.w.header == WithPreamble(c.entry)
          else HandlerRuns(s) && t.w.phase == Forwarding && t.w.header == s.w.shadow)
  }

  lemma HeaderChangeByHandler(c: Config, s: Sys, e: Event)
    requires Good(c, s)
    ensures HeaderRule(c, s, HandlerStep(s, e), false)
  {
  }

  lemma HeaderChangeByTimer(c: Config, s: Sys, e: Event)
    requires Good(c, s)
    ensures HeaderRule(c, s, TimerStep(c, s, e), true)
  {
  }

  lemma OthersKeepTheHeader(c: Config, s: Sys, e: Event)
    ensures RequestStep(c, s, e).w.header == s.w.header
    ensures BeatStep(c, s, e).w.header == s.w.header
    ensures !e.Fire? ==> TimerStep(c, s, e).w.header == s.w.header
    ensures e.Fire? ==> HandlerStep(s, e).w.header == s.w.header
  {
    if !(e.Report? && s.pc.Reporting?) {
      RequestFrame(c, s, e);
    }
  }

  lemma HeaderChange(c: Config, s: Sys, e: Event)
    requires Good(c, s)
    ensures HeaderRule(c, s, Next(c, s, e), e.Fire?)
  {
    OneStep(c, s, e);
    HeaderChangeByHandler(c, s, e);
    HeaderChangeByTimer(c, s, e);
    OthersKeepTheHeader(c, s, e);
  }

  lemma HeaderChangesOnlyWhenFirstSpoken(c: Config, es: seq<Event>, e: Event)
    ensures HeaderRule(c, Run(c, es), Run(c, es + [e]), e.Fire?)
  {
    EveryRun(c, es);
    FoldSnoc(Stepper(c), Start(c), es, e);
    HeaderChange(c, Run(c, es), e);
  }

  // ---------- after the wrapper has been closed ----------

  // From the tombstone on -- through the unlocked gap inside finish -- no timer
  // and no heartbeat touches the wire; once finish has returned, or disarming
  // succeeded, nothing but the handler itself changes anything.
  lemma ClosedStaysQuiet(c: Config, s: Sys, e: Event)
    requires Good(c, s) && s.w.closed && !ByHandler(e)
    ensures var t := Next(c, s, e);
      && (!e.Report? ==> t.w.sent == s.w.sent && t.w.header == s.w.header)
      && (s.pc.Done? || s.pc.Bypassed? ==> t.w == s.w && t.pc == s.pc && (t.beat.NoBeat? || t.beat.Exited?))
  {
    WhoseStep(c, s, e);
    BeatFrame(c, s, e);
    if !(e.Report? && s.pc.Reporting?) {
      RequestFrame(c, s, e);
    }
  }

  predicate Over(s: Sys) { s.pc.Done? || s.pc.Bypassed? }

  lemma {:induction false} StaysOver(c: Config, s: Sys, more: seq<Event>)
    requires Good(c, s) && Over(s)
    requires forall e :: e in more ==> !ByHandler(e)
    ensures var t := RunFrom(c, s, more); t.w == s.w && t.pc == s.pc && (t.beat.NoBeat? || t.beat.Exited?)
    decreases |more|
  {
    if more != [] {
      var n := |more| - 1;
      StaysOver(c, s, more[..n]);
      GoodFrom(c, s, more[..n]);
      ClosedStaysQuiet(c, RunFrom(c, s, more[..n]), more[n]);
    }
  }

  lemma FinishedStaysFinished(c: Config, es: seq<Event>, more: seq<Event>)
    requires Over(Run(c, es))
    requires forall e :: e in more ==> !ByHandler(e)
    ensures var s, t := Run(c, es), Run(c, es + more);
      t.w == s.w && t.pc == s.pc && (t.beat.NoBeat? || t.beat.Exited?)
  {
    EveryRun(c, es);
    RunGoesOn(c, es, more);
    StaysOver(c, Run(c, es), more);
  }

  // Waiting for the heartbeat never deadlocks: wherever that goroutine is, its
  // own steps bring it to its end, because finish released the lock first.
  function StepsLeft(b: Beat): nat {
    match b
    case NoBeat => 0
    case Exited => 0
    case Spawned => 3
    case Arming => 2
    case _ => 1
  }

  function OwnStep(b: Beat): Event {
    match b
    case Spawned => BeatStart
    case Arming => BeatArm
    case Ticked(_) => BeatLock
    case Notifying => BeatNotify
    case _ => BeatStop
  }

  lemma OwnStepHelps(c: Config, s: Sys)
    requires Good(c, s) && s.pc.Joining? && StepsLeft(s.beat) > 0
    ensures var t := Next(c, s, OwnStep(s.beat)); t.pc.Joining? && StepsLeft(t.beat) < StepsLeft(s.beat)
  {
  }

  lemma JoinIsAlwaysReached(c: Config, s: Sys) returns (more: seq<Event>)
    requires Good(c, s) && s.pc.Joining?
    ensures forall e :: e in more ==> e in {BeatStart, BeatArm, BeatLock, BeatNotify, BeatStop, Join}
    ensures RunFrom(c, s, more).pc.Reporting?
    decreases StepsLeft(s.beat)
  {
    var e := if StepsLeft(s.beat) == 0 then Join else OwnStep(s.beat);
    FoldSnoc(Stepper(c), s, [], e);
    assert [] + [e] == [e];
    more := [e];
    if StepsLeft(s.beat) > 0 {
      OwnStepHelps(c, s);
      GoodKept(c, s, e);
      var rest := JoinIsAlwaysReached(c, Next(c, s, e));
      FoldConcat(Stepper(c), s, [e], rest);
      more := [e] + rest;
    }
  }

  // So every request can be brought to its end, wherever it is: by its own steps
  // and, while it waits for the heartbeat, by that one's.
  function OwnRequestStep(pc: Pc, hungUp: bool): Event {
    match pc
    case Uploading => Event.UploadCut
    case Disarming(_) => Disarm
    case MarkingCut => MarkCut
    case Rearming => Rearm
    case Reporting => Report(hungUp)
    case _ => Return
  }

  function RequestStepsLeft(pc: Pc): nat {
    match pc
    case Uploading => 6
    case Disarming(_) => 5
    case MarkingCut => 4
    case Rearming => 4
    case Returning => 3
    case Handling => 3
    case Joining => 2
    case Reporting => 1
    case _ => 0
  }

  lemma RequestMovesOn(c: Config, s: Sys, hungUp: bool)
    requires RequestStepsLeft(s.pc) > 0 && !s.pc.Joining?
    ensures RequestStepsLeft(RequestStep(c, s, OwnRequestStep(s.pc, hungUp)).pc) < RequestStepsLeft(s.pc)
  {
    match s.pc
    case Uploading =>
    case Disarming(_) =>
    case Reporting =>
    case _ =>
  }

  lemma OwnRequestStepHelps(c: Config, s: Sys, hungUp: bool)
    requires RequestStepsLeft(s.pc) > 0 && !s.pc.Joining?
    ensures RequestStepsLeft(Next(c, s, OwnRequestStep(s.pc, hungUp)).pc) < RequestStepsLeft(s.pc)
  {
    var e := OwnRequestStep(s.pc, hungUp);
    RequestMovesOn(c, s, hungUp);
    WhoseStep(c, s, e);
    assert Next(c, s, e).pc == Act(c, s, e).pc;
  }

  lemma EveryRequestCanEnd(c: Config, s: Sys, hungUp: bool) returns (more: seq<Event>)
    requires Good(c, s)
    ensures RunFrom(c, s, more).pc.Done? || RunFrom(c, s, more).pc.Bypassed?
    decreases RequestStepsLeft(s.pc)
  {
    if RequestStepsLeft(s.pc) == 0 {
      more := [];
    } else {
      var first: seq<Event>;
      if s.pc.Joining? {
        first := JoinIsAlwaysReached(c, s);
      } else {
        first := [OwnRequestStep(s.pc, hungUp)];
        OwnRequestStepHelps(c, s, hungUp);
        FoldSnoc(Stepper(c), s, [], first[0]);
        assert [] + first == first;
      }
      GoodFrom(c, s, first);
      var rest := EveryRequestCanEnd(c, RunFrom(c, s, first), hungUp);
      FoldConcat(Stepper(c), s, first, rest);
      more := first + rest;
    }
  }

  // ---------- what the journal is told ----------

  // An error event of the wrapper's own is recorded exactly once, as what it
  // was; a response the handler answered, or nobody was left to read, is not.
  lemma EachErrorEventIsRecordedOnce(c: Config, es: seq<Event>)
    requires Run(c, es).pc.Done?
    ensures var s := Run(c, es);
      Endings(s.w.notes) ==
      if s.w.phase == Ended then [TimedOut]
      else if OwesFrame(s.w) && !s.pc.hungUp then
        [if s.w.upload.Cut? then Note.UploadCut(s.w.upload.received, s.w.upload.declared) else Translated(s.w.intended)]
      else []
  {
    EveryRun(c, es);
  }

  // ---------- under the error envelope ----------

  // The writer underneath is the error envelope. It lets a preflushed response
  // through unbuffered, call for call, whatever the handler does later.
  lemma PreambleIsNeverHeld(c: Config, es: seq<Event>, p: Policy, h: Headers)
    requires Preflushed(Run(c, es).w.phase)
    ensures E.Delivered(p, Run(c, es).w.sent, h) == Run(c, es).w.sent
  {
    EveryRun(c, es);
  }

  lemma {:induction false} UnderKeepsBytes(calls: seq<Call>, h: Headers)
    ensures BodyBytes(Under(calls, h)) == BodyBytes(calls)
  {
    if calls != [] {
      var n := |calls| - 1;
      UnderKeepsBytes(calls[..n], h);
      BodyBytesSnoc(Under(calls[..n], h), calls[n].(header := h));
    }
  }

  // Through both writers, a request that got no preamble is answered with the
  // handler's own bytes, unless they are a small failure to be judged.
  lemma ForwardedAnswerIsTheHandlers(c: Config, es: seq<Event>, p: Policy, h: Headers)
    requires !Preflushed(Run(c, es).w.phase)
    ensures var s := Run(c, es); var out := BodyBytes(E.Delivered(p, s.w.sent, h));
      if E.HeldSmall(s.w.sent)
      then out == Shown(p, E.HeldCode(s.w.sent), BodyBytes(s.made))
      else out == BodyBytes(s.made)
  {
    var s := Run(c, es);
    EveryRun(c, es);
    UnderKeepsBytes(s.made, s.w.header);
    if E.HeldSmall(s.w.sent) {
      E.JudgedFailureIsOneAnswer(p, s.w.sent, h);
    } else {
      E.OnlyJudgedBodiesChange(p, s.w.sent, h);
    }
  }
}
