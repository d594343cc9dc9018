// What becomes of a request that got the preamble, from the handler's calls
// alone: which events the client reads, and what is recorded.
module EarlyFlushOutcome {
  import opened Bytes
  import opened Http
  import opened Redaction
  import opened EarlyFlushDesign
  import opened EarlyFlushRuns
  import opened EarlyFlushGuarantees
  import opened EarlyFlushStatus
  import opened Runs
  import Sse

  // ---------- what a sequence of calls amounts to ----------

  predicate Fails(call: Call) { call.Status? && call.code >= 400 }

  predicate NoBody(calls: seq<Call>) { forall i :: 0 <= i < |calls| ==> !calls[i].Body? }

  predicate NoFailure(calls: seq<Call>) { forall i :: 0 <= i < |calls| ==> !Fails(calls[i]) }

  // A failure status stands before the first body.
  predicate FailsFirst(calls: seq<Call>) { exists i :: 0 <= i < |calls| && Fails(calls[i]) && NoBody(calls[..i]) }

  // A body stands before any failure status.
  predicate StreamsFirst(calls: seq<Call>) { exists i :: 0 <= i < |calls| && calls[i].Body? && NoFailure(calls[..i]) }

  // The latest status, or 0.
  function LastStatus(calls: seq<Call>): int {
    if calls == [] then 0
    else if calls[|calls| - 1].Status? then calls[|calls| - 1].code
    else LastStatus(calls[..|calls| - 1])
  }

  lemma LastStatusSnoc(calls: seq<Call>, call: Call)
    ensures LastStatus(calls + [call]) == if call.Status? then call.code else LastStatus(calls)
  {
    assert (calls + [call])[..|calls|] == calls;
  }

  lemma FailsFirstSnoc(calls: seq<Call>, call: Call)
    ensures FailsFirst(calls + [call]) <==> FailsFirst(calls) || (Fails(call) && NoBody(calls))
  {
    var all := calls + [call];
    assert all[|calls|] == call && all[..|calls|] == calls;
    assert forall i :: 0 <= i < |calls| ==> all[i] == calls[i] && all[..i] == calls[..i];
  }

  lemma StreamsFirstSnoc(calls: seq<Call>, call: Call)
    ensures StreamsFirst(calls + [call]) <==> StreamsFirst(calls) || (call.Body? && NoFailure(calls))
  {
    var all := calls + [call];
    assert all[|calls|] == call && all[..|calls|] == calls;
    assert forall i :: 0 <= i < |calls| ==> all[i] == calls[i] && all[..i] == calls[..i];
  }

  lemma {:induction false} OneOrNeither(calls: seq<Call>)
    ensures !(FailsFirst(calls) && StreamsFirst(calls))
    ensures !FailsFirst(calls) && !StreamsFirst(calls) <==> NoBody(calls) && NoFailure(calls)
  {
    if calls != [] {
      var n := |calls| - 1;
      OneOrNeither(calls[..n]);
      assert calls == calls[..n] + [calls[n]];
      FailsFirstSnoc(calls[..n], calls[n]);
      StreamsFirstSnoc(calls[..n], calls[n]);
      assert forall i :: 0 <= i < n ==> calls[..n][i] == calls[i];
    }
  }

  // What one more call does to both.
  lemma CallSnoc(calls: seq<Call>, call: Call)
    ensures var all := calls + [call];
      && (FailsFirst(all) <==> FailsFirst(calls) || (Fails(call) && !StreamsFirst(calls)))
      && (StreamsFirst(all) <==> StreamsFirst(calls) || (call.Body? && !FailsFirst(calls)))
      && LastStatus(all) == (if call.Status? then call.code else LastStatus(calls))
      && BodyBytes(all) == BodyBytes(calls) + (if call.Body? then call.data else [])
      && all != []
  {
    OneOrNeither(calls);
    OneOrNeither(calls + [call]);
    FailsFirstSnoc(calls, call);
    StreamsFirstSnoc(calls, call);
    LastStatusSnoc(calls, call);
    BodyBytesSnoc(calls, call);
  }

  // ---------- the phase follows from the calls ----------

  ghost predicate Follows(ph: Phase, heard: seq<Call>, said: bytes, stated: int) {
    && (ph == Untouched || ph == Covering || ph == Ended ==> heard == [])
    && (ph == Concluded || ph == Streamed || ph == Translating ==> heard != [])
    && (Preflushed(ph) ==> (ph == Translating <==> FailsFirst(heard)) && (ph == Streamed <==> StreamsFirst(heard)))
    && (ph != Ended ==> said == BodyBytes(heard) && stated == LastStatus(heard))
  }

  ghost predicate Heard(c: Config, s: Sys) {
    && Follows(s.w.phase, s.heard, s.said, s.stated)
    && (s.made == [] ==> s.heard == [])
    && (s.cut ==> s.heard == [])
    && Cuts(c, s)
  }

  // A cut upload is remembered as what it was before the handler could run.
  ghost predicate Cuts(c: Config, s: Sys) {
    && (s.cut ==> (s.pc.Disarming? && s.pc.failed) || s.pc.MarkingCut? || s.pc.Returning? || Finishing(s.pc) || s.pc.Bypassed?)
    && ((s.pc.Disarming? && s.pc.failed) || s.pc.MarkingCut? || s.pc.Returning? ==> s.cut)
    && (s.w.upload == if s.cut && (s.pc.Returning? || Finishing(s.pc)) then Cut(s.received, c.length) else Complete)
  }

  lemma PhaseByStatus(w: State, heard: seq<Call>, said: bytes, stated: int, code: int)
    requires Follows(w.phase, heard, said, stated) && !w.closed && w.phase != Ended
    ensures Follows(WriteHeader(w, code).phase, heard + [Status(code, w.shadow)], said, code)
  {
    CallSnoc(heard, Status(code, w.shadow));
  }

  lemma PhaseByBody(w: State, heard: seq<Call>, said: bytes, stated: int, b: bytes)
    requires Follows(w.phase, heard, said, stated) && !w.closed && w.phase != Ended
    ensures Follows(Write(w, b).phase, heard + [Body(b, w.shadow)], said + b, stated)
  {
    CallSnoc(heard, Body(b, w.shadow));
  }

  lemma PhaseByFlush(w: State, heard: seq<Call>, said: bytes, stated: int)
    requires Follows(w.phase, heard, said, stated) && !w.closed && w.phase != Ended
    ensures Follows(FlushOut(w).phase, heard + [Flush(w.shadow)], said, stated)
  {
    CallSnoc(heard, Flush(w.shadow));
  }

  // Calls nobody hears change no phase but that of a request without preamble.
  lemma PhaseUnheard(w: State, heard: seq<Call>, said: bytes, stated: int, code: int, b: bytes)
    requires Follows(w.phase, heard, said, stated) && (w.closed || w.phase == Ended)
    ensures Follows(WriteHeader(w, code).phase, heard, said, stated)
    ensures Follows(Write(w, b).phase, heard, said, stated)
    ensures Follows(FlushOut(w).phase, heard, said, stated)
  {
  }

  lemma HeardByStatus(c: Config, s: Sys, code: int)
    requires Places(c, s) && Heard(c, s) && HandlerRuns(s)
    ensures Heard(c, HandlerStep(s, SayStatus(code)))
  {
    if s.w.closed || s.w.phase == Ended {
      PhaseUnheard(s.w, s.heard, s.said, s.stated, code, []);
    } else {
      PhaseByStatus(s.w, s.heard, s.said, s.stated, code);
    }
  }

  lemma HeardByBytes(c: Config, s: Sys, b: bytes)
    requires Places(c, s) && Heard(c, s) && HandlerRuns(s)
    ensures Heard(c, HandlerStep(s, SayBytes(b)))
  {
    if s.w.closed || s.w.phase == Ended {
      PhaseUnheard(s.w, s.heard, s.said, s.stated, 0, b);
    } else {
      PhaseByBody(s.w, s.heard, s.said, s.stated, b);
    }
  }

  lemma HeardByFlush(c: Config, s: Sys)
    requires Places(c, s) && Heard(c, s) && HandlerRuns(s)
    ensures Heard(c, HandlerStep(s, SayFlush))
  {
    if s.w.closed || s.w.phase == Ended {
      PhaseUnheard(s.w, s.heard, s.said, s.stated, 0, []);
    } else {
      PhaseByFlush(s.w, s.heard, s.said, s.stated);
    }
  }

  lemma HeardByHandler(c: Config, s: Sys, e: Event)
    requires Places(c, s) && Heard(c, s)
    ensures Heard(c, HandlerStep(s, e))
  {
    if HandlerRuns(s) {
      match e
      case SayStatus(code) => HeardByStatus(c, s, code);
      case SayBytes(b) => HeardByBytes(c, s, b);
      case SayFlush => HeardByFlush(c, s);
      case _ =>
    }
  }

  lemma HeardByRequest(c: Config, s: Sys, e: Event)
    requires Places(c, s) && Heard(c, s)
    ensures Heard(c, RequestStep(c, s, e))
  {
  }

  lemma HeardByTimer(c: Config, s: Sys, e: Event)
    requires Places(c, s) && Heard(c, s)
    ensures Heard(c, TimerStep(c, s, e))
  {
  }

  lemma HeardByBeat(c: Config, s: Sys, e: Event)
    requires Places(c, s) && Heard(c, s)
    ensures Heard(c, BeatStep(c, s, e))
  {
    BeatFrame(c, s, e);
  }

  lemma HeardKept(c: Config, s: Sys, e: Event)
    requires Places(c, s) && Heard(c, s)
    ensures Heard(c, Next(c, s, e))
  {
    WhoseStep(c, s, e);
    if ByHandler(e) {
      HeardByHandler(c, s, e);
    } else if ByTimer(e) {
      HeardByTimer(c, s, e);
    } else if ByBeat(e) {
      HeardByBeat(c, s, e);
    } else if !e.Pass? {
      HeardByRequest(c, s, e);
    }
    assert Heard(c, Act(c, s, e));
  }

  // In every run: translating exactly when a failure status stands before the
  // first body, streaming exactly when a body stands before any failure status.
  lemma {:induction false} PhaseFollowsTheCalls(c: Config, es: seq<Event>)
    ensures Heard(c, Run(c, es))
  {
    if es != [] {
      var n := |es| - 1;
      PhaseFollowsTheCalls(c, es[..n]);
      EveryRun(c, es[..n]);
      HeardKept(c, Run(c, es[..n]), es[n]);
    }
  }

  // ---------- what the client is shown of a failure ----------

  predicate Showable(p: Policy, text: bytes) { SingleLine(TrimSpace(text)) && p.isUpstream(TrimSpace(text)) }

  // One error event: the failure's own text, if that is the upstream's and fits
  // one line, and otherwise an object saying only its status and cause.
  ghost predicate ReadsAsFailure(p: Policy, body: bytes, status: int, text: bytes) {
    && |Sse.Parse(body)| == 1
    && var e, own := Sse.Parse(body)[0], TrimSpace(text);
       && e.kind == "error" && e.lastId == []
       && (SingleLine(own) && p.isUpstream(own) ==> e.data == own)
       && (!(SingleLine(own) && p.isUpstream(own)) ==> SaysOnly(p, status, own, e.data))
  }

  lemma FailureIsShown(p: Policy, body: bytes, status: int, text: bytes)
    requires TellsFailure(p, body, status, text)
    ensures ReadsAsFailure(p, body, status, text)
  {
    ReplacementReadsBack(p, status, TrimSpace(text));
  }

  // ---------- the outcome ----------

  // A status of 0 is none.
  function FiledAs(heard: seq<Call>): int { if LastStatus(heard) == 0 then 502 else LastStatus(heard) }

  ghost predicate ReadsAs(body: bytes, events: bytes) {
    !(Sse.BOM <= events) ==> Sse.Parse(body) == Sse.Parse(events)
  }

  // No phase, only what the handler called for, whether the watchdog was faster
  // and whether anybody was left to read.
  ghost predicate Outcome(c: Config, p: Policy, s: Sys)
    requires s.pc.Done?
  {
    var body, told := BodyBytes(s.w.sent), Endings(s.w.notes);
    if TimedOut in s.w.notes then
      s.heard == [] && ReadsAsFailure(p, body, 504, []) && told == [TimedOut]
    else if StreamsFirst(s.heard) then
      ReadsAs(body, BodyBytes(s.heard)) && told == []
    else if FailsFirst(s.heard) then
      if s.pc.hungUp then Sse.Parse(body) == [] && told == []
      else
        && ReadsAsFailure(p, body, FiledAs(s.heard), Head(BodyBytes(s.heard)))
        && told == [Translated(FiledAs(s.heard))]
    else if s.heard == [] && !s.pc.hungUp then
      && ReadsAsFailure(p, body, 502, [])
      && told == [if s.cut then Note.UploadCut(s.received, c.length) else Translated(502)]
    else Sse.Parse(body) == [] && told == []
  }

  lemma {:induction false} EndingIsAmongThem(notes: seq<Note>, n: Note)
    requires IsEnding(n)
    ensures n in Endings(notes) <==> n in notes
  {
    if notes != [] {
      EndingIsAmongThem(notes[..|notes| - 1], n);
      assert notes == notes[..|notes| - 1] + [notes[|notes| - 1]];
    }
  }

  // The three facts about a finished run the outcome is put together from.
  ghost predicate Settled(c: Config, p: Policy, s: Sys) {
    && s.pc.Done? && Preflushed(s.w.phase) && Heard(c, s) && OneStory(p, s)
    && Endings(s.w.notes) == (
       if s.w.phase == Ended then [TimedOut]
       else if OwesFrame(s.w) && !s.pc.hungUp then
         [if s.w.upload.Cut? then Note.UploadCut(s.w.upload.received, s.w.upload.declared) else Translated(s.w.intended)]
       else [])
    && (s.w.phase != Ended && OwesFrame(s.w) && !s.pc.hungUp ==>
          s.w.intended == Reported(s.w, 200) == FiledAs(s.heard))
  }

  lemma FiledAsStated(c: Config, es: seq<Event>)
    requires var s := Run(c, es); s.pc.Done? && Heard(c, s) && OwesFrame(s.w) && !s.pc.hungUp
    ensures var s := Run(c, es); s.w.intended == Reported(s.w, 200) == FiledAs(s.heard)
  {
    FiledUnderItsOutcome(c, es, 0);
    FiledUnderItsOutcome(c, es, 200);
  }

  lemma EveryFinishedRunIsSettled(c: Config, p: Policy, es: seq<Event>)
    requires c.voice == VoiceOf(p)
    requires Run(c, es).pc.Done? && Preflushed(Run(c, es).w.phase)
    ensures Settled(c, p, Run(c, es))
  {
    var s := Run(c, es);
    PhaseFollowsTheCalls(c, es);
    ClientReadsOneStory(c, p, es);
    EachErrorEventIsRecordedOnce(c, es);
    if OwesFrame(s.w) && !s.pc.hungUp {
      FiledAsStated(c, es);
    }
  }

  lemma TimedOutExactlyWhenEnded(c: Config, p: Policy, s: Sys)
    requires Settled(c, p, s)
    ensures TimedOut in s.w.notes <==> s.w.phase == Ended
  {
    EndingIsAmongThem(s.w.notes, TimedOut);
  }

  lemma OutcomeWhenOwed(c: Config, p: Policy, s: Sys)
    requires Settled(c, p, s) && OwesFrame(s.w)
    ensures Outcome(c, p, s)
  {
    TimedOutExactlyWhenEnded(c, p, s);
    OneOrNeither(s.heard);
    if !s.pc.hungUp {
      FailureIsShown(p, BodyBytes(s.w.sent), Reported(s.w, 200), Head(s.said));
    }
  }

  lemma OutcomeWhenNot(c: Config, p: Policy, s: Sys)
    requires Settled(c, p, s) && !OwesFrame(s.w)
    ensures Outcome(c, p, s)
  {
    TimedOutExactlyWhenEnded(c, p, s);
    OneOrNeither(s.heard);
    if s.w.phase == Ended {
      FailureIsShown(p, BodyBytes(s.w.sent), 504, []);
    }
  }

  // After the preamble, in every finished run: the handler's events if it wrote
  // a body before any failure status; one error event and one record of it if a
  // failure status came first, or nothing at all came; nothing otherwise.
  lemma OutcomeOfTheCalls(c: Config, p: Policy, es: seq<Event>)
    requires c.voice == VoiceOf(p)
    requires Run(c, es).pc.Done? && Preflushed(Run(c, es).w.phase)
    ensures Outcome(c, p, Run(c, es))
  {
    EveryFinishedRunIsSettled(c, p, es);
    if OwesFrame(Run(c, es).w) {
      OutcomeWhenOwed(c, p, Run(c, es));
    } else {
      OutcomeWhenNot(c, p, Run(c, es));
    }
  }

  // The run ended in an error event for a failure of the handler's whose own
  // text may not be shown.
  ghost predicate Withheld(p: Policy, s: Sys) {
    && s.pc.Done? && !s.pc.hungUp && Preflushed(s.w.phase) && TimedOut !in s.w.notes
    && FailsFirst(s.heard) && !Showable(p, Head(BodyBytes(s.heard)))
  }

  // Two of these read alike whenever they agree on the status and the cause,
  // whatever else their texts say.
  lemma WithheldFailuresReadAlike(c: Config, p: Policy, a: seq<Event>, b: seq<Event>)
    requires c.voice == VoiceOf(p)
    requires Withheld(p, Run(c, a)) && Withheld(p, Run(c, b))
    requires FiledAs(Run(c, a).heard) == FiledAs(Run(c, b).heard)
    requires p.cause(TrimSpace(Head(BodyBytes(Run(c, a).heard)))) == p.cause(TrimSpace(Head(BodyBytes(Run(c, b).heard))))
    ensures Sse.Parse(BodyBytes(Run(c, a).w.sent)) == Sse.Parse(BodyBytes(Run(c, b).w.sent))
  {
    WithheldReading(c, p, a);
    WithheldReading(c, p, b);
  }

  lemma WithheldReading(c: Config, p: Policy, es: seq<Event>)
    requires c.voice == VoiceOf(p) && Withheld(p, Run(c, es))
    ensures var s := Run(c, es); var text := TrimSpace(Head(BodyBytes(s.heard)));
      Sse.Parse(BodyBytes(s.w.sent)) == [Sse.Event("error", Replacement(p, FiledAs(s.heard), text), [])]
  {
    var s := Run(c, es);
    EveryFinishedRunIsSettled(c, p, es);
    TimedOutExactlyWhenEnded(c, p, s);
    OneOrNeither(s.heard);
  }
}
