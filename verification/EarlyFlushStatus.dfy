// What the layers above the wrapper are told: the status they file a request
// under, and whether the response has begun.
module EarlyFlushStatus {
  import opened Bytes
  import opened Http
  import opened EarlyFlushDesign
  import opened EarlyFlushRuns
  import opened Runs
  import E = ErrorEnvelope

  // The status on record, from the latest one the handler stated while the
  // wrapper was open. `framed` says that finish has sent a frame if one was owed.
  ghost predicate OnRecord(w: State, stated: int, framed: bool) {
    && (!Preflushed(w.phase) ==> w.intended == 0)
    && (w.phase == Untouched || w.phase == Covering ==> stated == 0)
    && (w.phase == Ended ==> w.intended == 504)
    && (Preflushed(w.phase) && w.phase != Ended ==>
          w.intended == if framed && OwesFrame(w) && stated == 0 then 502 else stated)
    && (framed ==> w.closed)
  }

  ghost predicate Recorded(s: Sys) { OnRecord(s.w, s.stated, Framed(s.pc)) }

  lemma RecordedByStatus(w: State, stated: int, framed: bool, code: int)
    requires OnRecord(w, stated, framed)
    ensures OnRecord(WriteHeader(w, code), if w.closed then stated else code, framed)
  {
  }

  lemma RecordedByOutput(w: State, stated: int, framed: bool, b: bytes)
    requires OnRecord(w, stated, framed)
    ensures OnRecord(Write(w, b), stated, framed) && OnRecord(FlushOut(w), stated, framed)
  {
  }

  lemma RecordedByHandler(s: Sys, e: Event)
    requires Recorded(s)
    ensures Recorded(HandlerStep(s, e))
  {
    match e
    case SayStatus(code) => RecordedByStatus(s.w, s.stated, Framed(s.pc), code);
    case SayBytes(b) => RecordedByOutput(s.w, s.stated, Framed(s.pc), b);
    case SayFlush => RecordedByOutput(s.w, s.stated, Framed(s.pc), []);
    case _ =>
  }

  lemma RecordedByRequest(c: Config, s: Sys, e: Event)
    requires Places(c, s) && Recorded(s)
    ensures Recorded(RequestStep(c, s, e))
  {
  }

  lemma RecordedByTimer(c: Config, s: Sys, e: Event)
    requires Places(c, s) && Recorded(s)
    ensures Recorded(TimerStep(c, s, e))
  {
  }

  lemma RecordedByBeat(c: Config, s: Sys, e: Event)
    requires Places(c, s) && Recorded(s)
    ensures Recorded(BeatStep(c, s, e))
  {
  }

  lemma RecordedKept(c: Config, s: Sys, e: Event)
    requires Places(c, s) && Recorded(s)
    ensures Recorded(Next(c, s, e))
  {
    OneStep(c, s, e);
    RecordedByHandler(s, e);
    RecordedByRequest(c, s, e);
    RecordedByTimer(c, s, e);
    RecordedByBeat(c, s, e);
  }

  lemma {:induction false} EveryRunIsRecorded(c: Config, es: seq<Event>)
    ensures Recorded(Run(c, es))
  {
    if es != [] {
      var n := |es| - 1;
      EveryRunIsRecorded(c, es[..n]);
      EveryRun(c, es[..n]);
      RecordedKept(c, Run(c, es[..n]), es[n]);
    }
  }

  // A finished request is filed under the outcome it had, not under the 200 on
  // the wire: what the handler stated last, 504 if the watchdog ended it, 502 if
  // the handler left the client waiting, and only failing all that what the
  // writer underneath says.
  lemma FiledUnderItsOutcome(c: Config, es: seq<Event>, below: int)
    requires Run(c, es).pc.Done?
    ensures var s := Run(c, es);
      Reported(s.w, below) ==
      if !Preflushed(s.w.phase) then below
      else if s.w.phase == Ended then 504
      else if s.stated != 0 then s.stated
      else if OwesFrame(s.w) && !s.pc.hungUp then 502
      else below
  {
    EveryRunIsRecorded(c, es);
  }

  // ---------- have the headers gone out? ----------

  lemma {:induction false} UnderIsCommitted(calls: seq<Call>, h: Headers)
    ensures Committed(Under(calls, h)) <==> Committed(calls)
  {
    if calls != [] {
      var n := |calls| - 1;
      UnderIsCommitted(calls[..n], h);
      CommittedSnoc(calls[..n], calls[n]);
      CommittedSnoc(Under(calls[..n], h), calls[n].(header := h));
      assert calls == calls[..n] + [calls[n]];
    }
  }

  // In every run the writer underneath is told to send them by the preamble, or
  // by the first call of the handler's that is not a status.
  lemma CommittedExactly(c: Config, es: seq<Event>)
    ensures var s := Run(c, es);
      && (Committed(s.w.sent) <==> Preflushed(s.w.phase) || Committed(s.made))
      && (Preflushed(s.w.phase) ==> !E.Held(s.w.sent))
      && (s.w.phase == Untouched ==> s.made == [])
  {
    EveryRun(c, es);
    var s := Run(c, es);
    if Preflushed(s.w.phase) {
      assert !s.w.sent[1].Status?;
    } else {
      UnderIsCommitted(s.made, s.w.header);
    }
  }

  // Through the error envelope they have gone out exactly when it holds nothing
  // back, or a flush went ahead of the failure it holds.
  lemma CommittedThroughTheEnvelope(c: Config, es: seq<Event>)
    ensures var s := Run(c, es);
      Committed(E.Forwarded(s.w.sent)) <==>
      if E.HeldSmall(s.w.sent) then E.DecidedAt(s.w.sent) > 0 else Preflushed(s.w.phase) || Committed(s.made)
  {
    CommittedExactly(c, es);
    E.ForwardedIsCommittedExactly(Run(c, es).w.sent);
  }

  // The answer of both writers when the layers above ask whether the response
  // has been written. It is never a false yes. It is a false no exactly while a
  // failure is held that a flush went ahead of; and one that has called for
  // output is told no exactly while its failure is held.
  lemma WrittenIsTrueExactly(c: Config, es: seq<Event>)
    ensures var s := Run(c, es); var told := Preflushed(s.w.phase) || E.ToldWritten(s.w.sent);
      && (told ==> Committed(E.Forwarded(s.w.sent)))
      && (!told && Committed(E.Forwarded(s.w.sent)) <==> E.HeldSmall(s.w.sent) && E.DecidedAt(s.w.sent) > 0)
      && (Committed(s.made) ==> (told <==> Preflushed(s.w.phase) || !E.HeldSmall(s.w.sent)))
  {
    CommittedExactly(c, es);
    CommittedThroughTheEnvelope(c, es);
  }
}
