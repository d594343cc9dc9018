// When the preamble goes out, and when it is held back: in every run.
module EarlyFlushPreamble {
  import opened Bytes
  import opened Http
  import opened EarlyFlushDesign
  import opened EarlyFlushRuns
  import opened EarlyFlushGuarantees
  import opened Runs
  import opened Wrappers

  // Its time has come: the desperation limit is over, or the delay is and the
  // whole body says that the request streams.
  ghost predicate Due(c: Config, s: Sys) {
    c.desperation <= s.now || (c.delay <= s.now && s.received == c.length && c.verdict(c.length) == SaysStream)
  }

  ghost predicate Sanctioned(c: Config, s: Sys) {
    && (!s.sniff ==> !s.pc.Uploading? && s.received == c.length && c.verdict(c.length) == SaysStream)
    && (s.pc.Rearming? && !Preflushed(s.w.phase) ==> s.received == c.length && c.verdict(c.length) == SaysStream)
    && (s.pc.Disarming? && !s.pc.failed ==> c.verdict(c.length) != SaysStream)
    && (s.timer.Some? ==> s.timer.value >= if s.sniff then c.desperation else c.delay)
    && (s.firing > 0 || Preflushed(s.w.phase) ==> Due(c, s))
  }

  lemma SanctionedByRequest(c: Config, s: Sys, e: Event)
    requires Places(c, s) && Sanctioned(c, s)
    ensures Sanctioned(c, RequestStep(c, s, e))
  {
  }

  lemma SanctionedByHandler(c: Config, s: Sys, e: Event)
    requires Places(c, s) && Sanctioned(c, s)
    ensures Sanctioned(c, HandlerStep(s, e))
  {
  }

  lemma SanctionedByTimer(c: Config, s: Sys, e: Event)
    requires Places(c, s) && Sanctioned(c, s)
    ensures Sanctioned(c, TimerStep(c, s, e))
  {
  }

  lemma SanctionedByBeat(c: Config, s: Sys, e: Event)
    requires Places(c, s) && Sanctioned(c, s)
    ensures Sanctioned(c, BeatStep(c, s, e))
  {
  }

  lemma SanctionedKept(c: Config, s: Sys, e: Event)
    requires Places(c, s) && Sanctioned(c, s)
    ensures Sanctioned(c, Next(c, s, e))
  {
    WhoseStep(c, s, e);
    if ByHandler(e) {
      SanctionedByHandler(c, s, e);
    } else if ByTimer(e) {
      SanctionedByTimer(c, s, e);
    } else if ByBeat(e) {
      SanctionedByBeat(c, s, e);
    } else if !e.Pass? {
      SanctionedByRequest(c, s, e);
    }
    assert Sanctioned(c, Act(c, s, e));
  }

  // No preamble before its time.
  lemma {:induction false} NoPreambleBeforeItsTime(c: Config, es: seq<Event>)
    ensures Sanctioned(c, Run(c, es))
    ensures Preflushed(Run(c, es).w.phase) ==> Due(c, Run(c, es))
  {
    if es != [] {
      var n := |es| - 1;
      NoPreambleBeforeItsTime(c, es[..n]);
      EveryRun(c, es[..n]);
      SanctionedKept(c, Run(c, es[..n]), es[n]);
    }
  }

  // A firing that meets an untouched, open request.
  predicate Fires(s: Sys, e: Event) { e.Fire? && s.firing > 0 && s.w.phase == Untouched && !s.w.closed }

  lemma OnlyFiringsPreflush(c: Config, s: Sys, e: Event)
    requires s.w.phase == Untouched && !Fires(s, e)
    ensures !Preflushed(Next(c, s, e).w.phase)
  {
    WhoseStep(c, s, e);
    BeatFrame(c, s, e);
    if !(e.Report? && s.pc.Reporting?) {
      RequestFrame(c, s, e);
    }
  }

  lemma PreambleStep(c: Config, s: Sys, e: Event)
    requires Places(c, s) && Sanctioned(c, s) && s.w.phase == Untouched
    ensures var t := Next(c, s, e); var provenJson := c.verdict(s.received) == SaysJson;
      && (Preflushed(t.w.phase) <==> Fires(s, e) && !provenJson)
      && (Fires(s, e) && provenJson ==> t == s.(firing := s.firing - 1, w := s.w.(notes := s.w.notes + [Held])))
  {
    if !Fires(s, e) {
      OnlyFiringsPreflush(c, s, e);
    }
  }

  // The preamble goes out exactly when the timer fires on an untouched, open
  // request whose body, as far as it has come, does not say that it is not to be
  // streamed. In that case the firing is noted as held, and nothing else happens.
  lemma PreambleExactly(c: Config, es: seq<Event>, e: Event)
    requires Run(c, es).w.phase == Untouched
    ensures var s, t := Run(c, es), Run(c, es + [e]); var provenJson := c.verdict(s.received) == SaysJson;
      && (Preflushed(t.w.phase) <==> Fires(s, e) && !provenJson)
      && (Fires(s, e) && provenJson ==> t == s.(firing := s.firing - 1, w := s.w.(notes := s.w.notes + [Held])))
  {
    FoldSnoc(Stepper(c), Start(c), es, e);
    NoPreambleBeforeItsTime(c, es);
    EveryRun(c, es);
    PreambleStep(c, Run(c, es), e);
  }

  function HeldTimes(notes: seq<Note>): nat {
    if notes == [] then 0 else HeldTimes(notes[..|notes| - 1]) + if notes[|notes| - 1].Held? then 1 else 0
  }

  lemma HeldTimesSnoc(notes: seq<Note>, n: Note)
    ensures HeldTimes(notes + [n]) == HeldTimes(notes) + if n.Held? then 1 else 0
  {
    assert (notes + [n])[..|notes|] == notes;
  }

  lemma HeldByTimer(c: Config, s: Sys, e: Event)
    requires Sanctioned(c, s)
    ensures HeldTimes(TimerStep(c, s, e).w.notes) ==
      HeldTimes(s.w.notes) + if Fires(s, e) && c.verdict(s.received) == SaysJson then 1 else 0
  {
    HeldTimesSnoc(s.w.notes, Held);
    HeldTimesSnoc(s.w.notes, Flushed(if s.sniff then c.verdict(s.received) else SaysStream));
  }

  lemma RequestHoldsNothing(c: Config, s: Sys, e: Event)
    ensures HeldTimes(RequestStep(c, s, e).w.notes) == HeldTimes(s.w.notes)
  {
    if e.Report? && s.pc.Reporting? {
      HeldTimesSnoc(s.w.notes, ClosingNote(s.w.(intended := FinalStatus(s.w))));
      HeldTimesSnoc(s.w.notes, ClosingNote(s.w));
    } else {
      RequestKeepsNotes(c, s, e);
    }
  }

  lemma BeatHoldsNothing(c: Config, s: Sys, e: Event)
    ensures HeldTimes(BeatStep(c, s, e).w.notes) == HeldTimes(s.w.notes)
  {
    BeatFrame(c, s, e);
    HeldTimesSnoc(s.w.notes, TimedOut);
  }

  lemma OnlyTheTimerFires(c: Config, s: Sys, e: Event)
    ensures e.Fire? ==> RequestStep(c, s, e) == HandlerStep(s, e) == BeatStep(c, s, e) == s
    ensures e.Fire? ==> Act(c, s, e) == TimerStep(c, s, e)
  {
  }

  // One note for each firing held back, and no others.
  lemma HeldExactly(c: Config, es: seq<Event>, e: Event)
    ensures var s, t := Run(c, es), Run(c, es + [e]);
      HeldTimes(t.w.notes) ==
      HeldTimes(s.w.notes) + if Fires(s, e) && c.verdict(s.received) == SaysJson then 1 else 0
  {
    FoldSnoc(Stepper(c), Start(c), es, e);
    NoPreambleBeforeItsTime(c, es);
    OneStep(c, Run(c, es), e);
    OnlyTheTimerFires(c, Run(c, es), e);
    HeldByTimer(c, Run(c, es), e);
    RequestHoldsNothing(c, Run(c, es), e);
    HandlerKeepsNotes(Run(c, es), e);
    BeatHoldsNothing(c, Run(c, es), e);
  }

  // There is one timer whose firing may be held back, so one note at most.
  ghost predicate HeldOnce(s: Sys) {
    && HeldTimes(s.w.notes) <= 1
    && (s.sniff ==> HeldTimes(s.w.notes) + s.firing + (if s.timer.Some? then 1 else 0) <= 1)
    && (s.w.phase == Forwarding ==> s.timer.None?)
  }

  lemma HeldOnceByRequest(c: Config, s: Sys, e: Event)
    requires Places(c, s) && HeldOnce(s)
    ensures HeldOnce(RequestStep(c, s, e))
  {
    RequestHoldsNothing(c, s, e);
  }

  lemma HeldOnceByTimer(c: Config, s: Sys, e: Event)
    requires Places(c, s) && Sanctioned(c, s) && HeldOnce(s)
    ensures HeldOnce(TimerStep(c, s, e))
  {
    HeldByTimer(c, s, e);
  }

  lemma HeldOnceByHandler(c: Config, s: Sys, e: Event)
    requires HeldOnce(s)
    ensures HeldOnce(HandlerStep(s, e))
  {
    HandlerKeepsNotes(s, e);
  }

  lemma HeldOnceByBeat(c: Config, s: Sys, e: Event)
    requires HeldOnce(s)
    ensures HeldOnce(BeatStep(c, s, e))
  {
    BeatHoldsNothing(c, s, e);
    BeatFrame(c, s, e);
  }

  lemma HeldOnceKept(c: Config, s: Sys, e: Event)
    requires Places(c, s) && Sanctioned(c, s) && HeldOnce(s)
    ensures HeldOnce(Next(c, s, e))
  {
    WhoseStep(c, s, e);
    if ByHandler(e) {
      HeldOnceByHandler(c, s, e);
    } else if ByTimer(e) {
      HeldOnceByTimer(c, s, e);
    } else if ByBeat(e) {
      HeldOnceByBeat(c, s, e);
    } else if !e.Pass? {
      HeldOnceByRequest(c, s, e);
    }
    assert HeldOnce(Act(c, s, e));
  }

  // And once the handler has spoken no timer is left running.
  lemma {:induction false} HeldAtMostOnce(c: Config, es: seq<Event>)
    ensures HeldOnce(Run(c, es))
  {
    if es != [] {
      var n := |es| - 1;
      HeldAtMostOnce(c, es[..n]);
      EveryRun(c, es[..n]);
      NoPreambleBeforeItsTime(c, es[..n]);
      HeldOnceKept(c, Run(c, es[..n]), es[n]);
    }
  }

  lemma ReceivedGrows(c: Config, s: Sys, e: Event)
    requires s.received <= c.length
    ensures s.received <= Next(c, s, e).received <= c.length
  {
  }

  // From its first n bytes on the body says that it is not to be streamed.
  ghost predicate JsonFrom(c: Config, n: nat) { forall k: nat :: n <= k <= c.length ==> c.verdict(k) == SaysJson }

  // These have come, and no preamble has gone out.
  predicate HeldBack(s: Sys, n: nat) { !Preflushed(s.w.phase) && n <= s.received }

  lemma StaysHeldBack(c: Config, s: Sys, e: Event, n: nat)
    requires JsonFrom(c, n) && Good(c, s) && Sanctioned(c, s) && HeldBack(s, n)
    ensures HeldBack(Next(c, s, e), n)
  {
    ReceivedGrows(c, s, e);
    if s.w.phase == Untouched {
      PreambleStep(c, s, e);
    } else {
      StepExtends(c, s, e);
    }
  }

  lemma {:induction false} AlwaysHeldBack(c: Config, s: Sys, more: seq<Event>, n: nat)
    requires JsonFrom(c, n) && Good(c, s) && Sanctioned(c, s) && HeldBack(s, n)
    ensures var t := RunFrom(c, s, more); Sanctioned(c, t) && HeldBack(t, n)
    decreases |more|
  {
    if more != [] {
      var last := |more| - 1;
      AlwaysHeldBack(c, s, more[..last], n);
      GoodFrom(c, s, more[..last]);
      SanctionedKept(c, RunFrom(c, s, more[..last]), more[last]);
      StaysHeldBack(c, RunFrom(c, s, more[..last]), more[last], n);
    }
  }

  // A body that has said so before the preamble went out is never answered by
  // one, however the run goes on.
  lemma ProvenJsonIsNeverFlushed(c: Config, es: seq<Event>, more: seq<Event>)
    requires Sound(c) && !Preflushed(Run(c, es).w.phase) && c.verdict(Run(c, es).received) == SaysJson
    ensures !Preflushed(Run(c, es + more).w.phase)
  {
    EveryRun(c, es);
    NoPreambleBeforeItsTime(c, es);
    RunGoesOn(c, es, more);
    AlwaysHeldBack(c, Run(c, es), more, Run(c, es).received);
  }
}
