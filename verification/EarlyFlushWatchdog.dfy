// How often the heartbeat writes, and when it gives up: in every run, and to the
// tick in one where every goroutine runs as soon as it can.
module EarlyFlushWatchdog {
  import opened Bytes
  import opened EarlyFlushDesign
  import opened EarlyFlushRuns
  import opened EarlyFlushTiming
  import opened Wrappers

  function Periods(c: Config, k: nat): nat { if k == 0 then 0 else Periods(c, k - 1) + c.beat }

  // The ticker runs.
  predicate Armed(b: Beat) { !b.NoBeat? && !b.Spawned? && !b.Arming? }

  // How much later than the deadline's clock read it was started.
  function Lag(s: Sys): nat { if s.readAt <= s.beatStart then s.beatStart - s.readAt else 0 }

  // The ticks between the start of the ticker and the deadline.
  function Fitting(c: Config, lag: nat): nat
    requires c.beat > 0
  {
    if lag <= c.maxSilence then (c.maxSilence - lag) / c.beat else 0
  }

  // ---------- arithmetic ----------

  lemma MulLess(x: int, y: int, b: int)
    requires b > 0 && x * b < y * b
    ensures x < y
  {
    assert (y - x) * b > 0;
  }

  lemma QuotientAtLeast(a: int, b: int, k: int)
    requires b > 0 && k * b <= a
    ensures k <= a / b
  {
    var q := a / b;
    assert a == q * b + a % b;
    assert (q + 1) * b == q * b + b;
    MulLess(k, q + 1, b);
  }

  lemma QuotientIs(a: int, b: int, k: int)
    requires b > 0 && k * b <= a < (k + 1) * b
    ensures a / b == k
  {
    var q := a / b;
    assert a == q * b + a % b;
    MulLess(q, k + 1, b);
    QuotientAtLeast(a, b, k);
  }

  lemma {:induction false} PeriodsMultiply(c: Config, k: nat)
    ensures Periods(c, k) == k * c.beat
  {
    if k > 0 {
      PeriodsMultiply(c, k - 1);
      assert k * c.beat == (k - 1) * c.beat + c.beat;
    }
  }

  // The ticker's next tick lies beyond the periods that have gone by.
  lemma NextTickIsAhead(c: Config, s: Sys, k: nat)
    requires c.beat > 0 && s.beatStart + Periods(c, k) <= s.now
    ensures s.beatStart + Periods(c, k + 1) <= NextTick(c, s)
    ensures s.now == s.beatStart + Periods(c, k) ==> NextTick(c, s) == s.now + c.beat
  {
    PeriodsMultiply(c, k);
    PeriodsMultiply(c, k + 1);
    var gone := s.now - s.beatStart;
    QuotientAtLeast(gone, c.beat, k);
    if gone / c.beat > k {
      MulAtMost(k + 1, gone / c.beat + 1, c.beat);
    }
    if gone == k * c.beat {
      assert (k + 1) * c.beat == k * c.beat + c.beat;
      QuotientIs(gone, c.beat, k);
    }
  }

  lemma MulAtMost(x: int, y: int, b: int)
    requires b > 0 && x <= y
    ensures x * b <= y * b
  {
    assert (y - x) * b >= 0;
  }

  // ---------- in every run ----------

  // No keep-alive goes out past the deadline, and no closing frame before it.
  ghost predicate Paced(c: Config, ph: Phase, b: Beat, read: nat, start: nat, n: nat, now: nat, last: nat) {
    && (!Armed(b) ==> n == 0)
    && (b.Arming? ==> read <= now)
    && (Armed(b) ==> read <= start <= now)
    && (n > 0 ==> start + Periods(c, n) <= read + c.maxSilence)
    && (b.Waiting? ==> start + Periods(c, n + 1) <= b.next)
    && (b.Ticked? ==> start + Periods(c, n + 1) <= now && start + Periods(c, n + 2) <= b.next)
    && (ph == Ended ==> Armed(b) && read + c.maxSilence < last)
  }

  ghost predicate IsPaced(c: Config, s: Sys) {
    Paced(c, s.w.phase, s.beat, s.readAt, s.beatStart, s.beats, s.now, s.lastWrite)
  }

  // A handler call leaves an ended stream alone and ends the covered silence.
  predicate Respects(w: State, t: State) {
    && t.closed == w.closed
    && (w.phase == Ended || t.phase == Ended ==> t.phase == w.phase && t.sent == w.sent)
    && (t.phase == Covering && !t.closed ==> t.phase == w.phase && t.sent == w.sent)
  }

  lemma HandlerRespects(w: State, code: int, b: bytes)
    ensures Respects(w, WriteHeader(w, code)) && Respects(w, Write(w, b)) && Respects(w, FlushOut(w))
  {
  }

  lemma HandlerStepRespects(s: Sys, e: Event)
    ensures var t := HandlerStep(s, e);
      && Respects(s.w, t.w)
      && t.beat == s.beat && t.readAt == s.readAt && t.beatStart == s.beatStart && t.beats == s.beats
      && t.now == s.now && t.lastWrite == s.lastWrite
  {
    HandlerRespects(s.w, if e.SayStatus? then e.code else 0, if e.SayBytes? then e.b else []);
  }

  lemma PaceRespected(c: Config, w: State, t: State, b: Beat, read: nat, start: nat, n: nat, now: nat, last: nat)
    requires Paced(c, w.phase, b, read, start, n, now, last) && Respects(w, t)
    ensures Paced(c, t.phase, b, read, start, n, now, if t.sent == w.sent then last else now)
  {
  }

  lemma PacedByHandler(c: Config, s: Sys, e: Event)
    requires IsPaced(c, s) && ByHandler(e)
    ensures IsPaced(c, Next(c, s, e))
  {
    WhoseStep(c, s, e);
    HandlerStepRespects(s, e);
    PaceRespected(c, s.w, HandlerStep(s, e).w, s.beat, s.readAt, s.beatStart, s.beats, s.now, s.lastWrite);
  }

  lemma PacedByFire(c: Config, s: Sys)
    requires Places(c, s) && IsPaced(c, s)
    ensures IsPaced(c, Next(c, s, Fire))
  {
    var t := Act(c, s, Fire);
    assert t.w.phase != s.w.phase ==> t.w.phase == Covering && s.w.phase == Untouched;
  }

  lemma PacedByReport(c: Config, s: Sys, hungUp: bool)
    requires IsPaced(c, s)
    ensures IsPaced(c, Next(c, s, Report(hungUp)))
  {
    var t := RequestStep(c, s, Report(hungUp));
    assert t == s || t == s.(w := Finish(c.voice, s.w, hungUp), pc := Done(hungUp));
    assert t.w.phase == s.w.phase;
    assert s.w.phase == Ended ==> t.w == s.w;
    assert Act(c, s, Report(hungUp)) == t;
  }

  predicate ByRequest(e: Event) {
    e.Arrive? || e.UploadDone? || e.UploadCut? || e.Disarm? || e.MarkCut? || e.Rearm? || e.Return? || e.Join?
  }

  lemma RequestLeavesPace(c: Config, s: Sys, e: Event)
    requires ByRequest(e)
    ensures var t := Next(c, s, e);
      && t.w.phase == s.w.phase && (t.w.closed == s.w.closed || t.w.closed) && t.lastWrite == s.lastWrite
      && t.beat == s.beat && t.readAt == s.readAt && t.beatStart == s.beatStart && t.beats == s.beats && t.now == s.now
  {
    RequestFrame(c, s, e);
    assert Act(c, s, e) == RequestStep(c, s, e);
  }

  lemma PacedByRequest(c: Config, s: Sys, e: Event)
    requires IsPaced(c, s) && ByRequest(e)
    ensures IsPaced(c, Next(c, s, e))
  {
    RequestLeavesPace(c, s, e);
  }

  lemma PacedByTime(c: Config, s: Sys, e: Event)
    requires Told(s) && IsPaced(c, s) && (e.Pass? || e.Expire?)
    ensures IsPaced(c, Next(c, s, e))
  {
  }

  lemma PacedByBeat(c: Config, s: Sys, e: Event)
    requires Told(s) && IsPaced(c, s) && (e.BeatStart? || e.BeatStop? || e.BeatNotify?)
    ensures IsPaced(c, Next(c, s, e))
  {
    assert BeatStep(c, s, e).w.sent == s.w.sent;
  }

  lemma PacedByArm(c: Config, s: Sys)
    requires IsPaced(c, s)
    ensures IsPaced(c, Next(c, s, BeatArm))
  {
    assert Periods(c, 1) == Periods(c, 0) + c.beat;
  }

  lemma PacedByTick(c: Config, s: Sys)
    requires c.beat > 0 && IsPaced(c, s)
    ensures IsPaced(c, Next(c, s, BeatTick))
  {
    if s.beat.Waiting? && s.beat.next <= s.now {
      NextTickIsAhead(c, s, s.beats + 1);
    }
  }

  // What one turn of the heartbeat does while it covers.
  lemma BeatLockIs(c: Config, s: Sys)
    requires s.beat.Ticked? && s.w.phase == Covering && !s.w.closed
    ensures var t := Next(c, s, BeatLock); var isLate := s.now > s.readAt + c.maxSilence;
      && t == s.(w := t.w, lastWrite := s.now,
                 beat := if isLate then Notifying else Waiting(s.beat.next),
                 beats := if isLate then s.beats else s.beats + 1)
      && t.w.closed == s.w.closed && t.w.phase == if isLate then Ended else Covering
  {
    assert |Heartbeat(c.voice, s.w, s.now > s.readAt + c.maxSilence).sent| == |s.w.sent| + 2;
  }

  lemma PacedByLock(c: Config, s: Sys)
    requires IsPaced(c, s) && s.beat.Ticked?
    ensures IsPaced(c, Next(c, s, BeatLock))
  {
    if s.w.phase == Covering && !s.w.closed {
      BeatLockIs(c, s);
    } else {
      assert Next(c, s, BeatLock) == s.(beat := Exited);
    }
  }

  lemma PacedKept(c: Config, s: Sys, e: Event)
    requires Sound(c) && Good(c, s) && IsPaced(c, s)
    ensures IsPaced(c, Next(c, s, e))
  {
    if ByHandler(e) {
      PacedByHandler(c, s, e);
    } else if e.BeatTick? {
      PacedByTick(c, s);
    } else if e.BeatLock? {
      if s.beat.Ticked? {
        PacedByLock(c, s);
      }
    } else if e.Fire? {
      PacedByFire(c, s);
    } else if e.Report? {
      PacedByReport(c, s, e.hungUp);
    } else if e.BeatArm? {
      PacedByArm(c, s);
    } else if e.Pass? || e.Expire? {
      PacedByTime(c, s, e);
    } else if e.BeatStart? || e.BeatStop? || e.BeatNotify? {
      PacedByBeat(c, s, e);
    } else {
      PacedByRequest(c, s, e);
    }
  }

  lemma {:induction false} EveryRunIsPaced(c: Config, es: seq<Event>)
    requires Sound(c)
    ensures IsPaced(c, Run(c, es))
  {
    if es != [] {
      var n := |es| - 1;
      EveryRunIsPaced(c, es[..n]);
      EveryRun(c, es[..n]);
      PacedKept(c, Run(c, es[..n]), es[n]);
    }
  }

  // However late the goroutines run: no more keep-alives than ticks fit before
  // the deadline, and the stream is never ended before it.
  lemma WatchdogLimit(c: Config, es: seq<Event>)
    requires Sound(c)
    ensures var s := Run(c, es);
      && s.beats <= Fitting(c, Lag(s)) <= c.maxSilence / c.beat
      && (s.w.phase == Ended ==> s.readAt + c.maxSilence < s.lastWrite)
  {
    EveryRunIsPaced(c, es);
    var s := Run(c, es);
    FittingAtLeast(c, Lag(s), s.beats);
    FittingShrinks(c, Lag(s));
  }

  lemma FittingAtLeast(c: Config, lag: nat, n: nat)
    requires c.beat > 0 && (n > 0 ==> lag + Periods(c, n) <= c.maxSilence)
    ensures n <= Fitting(c, lag)
  {
    PeriodsMultiply(c, n);
    if n > 0 {
      QuotientAtLeast(c.maxSilence - lag, c.beat, n);
    }
  }

  lemma FittingIs(c: Config, lag: nat, n: nat)
    requires c.beat > 0 && (n > 0 ==> lag + Periods(c, n) <= c.maxSilence) && c.maxSilence < lag + Periods(c, n + 1)
    ensures n == Fitting(c, lag)
  {
    PeriodsMultiply(c, n);
    PeriodsMultiply(c, n + 1);
    if lag <= c.maxSilence {
      QuotientIs(c.maxSilence - lag, c.beat, n);
    }
  }

  lemma FittingShrinks(c: Config, lag: nat)
    requires c.beat > 0
    ensures Fitting(c, lag) <= c.maxSilence / c.beat
  {
    if lag <= c.maxSilence {
      var a := c.maxSilence - lag;
      assert a == a / c.beat * c.beat + a % c.beat;
      QuotientAtLeast(c.maxSilence, c.beat, a / c.beat);
    }
  }

  // ---------- when every goroutine runs as soon as it can ----------

  // Every write of the heartbeat falls on a tick of its ticker.
  ghost predicate Schedule(c: Config, ph: Phase, closed: bool, b: Beat, read: nat, start: nat, n: nat, now: nat, last: nat) {
    && (b.Spawned? ==> last == now)
    && (ph == Covering && !closed ==>
          && !b.NoBeat? && !b.Notifying? && !b.Exited?
          && (b.Arming? ==> last == read)
          && (Armed(b) ==> last == if n == 0 then read else start + Periods(c, n))
          && (b.Waiting? ==> now <= b.next == start + Periods(c, n + 1))
          && (b.Ticked? ==> now == start + Periods(c, n + 1) && b.next == now + c.beat))
    && (ph == Ended ==> last == start + Periods(c, n + 1))
  }

  ghost predicate OnSchedule(c: Config, s: Sys) {
    Schedule(c, s.w.phase, s.w.closed, s.beat, s.readAt, s.beatStart, s.beats, s.now, s.lastWrite)
  }

  lemma ScheduleKeptByTick(c: Config, s: Sys)
    requires c.beat > 0 && s.beatStart <= s.now && OnSchedule(c, s)
    ensures OnSchedule(c, Next(c, s, BeatTick))
  {
    if s.beat.Waiting? && s.beat.next <= s.now && s.w.phase == Covering && !s.w.closed {
      NextTickIsAhead(c, s, s.beats + 1);
    }
  }

  lemma ScheduleKeptByLock(c: Config, s: Sys)
    requires OnSchedule(c, s) && s.beat.Ticked?
    ensures OnSchedule(c, Next(c, s, BeatLock))
  {
    if s.w.phase == Covering && !s.w.closed {
      BeatLockIs(c, s);
      assert Periods(c, s.beats + 2) == Periods(c, s.beats + 1) + c.beat;
    } else {
      assert Next(c, s, BeatLock) == s.(beat := Exited);
    }
  }

  lemma ScheduleKeptByFire(c: Config, s: Sys)
    requires Places(c, s) && OnSchedule(c, s)
    ensures OnSchedule(c, Next(c, s, Fire))
  {
    var t := Act(c, s, Fire);
    assert t.w.phase != s.w.phase ==> |t.w.sent| == |s.w.sent| + 2;
  }

  lemma ScheduleRespected(c: Config, w: State, t: State, b: Beat, read: nat, start: nat, n: nat, now: nat, last: nat)
    requires Schedule(c, w.phase, w.closed, b, read, start, n, now, last) && Respects(w, t)
    ensures Schedule(c, t.phase, t.closed, b, read, start, n, now, if t.sent == w.sent then last else now)
  {
  }

  lemma ScheduleKeptByHandler(c: Config, s: Sys, e: Event)
    requires OnSchedule(c, s) && ByHandler(e)
    ensures OnSchedule(c, Next(c, s, e))
  {
    var t := HandlerStep(s, e);
    HandlerStepRespects(s, e);
    ScheduleRespected(c, s.w, t.w, s.beat, s.readAt, s.beatStart, s.beats, s.now, s.lastWrite);
  }

  lemma ScheduleKeptByReport(c: Config, s: Sys, hungUp: bool)
    requires Places(c, s) && OnSchedule(c, s)
    ensures OnSchedule(c, Next(c, s, Report(hungUp)))
  {
    var t := RequestStep(c, s, Report(hungUp));
    assert t.w.phase == s.w.phase && t.beat == s.beat;
    assert s.pc.Reporting? ==> s.w.closed;
  }

  lemma ScheduleKeptByRequest(c: Config, s: Sys, e: Event)
    requires OnSchedule(c, s) && ByRequest(e)
    ensures OnSchedule(c, Next(c, s, e))
  {
    RequestLeavesPace(c, s, e);
  }

  lemma ScheduleKeptByTime(c: Config, s: Sys, e: Event)
    requires OnSchedule(c, s) && PromptStep(s, e) && (e.Pass? || e.Expire?)
    ensures OnSchedule(c, Next(c, s, e))
  {
  }

  lemma ScheduleKeptByBeat(c: Config, s: Sys, e: Event)
    requires Places(c, s) && Told(s) && OnSchedule(c, s) && (e.BeatStart? || e.BeatStop? || e.BeatNotify?)
    ensures OnSchedule(c, Next(c, s, e))
  {
    assert BeatStep(c, s, e).w.sent == s.w.sent;
  }

  lemma ScheduleKeptByArm(c: Config, s: Sys)
    requires IsPaced(c, s) && OnSchedule(c, s)
    ensures OnSchedule(c, Next(c, s, BeatArm))
  {
    assert Periods(c, 1) == Periods(c, 0) + c.beat;
  }

  lemma ScheduleKept(c: Config, s: Sys, e: Event)
    requires Sound(c) && Good(c, s) && IsPaced(c, s) && OnSchedule(c, s) && PromptStep(s, e)
    ensures OnSchedule(c, Next(c, s, e))
  {
    if ByHandler(e) {
      ScheduleKeptByHandler(c, s, e);
    } else if e.BeatTick? {
      ScheduleKeptByTick(c, s);
    } else if e.BeatLock? {
      if s.beat.Ticked? {
        ScheduleKeptByLock(c, s);
      }
    } else if e.Fire? {
      ScheduleKeptByFire(c, s);
    } else if e.Report? {
      ScheduleKeptByReport(c, s, e.hungUp);
    } else if e.BeatArm? {
      ScheduleKeptByArm(c, s);
    } else if e.Pass? || e.Expire? {
      ScheduleKeptByTime(c, s, e);
    } else if e.BeatStart? || e.BeatStop? || e.BeatNotify? {
      ScheduleKeptByBeat(c, s, e);
    } else {
      ScheduleKeptByRequest(c, s, e);
    }
  }

  lemma {:induction false} PromptRunsKeepTheSchedule(c: Config, es: seq<Event>)
    requires Sound(c) && Prompt(c, es)
    ensures OnSchedule(c, Run(c, es))
  {
    if es != [] {
      var n := |es| - 1;
      PromptRunsKeepTheSchedule(c, es[..n]);
      EveryRun(c, es[..n]);
      EveryRunIsPaced(c, es[..n]);
      ScheduleKept(c, Run(c, es[..n]), es[n]);
    }
  }

  // While the wrapper covers for the upstream and its ticker runs, the wire is
  // never silent longer than one period -- the first time longer by the lag the
  // ticker was started with -- and covering ends at most one period after the
  // deadline, or after the first tick when that came later still.
  lemma SilenceIsBrokenAndBounded(c: Config, es: seq<Event>)
    requires Sound(c) && Prompt(c, es)
    ensures var s := Run(c, es); var silence := s.now - s.lastWrite;
      s.w.phase == Covering && !s.w.closed ==>
        && (s.beat.Spawned? ==> silence == 0)
        && (s.beat.Arming? ==> silence == s.now - s.readAt)
        && (Armed(s.beat) ==>
              && silence <= c.beat + (if s.beats == 0 then Lag(s) else 0)
              && s.now <= Max(s.beatStart, s.readAt + c.maxSilence) + c.beat)
  {
    PromptRunsKeepTheSchedule(c, es);
    EveryRunIsPaced(c, es);
    var s := Run(c, es);
    assert Periods(c, s.beats + 1) == Periods(c, s.beats) + c.beat;
  }

  // A stream the handler never speaks on gets as many keep-alives as ticks fit
  // before the deadline, and its closing frame on the first tick after it.
  lemma WatchdogCount(c: Config, es: seq<Event>)
    requires Sound(c) && Prompt(c, es) && Run(c, es).w.phase == Ended
    ensures var s := Run(c, es);
      && s.beats == Fitting(c, Lag(s))
      && s.readAt + c.maxSilence < s.lastWrite <= Max(s.beatStart, s.readAt + c.maxSilence) + c.beat
      && s.lastWrite == s.beatStart + Periods(c, s.beats + 1)
  {
    PromptRunsKeepTheSchedule(c, es);
    EveryRunIsPaced(c, es);
    var s := Run(c, es);
    assert Periods(c, s.beats + 1) == Periods(c, s.beats) + c.beat;
    FittingIs(c, Lag(s), s.beats);
  }

  // That is the whole quotient exactly when the lag fits into its remainder.
  lemma FullCountExactly(c: Config, lag: nat)
    requires c.beat > 0
    ensures Fitting(c, lag) == c.maxSilence / c.beat <==> lag <= c.maxSilence % c.beat || c.maxSilence < c.beat
  {
    var q := c.maxSilence / c.beat;
    assert c.maxSilence == q * c.beat + c.maxSilence % c.beat;
    if c.maxSilence < c.beat {
      FittingShrinks(c, lag);
      QuotientIs(c.maxSilence, c.beat, 0);
    } else if lag <= c.maxSilence % c.beat {
      assert (q + 1) * c.beat == q * c.beat + c.beat;
      QuotientIs(c.maxSilence - lag, c.beat, q);
    } else {
      FullCountNeedsTheRemainder(c, lag);
    }
  }

  lemma FullCountNeedsTheRemainder(c: Config, lag: nat)
    requires c.beat > 0 && c.maxSilence >= c.beat && lag > c.maxSilence % c.beat
    ensures Fitting(c, lag) < c.maxSilence / c.beat
  {
    var q := c.maxSilence / c.beat;
    assert c.maxSilence == q * c.beat + c.maxSilence % c.beat;
    QuotientAtLeast(c.maxSilence, c.beat, 1);
    if lag <= c.maxSilence {
      var a := c.maxSilence - lag;
      assert a == a / c.beat * c.beat + a % c.beat;
      MulLess(a / c.beat, q, c.beat);
    }
  }

  // ---------- a request nobody answers ----------

  predicate Covered(s: Sys, now: nat) {
    && s.w.phase == Covering && !s.w.closed && s.pc.Handling? && !s.stop
    && s.timer.None? && s.firing == 0 && s.now == now
  }

  lemma Preflushes(c: Config, s: Sys)
    requires s.w.phase == Untouched && !s.w.closed && s.pc.Handling? && !s.stop && !s.sniff
    requires s.timer.None? && s.firing == 1
    ensures var t := Next(c, s, Fire); Covered(t, s.now) && t.beat.Spawned? && t.beats == s.beats
  {
    assert |Next(c, s, Fire).w.sent| == |s.w.sent| + 2;
  }

  // Such a request gets its preamble the moment its delay is over.
  lemma PreambleOnTime(c: Config) returns (es: seq<Event>)
    requires c.verdict(c.length) == SaysStream
    ensures Prompt(c, es) && Event.UploadCut !in es
    ensures var s := Run(c, es); Covered(s, c.delay) && s.beat.Spawned? && s.beats == 0
  {
    es := HandlerStarts(c);
    var s := Run(c, es);
    PromptSnoc(c, es, Pass(c.delay));
    es := es + [Pass(c.delay)];
    assert Run(c, es) == s.(now := c.delay);
    PromptSnoc(c, es, Expire);
    es := es + [Expire];
    assert Run(c, es) == s.(now := c.delay, timer := None, firing := 1);
    PromptSnoc(c, es, Fire);
    Preflushes(c, Run(c, es));
    es := es + [Fire];
  }

  // The heartbeat has written n times, and nothing is due for a period.
  ghost predicate Beating(c: Config, s: Sys, n: nat) {
    && Covered(s, c.delay + Periods(c, n)) && s.beat == Waiting(s.now + c.beat)
    && s.beats == n && s.readAt == s.beatStart == c.delay
  }

  lemma Begins(c: Config, s: Sys)
    requires Covered(s, c.delay) && s.beat.Spawned? && s.beats == 0
    ensures var t := Next(c, s, BeatStart); t.beat.Arming? && Beating(c, Next(c, t, BeatArm), 0)
  {
    var t := Next(c, s, BeatStart);
    assert t == s.(readAt := s.now, beat := Arming);
    assert Next(c, t, BeatArm) == t.(beatStart := s.now, beat := Waiting(s.now + c.beat));
  }

  lemma BeatsBegin(c: Config) returns (es: seq<Event>)
    requires c.verdict(c.length) == SaysStream
    ensures Prompt(c, es) && Beating(c, Run(c, es), 0)
  {
    es := PreambleOnTime(c);
    Begins(c, Run(c, es));
    PromptSnoc(c, es, BeatStart);
    es := es + [BeatStart];
    PromptSnoc(c, es, BeatArm);
    es := es + [BeatArm];
  }

  // The period goes by, and the heartbeat is about to take the lock.
  ghost predicate AboutToLock(c: Config, s: Sys, n: nat) {
    && Covered(s, c.delay + Periods(c, n + 1)) && s.beat == Ticked(s.now + c.beat)
    && s.beats == n && s.readAt == s.beatStart == c.delay
  }

  lemma Ticks(c: Config, s: Sys, n: nat)
    requires c.beat > 0 && Beating(c, s, n)
    ensures var t := Next(c, s, Pass(c.beat)); AboutToLock(c, Next(c, t, BeatTick), n)
  {
    assert Periods(c, n + 1) == Periods(c, n) + c.beat;
    var t := Next(c, s, Pass(c.beat));
    assert t == s.(now := c.delay + Periods(c, n + 1));
    NextTickIsAhead(c, t, n + 1);
    assert Next(c, t, BeatTick) == t.(beat := Ticked(NextTick(c, t)));
  }

  lemma NextTurn(c: Config, es: seq<Event>, n: nat) returns (fs: seq<Event>)
    requires c.beat > 0 && Prompt(c, es) && Beating(c, Run(c, es), n)
    ensures Prompt(c, fs) && AboutToLock(c, Run(c, fs), n)
  {
    Ticks(c, Run(c, es), n);
    PromptSnoc(c, es, Pass(c.beat));
    fs := es + [Pass(c.beat)];
    PromptSnoc(c, fs, BeatTick);
    fs := fs + [BeatTick];
  }

  lemma Writes(c: Config, s: Sys, n: nat)
    requires AboutToLock(c, s, n)
    ensures var t := Next(c, s, BeatLock);
      if Periods(c, n + 1) <= c.maxSilence then Beating(c, t, n + 1)
      else t.w.phase == Ended && t.beats == n && t.lastWrite == c.delay + Periods(c, n + 1)
  {
    BeatLockIs(c, s);
  }

  lemma TakesTheLock(c: Config, es: seq<Event>, n: nat) returns (fs: seq<Event>)
    requires Prompt(c, es) && AboutToLock(c, Run(c, es), n)
    ensures Prompt(c, fs) && Run(c, fs) == Next(c, Run(c, es), BeatLock)
  {
    PromptSnoc(c, es, BeatLock);
    fs := es + [BeatLock];
  }

  ghost predicate AtBeat(c: Config, es: seq<Event>, n: nat) { Prompt(c, es) && Beating(c, Run(c, es), n) }

  lemma OneMoreBeat(c: Config, es: seq<Event>, n: nat) returns (fs: seq<Event>)
    requires c.beat > 0 && AtBeat(c, es, n) && Periods(c, n + 1) <= c.maxSilence
    ensures AtBeat(c, fs, n + 1)
  {
    var turn := NextTurn(c, es, n);
    Writes(c, Run(c, turn), n);
    fs := TakesTheLock(c, turn, n);
  }

  lemma {:induction false} BeatsGoOn(c: Config, es: seq<Event>, k: nat, n: nat) returns (fs: seq<Event>)
    requires c.beat > 0 && AtBeat(c, es, k) && k <= n && Periods(c, n) <= c.maxSilence
    ensures AtBeat(c, fs, n)
    decreases n - k
  {
    if k == n {
      fs := es;
    } else {
      PeriodsGrow(c, k + 1, n);
      fs := OneMoreBeat(c, es, k);
      fs := BeatsGoOn(c, fs, k + 1, n);
    }
  }

  lemma {:induction false} PeriodsGrow(c: Config, k: nat, n: nat)
    requires k <= n
    ensures Periods(c, k) <= Periods(c, n)
  {
    if k < n {
      PeriodsGrow(c, k, n - 1);
    }
  }

  lemma WholePeriods(c: Config, n: nat)
    requires c.beat > 0 && n == c.maxSilence / c.beat
    ensures Periods(c, n) <= c.maxSilence < Periods(c, n + 1)
  {
    PeriodsMultiply(c, n);
    PeriodsMultiply(c, n + 1);
    assert c.maxSilence == n * c.beat + c.maxSilence % c.beat && (n + 1) * c.beat == n * c.beat + c.beat;
  }

  lemma LastBeat(c: Config, es: seq<Event>, n: nat) returns (fs: seq<Event>)
    requires c.beat > 0 && AtBeat(c, es, n) && Periods(c, n + 1) > c.maxSilence
    ensures Prompt(c, fs)
    ensures var t := Run(c, fs); t.w.phase == Ended && t.beats == n && t.lastWrite == c.delay + Periods(c, n + 1)
  {
    var turn := NextTurn(c, es, n);
    Writes(c, Run(c, turn), n);
    fs := TakesTheLock(c, turn, n);
  }

  // And it is ended by the watchdog, after as many keep-alives as fit.
  lemma WatchdogEndsIt(c: Config, n: nat) returns (es: seq<Event>)
    requires c.beat > 0 && c.verdict(c.length) == SaysStream && n == c.maxSilence / c.beat
    ensures Prompt(c, es)
    ensures var t := Run(c, es); t.w.phase == Ended && t.beats == n && t.lastWrite == c.delay + Periods(c, n + 1)
  {
    WholePeriods(c, n);
    es := BeatsBegin(c);
    es := BeatsGoOn(c, es, 0, n);
    es := LastBeat(c, es, n);
  }

  const SECOND := 1_000_000_000 // in nanoseconds
  const HEARTBEAT_EVERY := 15 * SECOND
  const MAX_SILENCE := 240 * SECOND

  // The shipped limit is a whole number of periods, so any lag at all costs the
  // last keep-alive: fifteen go out, and the closing frame in place of the
  // sixteenth.
  lemma AtTheShippedLimits(c: Config, es: seq<Event>)
    requires Sound(c) && Prompt(c, es) && Run(c, es).w.phase == Ended
    requires c.beat == HEARTBEAT_EVERY && c.maxSilence == MAX_SILENCE
    requires 0 < Lag(Run(c, es)) <= HEARTBEAT_EVERY
    ensures Run(c, es).beats == 15 && Run(c, es).lastWrite == Run(c, es).beatStart + MAX_SILENCE
  {
    WatchdogCount(c, es);
    FifteenFit(c, Lag(Run(c, es)));
  }

  lemma FifteenFit(c: Config, lag: nat)
    requires c.beat == HEARTBEAT_EVERY && c.maxSilence == MAX_SILENCE && 0 < lag <= HEARTBEAT_EVERY
    ensures Fitting(c, lag) == 15 && Periods(c, 16) == MAX_SILENCE
  {
    PeriodsMultiply(c, 15);
    PeriodsMultiply(c, 16);
    FittingIs(c, lag, 15);
  }
}
