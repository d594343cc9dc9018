// The request goroutine, the timer and the heartbeat sharing one wrapper. Every
// statement here is about every sequence of events, that is, every interleaving
// of the locked sections; an event that is not enabled changes nothing.
module EarlyFlushRuns {
  import opened Bytes
  import opened Http
  import opened EarlyFlushDesign
  import opened Runs
  import opened Wrappers

  // Times are counted from the request's arrival. `verdict(n)` is what the
  // first n body bytes say about streaming.
  datatype Config = Config(
    voice: Voice, entry: Headers, delay: nat, desperation: nat, beat: nat, maxSilence: nat,
    length: nat, verdict: nat -> Verdict)

  // A field once complete in a prefix keeps its meaning as the body grows.
  ghost predicate Sound(c: Config) {
    && c.beat > 0
    && forall i: nat, j: nat ::
         i <= j <= c.length && c.verdict(i) != Undecided ==> c.verdict(j) == c.verdict(i)
  }

  // Where the request goroutine is.
  datatype Pc =
    | Uploading
    | Disarming(failed: bool)
    | MarkingCut
    | Returning
    | Rearming
    | Handling
    | Joining // finish, between its two locked sections
    | Reporting
    | Done(hungUp: bool)
    | Bypassed // the wrapper was never installed

  // The heartbeat reads the clock for its deadline first and starts its ticker
  // afterwards: it is arming in between.
  datatype Beat = NoBeat | Spawned | Arming | Waiting(next: nat) | Ticked(next: nat) | Notifying | Exited

  datatype Sys = Sys(
    w: State, pc: Pc, cut: bool, sniff: bool, beat: Beat, readAt: nat, beatStart: nat, beats: nat, stop: bool,
    timer: Option<nat>, firing: nat, received: nat, now: nat, lastWrite: nat,
    made: seq<Call>, // the handler's calls on the wrapper
    heard: seq<Call>, // those before the wrapper was closed or the watchdog ended the stream
    said: bytes,     // the body bytes up to where finish closed the wrapper
    stated: int)     // and the latest status, or 0

  datatype Event =
    | Pass(d: nat)
    | Arrive(n: nat) | UploadDone | UploadCut | Disarm | MarkCut | Rearm
    | Edit(h: Headers) | SayStatus(code: int) | SayBytes(b: bytes) | SayFlush
    | Return | Join | Report(hungUp: bool)
    | Expire | Fire
    | BeatStart | BeatArm | BeatTick | BeatStop | BeatLock | BeatNotify

  predicate ByHandler(e: Event) { e.Edit? || e.SayStatus? || e.SayBytes? || e.SayFlush? }

  function Start(c: Config): Sys {
    Sys(Initial(c.entry), Uploading, false, true, NoBeat, 0, 0, 0, false, Some(c.desperation), 0, 0, 0, 0, [], [], [], 0)
  }

  function Spoken(s: Sys, call: Call): Sys {
    s.(made := s.made + [call],
       heard := if s.w.closed || s.w.phase == Ended then s.heard else s.heard + [call],
       said := if call.Body? && !s.w.closed then s.said + call.data else s.said,
       stated := if call.Status? && !s.w.closed then call.code else s.stated)
  }

  predicate HandlerRuns(s: Sys) { s.pc.Handling? || s.pc.Done? }

  function RequestStep(c: Config, s: Sys, e: Event): Sys {
    match e
    case Arrive(n) => if s.pc.Uploading? && s.received + n <= c.length then s.(received := s.received + n) else s
    case UploadDone =>
      if s.pc.Uploading? && s.received == c.length
      then s.(pc := if c.verdict(c.length) == SaysStream then Rearming else Disarming(false)) else s
    case UploadCut => if s.pc.Uploading? then s.(pc := Disarming(true), cut := true) else s
    case Disarm =>
      if !s.pc.Disarming? then s
      else if Preflushed(s.w.phase) then s.(pc := if s.pc.failed then MarkingCut else Rearming)
      else s.(w := Disarmed(s.w), timer := None, pc := Bypassed)
    case MarkCut =>
      if s.pc.MarkingCut? then s.(w := s.w.(upload := Cut(s.received, c.length)), pc := Returning) else s
    case Rearm =>
      if !s.pc.Rearming? then s
      else if s.w.closed || Preflushed(s.w.phase) then s.(pc := Handling)
      else s.(sniff := false, timer := Some(if c.delay <= s.now then s.now else c.delay), pc := Handling)
    case Return =>
      if s.pc.Handling? || s.pc.Returning?
      then s.(w := s.w.(closed := true), timer := None, stop := true, pc := Joining) else s
    case Join => if s.pc.Joining? && (s.beat.NoBeat? || s.beat.Exited?) then s.(pc := Reporting) else s
    case Report(hungUp) =>
      if s.pc.Reporting? then s.(w := Finish(c.voice, s.w, hungUp), pc := Done(hungUp)) else s
    case _ => s
  }

  function HandlerStep(s: Sys, e: Event): Sys {
    if !HandlerRuns(s) then s
    else match e
      case Edit(h) => s.(w := s.w.(shadow := h))
      case SayStatus(code) => Spoken(s, Status(code, s.w.shadow)).(w := WriteHeader(s.w, code), timer := None)
      case SayBytes(b) => Spoken(s, Body(b, s.w.shadow)).(w := Write(s.w, b), timer := None)
      case SayFlush =>
        Spoken(s, Flush(s.w.shadow)).(w := FlushOut(s.w), timer := if Preflushed(s.w.phase) then s.timer else None)
      case _ => s
  }

  function TimerStep(c: Config, s: Sys, e: Event): Sys {
    match e
    case Expire => if s.timer.Some? && s.timer.value <= s.now then s.(timer := None, firing := s.firing + 1) else s
    case Fire =>
      if s.firing == 0 then s
      else
        var w := FlushNow(s.w, if s.sniff then c.verdict(s.received) else SaysStream);
        s.(firing := s.firing - 1, w := w, beat := if w.phase != s.w.phase then Spawned else s.beat)
    case _ => s
  }

  // A ticker drops the ticks nobody is waiting for.
  function NextTick(c: Config, s: Sys): nat
    requires c.beat > 0 && s.beatStart <= s.now
  {
    s.beatStart + ((s.now - s.beatStart) / c.beat + 1) * c.beat
  }

  function BeatStep(c: Config, s: Sys, e: Event): Sys {
    match e
    case BeatStart => if s.beat.Spawned? then s.(readAt := s.now, beat := Arming) else s
    case BeatArm => if s.beat.Arming? then s.(beatStart := s.now, beat := Waiting(s.now + c.beat)) else s
    case BeatTick =>
      if s.beat.Waiting? && s.beat.next <= s.now && c.beat > 0 && s.beatStart <= s.now
      then s.(beat := Ticked(NextTick(c, s))) else s
    case BeatStop => if s.beat.Waiting? && s.stop then s.(beat := Exited) else s
    case BeatLock =>
      if !s.beat.Ticked? then s
      else
        var isLate := s.now > s.readAt + c.maxSilence;
        var t := s.(w := Heartbeat(c.voice, s.w, isLate));
        if s.w.closed || s.w.phase != Covering then t.(beat := Exited)
        else if isLate then t.(beat := Notifying)
        else t.(beat := Waiting(s.beat.next), beats := s.beats + 1)
    case BeatNotify => if s.beat.Notifying? then s.(w := Tell(s.w, TimedOut), beat := Exited) else s
    case _ => s
  }

  function Act(c: Config, s: Sys, e: Event): Sys {
    match e
    case Pass(d) => s.(now := s.now + d)
    case Edit(_) => HandlerStep(s, e)
    case SayStatus(_) => HandlerStep(s, e)
    case SayBytes(_) => HandlerStep(s, e)
    case SayFlush => HandlerStep(s, e)
    case Expire => TimerStep(c, s, e)
    case Fire => TimerStep(c, s, e)
    case BeatStart => BeatStep(c, s, e)
    case BeatArm => BeatStep(c, s, e)
    case BeatTick => BeatStep(c, s, e)
    case BeatStop => BeatStep(c, s, e)
    case BeatLock => BeatStep(c, s, e)
    case BeatNotify => BeatStep(c, s, e)
    case _ => RequestStep(c, s, e)
  }

  function Next(c: Config, s: Sys, e: Event): Sys {
    var t := Act(c, s, e);
    if t.w.sent == s.w.sent then t else t.(lastWrite := t.now)
  }

  function Stepper(c: Config): (Sys, Event) -> Sys { (s, e) => Next(c, s, e) }

  function RunFrom(c: Config, s: Sys, es: seq<Event>): Sys { Fold(Stepper(c), s, es) }

  function Run(c: Config, es: seq<Event>): Sys { RunFrom(c, Start(c), es) }

  // ---------- who is where ----------

  predicate BeforeHandler(pc: Pc) { pc.Uploading? || pc.Disarming? || pc.MarkingCut? || pc.Returning? || pc.Rearming? }

  predicate Finishing(pc: Pc) { pc.Joining? || pc.Reporting? || pc.Done? }

  ghost predicate Places(c: Config, s: Sys) {
    && s.w.closed == (Finishing(s.pc) || s.pc.Bypassed?)
    && s.stop == Finishing(s.pc)
    && s.received <= c.length
    && (BeforeHandler(s.pc) || s.pc.Bypassed? ==> s.made == [])
    && (s.made == [] ==> s.said == [])
    && ((s.pc.MarkingCut? || s.pc.Returning?) ==> Preflushed(s.w.phase))
    && (BeforeHandler(s.pc) ==> s.w.phase == Untouched || s.w.phase == Covering || s.w.phase == Ended)
    && (s.pc.Bypassed? ==> s.w.phase == Untouched)
    && s.beat.NoBeat? == !Preflushed(s.w.phase)
    && ((s.pc.Reporting? || s.pc.Done?) ==> s.beat.NoBeat? || s.beat.Exited?)
    && (s.beat.Notifying? ==> s.w.phase == Ended)
    && (s.w.closed ==> s.timer.None?)
    && s.beatStart <= s.now
  }

  lemma PlacesKeptByRequest(c: Config, s: Sys, e: Event)
    requires Places(c, s)
    ensures Places(c, RequestStep(c, s, e))
  {
  }

  lemma PlacesKeptByHandler(c: Config, s: Sys, e: Event)
    requires Places(c, s)
    ensures Places(c, HandlerStep(s, e))
  {
  }

  lemma PlacesKeptByTimer(c: Config, s: Sys, e: Event)
    requires Places(c, s)
    ensures Places(c, TimerStep(c, s, e))
  {
  }

  lemma PlacesKeptByBeat(c: Config, s: Sys, e: Event)
    requires Places(c, s)
    ensures Places(c, BeatStep(c, s, e))
  {
  }

  lemma PlacesKept(c: Config, s: Sys, e: Event)
    requires Places(c, s)
    ensures Places(c, Next(c, s, e))
  {
    PlacesKeptByRequest(c, s, e);
    PlacesKeptByHandler(c, s, e);
    PlacesKeptByTimer(c, s, e);
    PlacesKeptByBeat(c, s, e);
    assert Places(c, Act(c, s, e));
  }

  // ---------- what is on the wire ----------

  function Under(calls: seq<Call>, h: Headers): seq<Call> {
    if calls == [] then [] else Under(calls[..|calls| - 1], h) + [calls[|calls| - 1].(header := h)]
  }

  function Head(b: bytes): bytes { if |b| <= MAX_CAPTURE then b else b[..MAX_CAPTURE] }

  // A committed stream: the preamble, no second status, n keep-alives, a tail.
  ghost predicate Stream(c: Config, w: State, n: nat, tail: bytes) {
    && w.header == WithPreamble(c.entry)
    && |w.sent| > 1 && w.sent[0] == Status(200, w.header) && w.sent[1] == Flush(w.header)
    && (forall i :: 1 <= i < |w.sent| ==> !w.sent[i].Status?)
    && BodyBytes(w.sent) == Repeat(c.voice.keepAlive, n) + tail
  }

  // A request nobody interfered with: the handler's calls, one for one.
  ghost predicate Plain(c: Config, w: State, made: seq<Call>) {
    && (w.phase == Untouched ==> made == [] && w.header == c.entry)
    && (w.phase == Forwarding ==> made != [] && w.header == made[0].header)
    && w.sent == Under(made, w.header)
  }

  // What follows the keep-alives, state by state: `said` are the bytes the
  // handler wrote before finish, `framed` that finish found a client to tell.
  function Tail(c: Config, w: State, said: bytes, framed: bool): bytes {
    match w.phase
    case Streamed => said
    case Ended => c.voice.frame(504, [])
    case Concluded => []
    case _ => if framed then c.voice.frame(w.intended, Head(said)) else []
  }

  ghost predicate OnWire(c: Config, w: State, made: seq<Call>, said: bytes, n: nat, framed: bool) {
    && (!Preflushed(w.phase) ==> Plain(c, w, made) && n == 0)
    && (Preflushed(w.phase) ==> Stream(c, w, n, Tail(c, w, said, framed)))
    && (w.phase == Covering || w.phase == Concluded ==> said == [])
    && w.captured == (if w.phase == Translating then Head(said) else [])
    && (w.phase == Untouched || (w.phase == Covering && !framed) ==> w.intended == 0)
    && (w.phase == Ended ==> w.intended == 504)
    && (framed ==> w.closed && (OwesFrame(w) ==> w.intended != 0))
  }

  predicate Framed(pc: Pc) { pc.Done? && !pc.hungUp }

  ghost predicate Wire(c: Config, s: Sys) {
    OnWire(c, s.w, s.made, s.said, s.beats, Framed(s.pc))
  }

  lemma StreamPushed(c: Config, w: State, n: nat, tail: bytes, b: bytes)
    requires Stream(c, w, n, tail)
    ensures Stream(c, Push(w, b), n, tail + b)
  {
    assert Push(w, b).sent == (w.sent + [Body(b, w.header)]) + [Flush(w.header)];
    BodyBytesSnoc(w.sent, Body(b, w.header));
    BodyBytesSnoc(w.sent + [Body(b, w.header)], Flush(w.header));
  }

  lemma StreamBeats(c: Config, w: State, n: nat)
    requires Stream(c, w, n, [])
    ensures Stream(c, Push(w, c.voice.keepAlive), n + 1, [])
  {
    StreamPushed(c, w, n, [], c.voice.keepAlive);
    RepeatGrowsAtEnd(c.voice.keepAlive, n);
  }

  lemma StreamCalled(c: Config, w: State, n: nat, tail: bytes, call: Call)
    requires Stream(c, w, n, tail) && !call.Status?
    ensures Stream(c, w.(sent := w.sent + [call]), n, tail + if call.Body? then call.data else [])
  {
    BodyBytesSnoc(w.sent, call);
  }

  lemma StreamStarts(c: Config, w: State, v: Verdict)
    requires w.phase == Untouched && !w.closed && w.header == c.entry && w.sent == [] && v != SaysJson
    ensures Stream(c, FlushNow(w, v), 0, [])
  {
    var h := WithPreamble(c.entry);
    assert FlushNow(w, v).sent == ([] + [Status(200, h)]) + [Flush(h)];
    BodyBytesSnoc([], Status(200, h));
    BodyBytesSnoc([] + [Status(200, h)], Flush(h));
  }

  lemma OnWireReported(c: Config, w: State, made: seq<Call>, said: bytes, n: nat, hungUp: bool)
    requires OnWire(c, w, made, said, n, false) && w.closed
    ensures OnWire(c, Finish(c.voice, w, hungUp), made, said, n, !hungUp)
  {
    var t := Finish(c.voice, w, hungUp);
    if OwesFrame(w) && !hungUp {
      var frame := c.voice.frame(FinalStatus(w), w.captured);
      StreamPushed(c, w, n, [], frame);
      assert [] + frame == frame && w.captured == Head(said);
      assert t.intended == FinalStatus(w) && t.phase == w.phase && t.captured == w.captured && t.closed;
      StreamStays(c, Push(w, frame), t, n, frame);
    } else {
      assert t == w;
    }
  }

  // All but the end of finish leaves the wire alone.
  lemma RequestFrame(c: Config, s: Sys, e: Event)
    requires !(e.Report? && s.pc.Reporting?)
    ensures var t := RequestStep(c, s, e);
      && t == s.(w := t.w, pc := t.pc, cut := t.cut, sniff := t.sniff, stop := t.stop, timer := t.timer, received := t.received)
      && t.w == s.w.(closed := t.w.closed, upload := t.w.upload) && (s.w.closed ==> t.w.closed)
      && Framed(t.pc) == Framed(s.pc)
  {
  }

  lemma OnWireClosed(c: Config, w: State, t: State, made: seq<Call>, said: bytes, n: nat, framed: bool)
    requires OnWire(c, w, made, said, n, framed)
    requires t == w.(closed := t.closed, upload := t.upload) && (w.closed ==> t.closed)
    ensures OnWire(c, t, made, said, n, framed)
  {
    if Preflushed(w.phase) {
      StreamStays(c, w, t, n, Tail(c, w, said, framed));
    }
  }

  lemma WireKeptByRequest(c: Config, s: Sys, e: Event)
    requires Places(c, s) && Wire(c, s)
    ensures Wire(c, RequestStep(c, s, e))
  {
    if e.Report? && s.pc.Reporting? {
      OnWireReported(c, s.w, s.made, s.said, s.beats, e.hungUp);
    } else {
      RequestFrame(c, s, e);
      OnWireClosed(c, s.w, RequestStep(c, s, e).w, s.made, s.said, s.beats, Framed(s.pc));
    }
  }

  lemma OnWireFlushNow(c: Config, w: State, made: seq<Call>, said: bytes, n: nat, v: Verdict)
    requires OnWire(c, w, made, said, n, false) && (made == [] ==> said == [])
    ensures OnWire(c, FlushNow(w, v), made, said, n, false)
  {
    if w.phase == Untouched && !w.closed && v != SaysJson {
      StreamStarts(c, w, v);
    }
  }

  lemma WireKeptByTimer(c: Config, s: Sys, e: Event)
    requires Places(c, s) && Wire(c, s)
    ensures Wire(c, TimerStep(c, s, e))
  {
    if e.Fire? && s.firing > 0 && !s.w.closed {
      OnWireFlushNow(c, s.w, s.made, s.said, s.beats,
                     if s.sniff then c.verdict(s.received) else SaysStream);
    }
  }

  lemma OnWireBeat(c: Config, w: State, made: seq<Call>, said: bytes, n: nat, isLate: bool)
    requires OnWire(c, w, made, said, n, false) && w.phase == Covering && !w.closed
    ensures OnWire(c, Heartbeat(c.voice, w, isLate), made, said, if isLate then n else n + 1, false)
  {
    if isLate {
      StreamPushed(c, w, n, [], c.voice.frame(504, []));
    } else {
      StreamBeats(c, w, n);
    }
  }

  lemma WireKeptByBeatLock(c: Config, s: Sys)
    requires Places(c, s) && Wire(c, s) && s.beat.Ticked? && s.w.phase == Covering && !s.w.closed
    ensures Wire(c, BeatStep(c, s, BeatLock))
  {
    OnWireBeat(c, s.w, s.made, s.said, s.beats, s.now > s.readAt + c.maxSilence);
  }

  lemma WireKeptByBeat(c: Config, s: Sys, e: Event)
    requires Places(c, s) && Wire(c, s)
    ensures Wire(c, BeatStep(c, s, e))
  {
    if e.BeatLock? && s.beat.Ticked? && s.w.phase == Covering && !s.w.closed {
      WireKeptByBeatLock(c, s);
    }
  }

  lemma UnderSnoc(calls: seq<Call>, call: Call, h: Headers)
    ensures Under(calls + [call], h) == Under(calls, h) + [call.(header := h)]
  {
    assert (calls + [call])[..|calls|] == calls;
  }

  // One more handler call on a request the wrapper has not touched.
  lemma PlainCalled(c: Config, w: State, made: seq<Call>, call: Call)
    requires Plain(c, w, made) && !Preflushed(w.phase) && call.header == w.shadow
    ensures var t := Speak(w); Plain(c, t.(sent := t.sent + [call.(header := t.header)]), made + [call])
  {
    UnderSnoc(made, call, Speak(w).header);
    assert w.phase == Untouched ==> (made + [call])[0] == call;
  }

  lemma StreamStays(c: Config, w: State, t: State, n: nat, tail: bytes)
    requires Stream(c, w, n, tail) && t.sent == w.sent && t.header == w.header
    ensures Stream(c, t, n, tail)
  {
  }

  lemma StatusAfterPreamble(c: Config, w: State, said: bytes, framed: bool, code: int)
    requires Preflushed(w.phase) && (w.phase == Covering || w.phase == Concluded ==> said == [])
    requires framed ==> w.closed
    ensures var t := WriteHeader(w, code);
      && t.sent == w.sent && t.header == w.header && t.captured == w.captured && t.closed == w.closed
      && Preflushed(t.phase) && (t.phase == Translating && w.phase != Translating ==> said == [])
      && Tail(c, t, said, framed) == Tail(c, w, said, framed)
  {
  }

  lemma OnWireStatus(c: Config, w: State, made: seq<Call>, said: bytes, n: nat, framed: bool, code: int)
    requires OnWire(c, w, made, said, n, framed)
    ensures OnWire(c, WriteHeader(w, code), made + [Status(code, w.shadow)], said, n, framed)
  {
    if !Preflushed(w.phase) {
      PlainCalled(c, w, made, Status(code, w.shadow));
    } else {
      StatusAfterPreamble(c, w, said, framed, code);
      StreamStays(c, w, WriteHeader(w, code), n, Tail(c, w, said, framed));
    }
  }

  lemma HeadGrows(w: State, said: bytes, b: bytes)
    requires w.captured == Head(said)
    ensures w.captured + Room(w, b) == Head(said + b)
  {
  }

  lemma OnWireCaptured(c: Config, w: State, made: seq<Call>, said: bytes, n: nat, b: bytes)
    requires OnWire(c, w, made, said, n, false) && w.phase == Translating && !w.closed
    ensures OnWire(c, Write(w, b), made + [Body(b, w.shadow)], said + b, n, false)
  {
    HeadGrows(w, said, b);
  }

  lemma OnWireStreamed(c: Config, w: State, made: seq<Call>, said: bytes, n: nat, b: bytes)
    requires OnWire(c, w, made, said, n, false) && !w.closed
    requires w.phase == Covering || w.phase == Concluded || w.phase == Streamed
    ensures OnWire(c, Write(w, b), made + [Body(b, w.shadow)], said + b, n, false)
  {
    StreamCalled(c, w, n, said, Body(b, w.header));
  }

  lemma OnWireBytes(c: Config, w: State, made: seq<Call>, said: bytes, n: nat, framed: bool, b: bytes)
    requires OnWire(c, w, made, said, n, framed)
    ensures OnWire(c, Write(w, b), made + [Body(b, w.shadow)], if w.closed then said else said + b, n, framed)
  {
    if !Preflushed(w.phase) {
      PlainCalled(c, w, made, Body(b, w.shadow));
    } else if w.closed || w.phase == Ended {
    } else if w.phase == Translating {
      OnWireCaptured(c, w, made, said, n, b);
    } else {
      OnWireStreamed(c, w, made, said, n, b);
    }
  }

  lemma FlushAfterPreamble(c: Config, w: State, said: bytes, framed: bool)
    requires Preflushed(w.phase) && (w.phase == Covering || w.phase == Concluded ==> said == [])
    requires framed ==> w.closed
    ensures var t := FlushOut(w);
      && (t.sent == w.sent || t.sent == w.sent + [Flush(w.header)])
      && t.header == w.header && t.captured == w.captured && t.closed == w.closed && t.intended == w.intended
      && Preflushed(t.phase) && (t.phase == w.phase || (w.phase == Covering && t.phase == Concluded && !w.closed))
      && Tail(c, t, said, framed) == Tail(c, w, said, framed)
  {
  }

  lemma OnWireFlush(c: Config, w: State, made: seq<Call>, said: bytes, n: nat, framed: bool)
    requires OnWire(c, w, made, said, n, framed)
    ensures OnWire(c, FlushOut(w), made + [Flush(w.shadow)], said, n, framed)
  {
    if !Preflushed(w.phase) {
      PlainCalled(c, w, made, Flush(w.shadow));
    } else {
      FlushAfterPreamble(c, w, said, framed);
      var tail := Tail(c, w, said, framed);
      assert tail + [] == tail;
      StreamCalled(c, w, n, tail, Flush(w.header));
      StreamStays(c, if FlushOut(w).sent == w.sent then w else w.(sent := w.sent + [Flush(w.header)]), FlushOut(w), n, tail);
    }
  }

  lemma WireKeptByStatus(c: Config, s: Sys, code: int)
    requires Places(c, s) && Wire(c, s) && HandlerRuns(s)
    ensures Wire(c, HandlerStep(s, SayStatus(code)))
  {
    OnWireStatus(c, s.w, s.made, s.said, s.beats, Framed(s.pc), code);
  }

  lemma WireKeptByBytes(c: Config, s: Sys, b: bytes)
    requires Places(c, s) && Wire(c, s) && HandlerRuns(s)
    ensures Wire(c, HandlerStep(s, SayBytes(b)))
  {
    OnWireBytes(c, s.w, s.made, s.said, s.beats, Framed(s.pc), b);
  }

  lemma WireKeptByFlush(c: Config, s: Sys)
    requires Places(c, s) && Wire(c, s) && HandlerRuns(s)
    ensures Wire(c, HandlerStep(s, SayFlush))
  {
    OnWireFlush(c, s.w, s.made, s.said, s.beats, Framed(s.pc));
    var t := HandlerStep(s, SayFlush);
    assert t.w == FlushOut(s.w) && t.made == s.made + [Flush(s.w.shadow)];
    assert t.said == s.said && t.pc == s.pc && t.beats == s.beats;
  }

  lemma WireKeptByEdit(c: Config, s: Sys, h: Headers)
    requires Wire(c, s) && HandlerRuns(s)
    ensures Wire(c, HandlerStep(s, Edit(h)))
  {
    var t := HandlerStep(s, Edit(h));
    if Preflushed(s.w.phase) {
      StreamStays(c, s.w, t.w, s.beats, Tail(c, s.w, s.said, Framed(s.pc)));
    }
  }

  lemma WireKeptByHandler(c: Config, s: Sys, e: Event)
    requires Places(c, s) && Wire(c, s)
    ensures Wire(c, HandlerStep(s, e))
  {
    if HandlerRuns(s) {
      match e
      case SayStatus(code) => WireKeptByStatus(c, s, code);
      case SayBytes(b) => WireKeptByBytes(c, s, b);
      case SayFlush => WireKeptByFlush(c, s);
      case Edit(h) => WireKeptByEdit(c, s, h);
      case _ => assert HandlerStep(s, e) == s;
    } else {
      assert HandlerStep(s, e) == s;
    }
  }

  predicate ByTimer(e: Event) { e.Expire? || e.Fire? }

  predicate ByBeat(e: Event) { e.BeatStart? || e.BeatArm? || e.BeatTick? || e.BeatStop? || e.BeatLock? || e.BeatNotify? }

  // Whose step it is.
  lemma WhoseStep(c: Config, s: Sys, e: Event)
    ensures Act(c, s, e) ==
      if e.Pass? then s.(now := s.now + e.d)
      else if ByHandler(e) then HandlerStep(s, e)
      else if ByTimer(e) then TimerStep(c, s, e)
      else if ByBeat(e) then BeatStep(c, s, e)
      else RequestStep(c, s, e)
  {
  }

  // The heartbeat touches its own variables, and the wrapper in two ways.
  lemma BeatFrame(c: Config, s: Sys, e: Event)
    ensures var t := BeatStep(c, s, e);
      && t == s.(w := t.w, beat := t.beat, readAt := t.readAt, beatStart := t.beatStart, beats := t.beats)
      && (t.w == s.w || t.w == Heartbeat(c.voice, s.w, s.now > s.readAt + c.maxSilence) || t.w == Tell(s.w, TimedOut))
  {
  }

  // What a step does is one of these.
  lemma OneStep(c: Config, s: Sys, e: Event)
    ensures Act(c, s, e) in
      {s.(now := Act(c, s, e).now), RequestStep(c, s, e), HandlerStep(s, e), TimerStep(c, s, e), BeatStep(c, s, e)}
  {
  }

  lemma WireKept(c: Config, s: Sys, e: Event)
    requires Places(c, s) && Wire(c, s)
    ensures Wire(c, Next(c, s, e))
  {
    OneStep(c, s, e);
    WireKeptByRequest(c, s, e);
    WireKeptByHandler(c, s, e);
    WireKeptByTimer(c, s, e);
    WireKeptByBeat(c, s, e);
  }

  // ---------- what gets recorded ----------

  predicate IsEnding(n: Note) { n.Translated? || n.TimedOut? || n.UploadCut? }

  function Endings(notes: seq<Note>): seq<Note> {
    if notes == [] then []
    else
      var n := |notes| - 1;
      Endings(notes[..n]) + if IsEnding(notes[n]) then [notes[n]] else []
  }

  lemma EndingsSnoc(notes: seq<Note>, n: Note)
    ensures Endings(notes + [n]) == Endings(notes) + if IsEnding(n) then [n] else []
  {
    assert (notes + [n])[..|notes|] == notes;
  }

  // Each error event of the wrapper's own is recorded once, as what it was.
  function OwedEndings(w: State, exited: bool, framed: bool): seq<Note> {
    if w.phase == Ended then (if exited then [TimedOut] else [])
    else if OwesFrame(w) && framed then [ClosingNote(w)]
    else []
  }

  ghost predicate Told(s: Sys) {
    && Endings(s.w.notes) == OwedEndings(s.w, s.beat.Exited?, Framed(s.pc))
    && (s.w.phase == Ended ==> s.beat.Notifying? || s.beat.Exited?)
  }

  lemma FinishNotes(w: State, v: Voice)
    requires OwesFrame(w)
    ensures var t := Finish(v, w, false);
      t.notes == w.notes + [ClosingNote(w)] && t.phase == w.phase && ClosingNote(t) == ClosingNote(w)
  {
  }

  lemma FirstEnding(notes: seq<Note>, n: Note)
    requires Endings(notes) == [] && IsEnding(n)
    ensures Endings(notes + [n]) == [n]
  {
    EndingsSnoc(notes, n);
  }

  // The frame finish sends is told as what it was.
  lemma FrameIsTold(w: State, v: Voice)
    requires OwesFrame(w) && Endings(w.notes) == []
    ensures var t := Finish(v, w, false); Endings(t.notes) == OwedEndings(t, true, true)
  {
    FinishNotes(w, v);
    FirstEnding(w.notes, ClosingNote(w));
  }

  lemma OwedByReport(w: State, v: Voice, hungUp: bool)
    requires Endings(w.notes) == OwedEndings(w, true, false)
    ensures var t := Finish(v, w, hungUp); Endings(t.notes) == OwedEndings(t, true, !hungUp)
  {
    if OwesFrame(w) && !hungUp {
      FrameIsTold(w, v);
    } else {
      assert Finish(v, w, hungUp) == w;
    }
  }

  lemma ToldKeptByReport(c: Config, s: Sys, hungUp: bool)
    requires Places(c, s) && Told(s) && s.pc.Reporting?
    ensures Told(RequestStep(c, s, Report(hungUp)))
  {
    var t := RequestStep(c, s, Report(hungUp));
    assert t == s.(w := Finish(c.voice, s.w, hungUp), pc := Done(hungUp));
    assert s.w.phase == Ended ==> s.beat.Exited?;
    var exited := s.beat.Exited?;
    EndedKnows(s.w, exited, false);
    OwedByReport(s.w, c.voice, hungUp);
    EndedKnows(t.w, exited, !hungUp);
  }

  // Only an ended stream asks whether the heartbeat is gone.
  lemma EndedKnows(w: State, exited: bool, framed: bool)
    requires w.phase == Ended ==> exited
    ensures OwedEndings(w, exited, framed) == OwedEndings(w, true, framed)
  {
  }

  lemma RequestKeepsNotes(c: Config, s: Sys, e: Event)
    requires !(e.Report? && s.pc.Reporting?)
    ensures var t := RequestStep(c, s, e);
      t.w.notes == s.w.notes && t.w.phase == s.w.phase && t.beat == s.beat
  {
    RequestFrame(c, s, e);
  }

  lemma ToldKeptByRequest(c: Config, s: Sys, e: Event)
    requires Places(c, s) && Told(s)
    ensures Told(RequestStep(c, s, e))
  {
    if e.Report? && s.pc.Reporting? {
      ToldKeptByReport(c, s, e.hungUp);
    } else {
      RequestKeepsNotes(c, s, e);
    }
  }

  lemma HandlerKeepsNotes(s: Sys, e: Event)
    ensures var t := HandlerStep(s, e);
      && t.w.notes == s.w.notes && t.beat == s.beat && t.pc == s.pc && t.w.upload == s.w.upload
      && (t.w.phase == Ended <==> s.w.phase == Ended)
      && (s.w.closed && Preflushed(s.w.phase) ==> t.w.phase == s.w.phase && t.w.intended == s.w.intended)
      && (!OwesFrame(s.w) && Preflushed(s.w.phase) && s.w.closed ==> !OwesFrame(t.w))
  {
  }

  lemma ToldKeptByHandler(c: Config, s: Sys, e: Event)
    requires Places(c, s) && Told(s)
    ensures Told(HandlerStep(s, e))
  {
    HandlerKeepsNotes(s, e);
  }

  lemma ToldKeptByTimer(c: Config, s: Sys, e: Event)
    requires Places(c, s) && Told(s)
    ensures Told(TimerStep(c, s, e))
  {
    EndingsSnoc(s.w.notes, Held);
    EndingsSnoc(s.w.notes, Flushed(if s.sniff then c.verdict(s.received) else SaysStream));
  }

  lemma ToldKeptByBeat(c: Config, s: Sys, e: Event)
    requires Places(c, s) && Told(s)
    ensures Told(BeatStep(c, s, e))
  {
    if e.BeatNotify? && s.beat.Notifying? {
      EndingsSnoc(s.w.notes, TimedOut);
      assert [] + [TimedOut] == [TimedOut];
    }
  }

  lemma ToldKept(c: Config, s: Sys, e: Event)
    requires Places(c, s) && Told(s)
    ensures Told(Next(c, s, e))
  {
    OneStep(c, s, e);
    var t := Act(c, s, e);
    if t == HandlerStep(s, e) {
      ToldKeptByHandler(c, s, e);
    } else if t == TimerStep(c, s, e) {
      ToldKeptByTimer(c, s, e);
    } else if t == BeatStep(c, s, e) {
      ToldKeptByBeat(c, s, e);
    } else if t == RequestStep(c, s, e) {
      ToldKeptByRequest(c, s, e);
    }
    assert Told(t);
  }

  ghost predicate Good(c: Config, s: Sys) { Places(c, s) && Wire(c, s) && Told(s) }

  lemma GoodKept(c: Config, s: Sys, e: Event)
    requires Good(c, s)
    ensures Good(c, Next(c, s, e))
  {
    PlacesKept(c, s, e);
    WireKept(c, s, e);
    ToldKept(c, s, e);
  }

  lemma {:induction false} GoodFrom(c: Config, s: Sys, es: seq<Event>)
    requires Good(c, s)
    ensures Good(c, RunFrom(c, s, es))
    decreases |es|
  {
    if es != [] {
      var n := |es| - 1;
      GoodFrom(c, s, es[..n]);
      GoodKept(c, RunFrom(c, s, es[..n]), es[n]);
    }
  }

  lemma EveryRun(c: Config, es: seq<Event>)
    ensures Good(c, Run(c, es))
  {
    GoodFrom(c, Start(c), es);
  }

  lemma RunGoesOn(c: Config, es: seq<Event>, more: seq<Event>)
    ensures Run(c, es + more) == RunFrom(c, Run(c, es), more)
  {
    FoldConcat(Stepper(c), Start(c), es, more);
  }
}
