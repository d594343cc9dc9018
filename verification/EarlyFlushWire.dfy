// Every call on the writer underneath of a request that got the preamble, from
// the number of keep-alives and the handler's calls.
module EarlyFlushWire {
  import opened Bytes
  import opened Http
  import opened EarlyFlushDesign
  import opened EarlyFlushRuns
  import opened EarlyFlushOutcome
  import opened Runs

  // The preamble and n keep-alives, each pushed out.
  function Opening(v: Voice, n: nat, h: Headers): seq<Call> {
    if n == 0 then [Status(200, h), Flush(h)] else Opening(v, n - 1, h) + [Body(v.keepAlive, h), Flush(h)]
  }

  function Relay(call: Call, h: Headers): seq<Call> {
    match call
    case Status(_, _) => []
    case Body(data, _) => [Body(data, h)]
    case Flush(_) => [Flush(h)]
  }

  // The bodies and flushes before a failure, with the real header map.
  function Relayed(calls: seq<Call>, h: Headers): seq<Call> {
    if calls == [] then []
    else
      var before, last := calls[..|calls| - 1], calls[|calls| - 1];
      Relayed(before, h) + if FailsFirst(before) then [] else Relay(last, h)
  }

  lemma RelayedSnoc(calls: seq<Call>, call: Call, h: Headers)
    ensures Relayed(calls + [call], h) == Relayed(calls, h) + if FailsFirst(calls) then [] else Relay(call, h)
  {
    assert (calls + [call])[..|calls|] == calls;
  }

  // The real header map says that it is an event stream which nobody is to keep
  // or hold back, and otherwise what it said before.
  lemma PreambleSays(h: Headers)
    ensures var h' := WithPreamble(h);
      && Get(h', "Content-Type") == "text/event-stream" && Get(h', "Cache-Control") == "no-cache"
      && Get(h', "Connection") == "keep-alive" && Get(h', "X-Accel-Buffering") == "no"
      && forall name: bytes ::
           name !in {"Content-Type", "Cache-Control", "Connection", "X-Accel-Buffering"} ==> Get(h', name) == Get(h, name)
  {
    assert |CONTENT_TYPE| == 12 && |CACHE_CONTROL| == 13 && |CONNECTION| == 10 && |ACCEL_BUFFERING| == 17;
  }

  // The wrapper's own error event, if it sent one.
  function Closing(v: Voice, w: State, said: bytes, framed: bool): seq<Call> {
    if w.phase == Ended then [Body(v.frame(504, []), w.header), Flush(w.header)]
    else if OwesFrame(w) && framed then [Body(v.frame(w.intended, Head(said)), w.header), Flush(w.header)]
    else []
  }

  ghost predicate Exact(v: Voice, w: State, heard: seq<Call>, said: bytes, n: nat, framed: bool) {
    w.sent == Opening(v, n, w.header) + Relayed(heard, w.header) + Closing(v, w, said, framed)
  }

  ghost predicate OnTheWire(c: Config, s: Sys) {
    Preflushed(s.w.phase) ==> Exact(c.voice, s.w, s.heard, s.said, s.beats, Framed(s.pc))
  }

  // Three parts, of which one grows.
  lemma Grows<T>(a: seq<T>, b: seq<T>, more: seq<T>)
    ensures a + b + [] == a + b && a + [] + more == a + more
    ensures (a + b + []) + more == a + (b + more) + [] == a + b + more
  {
  }

  lemma ExactByStatus(v: Voice, w: State, heard: seq<Call>, said: bytes, n: nat, framed: bool, code: int)
    requires Preflushed(w.phase) && !w.closed && w.phase != Ended && !framed && Exact(v, w, heard, said, n, framed)
    ensures Exact(v, WriteHeader(w, code), heard + [Status(code, w.shadow)], said, n, framed)
  {
    RelayedSnoc(heard, Status(code, w.shadow), w.header);
    Grows(Opening(v, n, w.header), Relayed(heard, w.header), []);
  }

  lemma ExactByBody(v: Voice, w: State, heard: seq<Call>, said: bytes, n: nat, framed: bool, b: bytes)
    requires Preflushed(w.phase) && !w.closed && w.phase != Ended && !framed && Exact(v, w, heard, said, n, framed)
    requires w.phase == Translating <==> FailsFirst(heard)
    ensures Exact(v, Write(w, b), heard + [Body(b, w.shadow)], said + b, n, framed)
  {
    RelayedSnoc(heard, Body(b, w.shadow), w.header);
    Grows(Opening(v, n, w.header), Relayed(heard, w.header), if w.phase == Translating then [] else [Body(b, w.header)]);
  }

  lemma ExactByFlush(v: Voice, w: State, heard: seq<Call>, said: bytes, n: nat, framed: bool)
    requires Preflushed(w.phase) && !w.closed && w.phase != Ended && !framed && Exact(v, w, heard, said, n, framed)
    requires w.phase == Translating <==> FailsFirst(heard)
    ensures Exact(v, FlushOut(w), heard + [Flush(w.shadow)], said, n, framed)
  {
    RelayedSnoc(heard, Flush(w.shadow), w.header);
    Grows(Opening(v, n, w.header), Relayed(heard, w.header), if w.phase == Translating then [] else [Flush(w.header)]);
  }

  // The handler is heard.
  ghost predicate Listens(c: Config, s: Sys) {
    && Places(c, s) && Heard(c, s) && OnTheWire(c, s) && HandlerRuns(s) && Preflushed(s.w.phase)
    && !s.w.closed && s.w.phase != Ended
  }

  lemma OnTheWireByStatus(c: Config, s: Sys, code: int)
    requires Listens(c, s)
    ensures OnTheWire(c, HandlerStep(s, SayStatus(code)))
  {
    ExactByStatus(c.voice, s.w, s.heard, s.said, s.beats, Framed(s.pc), code);
  }

  lemma OnTheWireByBody(c: Config, s: Sys, b: bytes)
    requires Listens(c, s)
    ensures OnTheWire(c, HandlerStep(s, SayBytes(b)))
  {
    ExactByBody(c.voice, s.w, s.heard, s.said, s.beats, Framed(s.pc), b);
  }

  lemma OnTheWireByFlush(c: Config, s: Sys)
    requires Listens(c, s)
    ensures OnTheWire(c, HandlerStep(s, SayFlush))
  {
    ExactByFlush(c.voice, s.w, s.heard, s.said, s.beats, Framed(s.pc));
  }

  lemma OnTheWireByOthers(c: Config, s: Sys, e: Event)
    requires OnTheWire(c, s) && !e.SayStatus? && !e.SayBytes? && !e.SayFlush?
    ensures OnTheWire(c, HandlerStep(s, e))
  {
  }

  // What comes too late changes nothing on the wire.
  lemma TooLateToMatter(c: Config, s: Sys, e: Event)
    requires s.w.closed || s.w.phase == Ended
    requires Preflushed(s.w.phase)
    ensures var t := HandlerStep(s, e);
      && t.w == s.w.(shadow := t.w.shadow) && t.heard == s.heard && t.beats == s.beats && t.pc == s.pc
      && (s.w.closed ==> t.said == s.said)
  {
  }

  lemma OnTheWireByHandler(c: Config, s: Sys, e: Event)
    requires Places(c, s) && Heard(c, s) && OnTheWire(c, s)
    ensures OnTheWire(c, HandlerStep(s, e))
  {
    if !Preflushed(s.w.phase) {
      HandlerKeepsForwarding(s, e);
    } else if s.w.closed || s.w.phase == Ended {
      TooLateToMatter(c, s, e);
    } else if HandlerRuns(s) {
      match e
      case SayStatus(code) => OnTheWireByStatus(c, s, code);
      case SayBytes(b) => OnTheWireByBody(c, s, b);
      case SayFlush => OnTheWireByFlush(c, s);
      case _ => OnTheWireByOthers(c, s, e);
    }
  }

  lemma HandlerKeepsForwarding(s: Sys, e: Event)
    requires !Preflushed(s.w.phase)
    ensures !Preflushed(HandlerStep(s, e).w.phase)
  {
  }

  // What is captured of a failure is its first 64 KiB.
  lemma HeadIsTheStart(b: bytes)
    ensures Head(b) <= b && (|b| <= 0x1_0000 ==> Head(b) == b) && (|b| > 0x1_0000 ==> |Head(b)| == 0x1_0000)
  {
  }

  lemma ExactByFinish(v: Voice, w: State, heard: seq<Call>, said: bytes, n: nat, hungUp: bool)
    requires Exact(v, w, heard, said, n, false) && w.captured == (if w.phase == Translating then Head(said) else [])
    requires w.phase == Covering ==> said == []
    ensures Exact(v, Finish(v, w, hungUp), heard, said, n, !hungUp)
  {
    var t := Finish(v, w, hungUp);
    if OwesFrame(w) && !hungUp {
      Grows(Opening(v, n, w.header), Relayed(heard, w.header), Closing(v, t, said, true));
      assert t.sent == w.sent + Closing(v, t, said, true);
    }
  }

  lemma OnTheWireByRequest(c: Config, s: Sys, e: Event)
    requires Wire(c, s) && OnTheWire(c, s)
    ensures OnTheWire(c, RequestStep(c, s, e))
  {
    if e.Report? && s.pc.Reporting? {
      if Preflushed(s.w.phase) {
        ExactByFinish(c.voice, s.w, s.heard, s.said, s.beats, e.hungUp);
      }
    } else {
      RequestFrame(c, s, e);
    }
  }

  lemma OnTheWireByTimer(c: Config, s: Sys, e: Event)
    requires Places(c, s) && Wire(c, s) && Heard(c, s) && OnTheWire(c, s)
    ensures OnTheWire(c, TimerStep(c, s, e))
  {
  }

  lemma ExactByBeat(v: Voice, w: State, n: nat, late: bool)
    requires w.phase == Covering && !w.closed && Exact(v, w, [], [], n, false)
    ensures Exact(v, Heartbeat(v, w, late), [], [], if late then n else n + 1, false)
  {
    var opening, call := Opening(v, n, w.header), Body(if late then v.frame(504, []) else v.keepAlive, w.header);
    assert opening + [] + [] == opening;
    assert opening + [] + [call, Flush(w.header)] == opening + [call, Flush(w.header)];
    assert Heartbeat(v, w, late).sent == opening + [call, Flush(w.header)];
  }

  lemma OnTheWireByBeat(c: Config, s: Sys, e: Event)
    requires Places(c, s) && Heard(c, s) && OnTheWire(c, s)
    ensures OnTheWire(c, BeatStep(c, s, e))
  {
    if e.BeatLock? && s.beat.Ticked? && s.w.phase == Covering && !s.w.closed {
      ExactByBeat(c.voice, s.w, s.beats, s.now > s.readAt + c.maxSilence);
    }
  }

  lemma OnTheWireKept(c: Config, s: Sys, e: Event)
    requires Places(c, s) && Wire(c, s) && Heard(c, s) && OnTheWire(c, s)
    ensures OnTheWire(c, Next(c, s, e))
  {
    WhoseStep(c, s, e);
    if ByHandler(e) {
      OnTheWireByHandler(c, s, e);
    } else if ByTimer(e) {
      OnTheWireByTimer(c, s, e);
    } else if ByBeat(e) {
      OnTheWireByBeat(c, s, e);
    } else if !e.Pass? {
      OnTheWireByRequest(c, s, e);
    }
    assert OnTheWire(c, Act(c, s, e));
  }

  // In every run the writer underneath has been called exactly so: the preamble
  // and the keep-alives, each body and flush of the handler's before a failure
  // of its own, and the wrapper's error event if it sent one.
  lemma {:induction false} WireIsExactly(c: Config, es: seq<Event>)
    ensures OnTheWire(c, Run(c, es))
  {
    if es != [] {
      var n := |es| - 1;
      WireIsExactly(c, es[..n]);
      EveryRun(c, es[..n]);
      PhaseFollowsTheCalls(c, es[..n]);
      OnTheWireKept(c, Run(c, es[..n]), es[n]);
    }
  }
}
