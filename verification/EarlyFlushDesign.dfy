// A streaming request that has been silent too long gets an event-stream
// preamble ahead of its outcome. This is the design: the documented states, and
// what each locked section of the wrapper does to them.
module EarlyFlushDesign {
  import opened Bytes
  import opened Http
  import opened Redaction
  import Sse

  const MAX_CAPTURE := 0x1_0000

  datatype Verdict = Undecided | SaysStream | SaysJson

  datatype Note =
    | Flushed(verdict: Verdict)
    | Held
    | Translated(status: int)
    | TimedOut
    | UploadCut(received: nat, declared: nat)

  datatype Upload = Complete | Cut(received: nat, declared: nat)

  // How far a response has come. Which phase may follow which is proved, not
  // assumed: see Leads in EarlyFlushGuarantees.
  datatype Phase =
    | Untouched   // nothing has been sent
    | Forwarding  // the handler was first, and is passed through one for one
    | Covering    // the preamble went first, keep-alives fill the wait
    | Concluded   // preamble, then an outcome of the handler's without a body
    | Streamed    // preamble, then a body of the handler's
    | Translating // preamble, then a failure status: its body is collected
    | Ended       // preamble, then the watchdog's closing frame

  predicate Preflushed(ph: Phase) { ph != Untouched && ph != Forwarding }

  datatype State = State(
    phase: Phase,
    closed: bool,
    intended: int,
    captured: bytes,
    upload: Upload,
    shadow: Headers,     // what the handler sees and edits
    header: Headers,     // the real map
    sent: seq<Call>,     // calls on the writer underneath
    notes: seq<Note>)

  function Initial(entry: Headers): State {
    State(Untouched, false, 0, [], Complete, entry, entry, [], [])
  }

  const CACHE_CONTROL: bytes := "Cache-Control"
  const NO_CACHE: bytes := "no-cache"
  const CONNECTION: bytes := "Connection"
  const KEEP_OPEN: bytes := "keep-alive"
  const ACCEL_BUFFERING: bytes := "X-Accel-Buffering"
  const NO: bytes := "no"

  function WithPreamble(h: Headers): Headers {
    Set(Set(Set(Set(h, CONTENT_TYPE, EVENT_STREAM), CACHE_CONTROL, NO_CACHE), CONNECTION, KEEP_OPEN), ACCEL_BUFFERING, NO)
  }

  function Frame(p: Policy, status: int, body: bytes): bytes {
    Sse.ErrorFrame(ShownOnOneLine(p, status, body))
  }

  // The only bytes the wrapper writes of its own.
  datatype Voice = Voice(keepAlive: bytes, frame: (int, bytes) -> bytes)

  function VoiceOf(p: Policy): Voice { Voice(Sse.KEEP_ALIVE, (status, body) => Frame(p, status, body)) }

  // Hand bytes to the writer underneath and push them out.
  function Push(s: State, b: bytes): State {
    s.(sent := s.sent + [Body(b, s.header), Flush(s.header)])
  }

  function Tell(s: State, n: Note): State { s.(notes := s.notes + [n]) }

  // ---------- what each locked section does ----------

  function FlushNow(s: State, v: Verdict): State {
    if s.closed || s.phase != Untouched then s
    else if v == SaysJson then Tell(s, Held)
    else
      var h := WithPreamble(s.header);
      Tell(s.(phase := Covering, header := h, sent := s.sent + [Status(200, h), Flush(h)]), Flushed(v))
  }

  function Heartbeat(v: Voice, s: State, late: bool): State {
    if s.closed || s.phase != Covering then s
    else if late then Push(s.(phase := Ended, intended := 504), v.frame(504, []))
    else Push(s, v.keepAlive)
  }

  // The handler transmits first: its header map becomes the real one.
  function Speak(s: State): State {
    if s.phase == Untouched then s.(phase := Forwarding, header := s.shadow) else s
  }

  function WriteHeader(s: State, code: int): State {
    if !Preflushed(s.phase) then
      var t := Speak(s);
      t.(sent := t.sent + [Status(code, t.header)])
    else if s.closed || s.phase == Ended then s
    else if s.phase == Streamed || s.phase == Translating then s.(intended := code)
    else s.(intended := code, phase := if code >= 400 then Translating else Concluded)
  }

  function Room(s: State, b: bytes): bytes {
    if |s.captured| >= MAX_CAPTURE then []
    else if |b| <= MAX_CAPTURE - |s.captured| then b
    else b[..MAX_CAPTURE - |s.captured|]
  }

  function Write(s: State, b: bytes): State {
    if !Preflushed(s.phase) then
      var t := Speak(s);
      t.(sent := t.sent + [Body(b, t.header)])
    else if s.closed || s.phase == Ended then s
    else if s.phase == Translating then s.(captured := s.captured + Room(s, b))
    else s.(phase := Streamed, sent := s.sent + [Body(b, s.header)])
  }

  function FlushOut(s: State): State {
    if !Preflushed(s.phase) then
      var t := Speak(s);
      t.(sent := t.sent + [Flush(t.header)])
    else if s.closed || s.phase == Ended || s.phase == Translating then s
    else s.(phase := if s.phase == Covering then Concluded else s.phase, sent := s.sent + [Flush(s.header)])
  }

  function Disarmed(s: State): State {
    if Preflushed(s.phase) then s else s.(closed := true)
  }

  // The wrapper owes the client a closing event exactly when the preamble is
  // out and the handler neither streamed nor concluded.
  predicate OwesFrame(s: State) { s.phase == Covering || s.phase == Translating }

  function FinalStatus(s: State): int { if s.intended == 0 then 502 else s.intended }

  // A failed upload is filed as itself, whatever status it was given.
  function ClosingNote(s: State): Note {
    if s.upload.Cut? then UploadCut(s.upload.received, s.upload.declared) else Translated(FinalStatus(s))
  }

  function Finish(v: Voice, s: State, hungUp: bool): State {
    if !OwesFrame(s) || hungUp then s
    else
      Tell(Push(s.(intended := FinalStatus(s)), v.frame(FinalStatus(s), s.captured)), ClosingNote(s))
  }

  // What the journal files the request under.
  function Reported(s: State, wire: int): int { if s.intended != 0 then s.intended else wire }
}
