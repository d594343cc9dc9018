// Server-sent events as a conforming client reads them: section 9.2.6 of the
// WHATWG HTML Living Standard, one byte at a time.
module Sse {
  import opened Bytes

  datatype Event = Event(kind: bytes, data: bytes, lastId: bytes)

  // `line` is the unfinished line, `cr` that the last line ended in a carriage
  // return (so a line feed coming next belongs to it).
  datatype Parser = Parser(line: bytes, cr: bool, data: bytes, kind: bytes, id: bytes, seen: seq<Event>)

  const START := Parser([], false, [], [], [], [])

  const BOM: bytes := ['\U{EF}', '\U{BB}', '\U{BF}']

  const KEEP_ALIVE: bytes := ": keep-alive\n\n"

  function ColonAt(s: bytes): (i: nat)
    ensures i <= |s|
    ensures i < |s| ==> s[i] == ':'
    ensures forall j :: 0 <= j < i ==> s[j] != ':'
  {
    if s == [] || s[0] == ':' then 0 else 1 + ColonAt(s[1..])
  }

  function Dispatch(p: Parser): Parser {
    if p.data == [] then p.(kind := [])
    else
      var kind: bytes := if p.kind == [] then "message" else p.kind;
      p.(data := [], kind := [], seen := p.seen + [Event(kind, p.data[..|p.data| - 1], p.id)])
  }

  function Field(p: Parser, name: bytes, value: bytes): Parser {
    if name == "event" then p.(kind := value)
    else if name == "data" then p.(data := p.data + value + ['\n'])
    else if name == "id" then (if '\0' in value then p else p.(id := value))
    else p // "retry" only changes the reconnection time; anything else is ignored
  }

  function NameOf(line: bytes): bytes { line[..ColonAt(line)] }

  // One space after the colon does not count.
  function ValueOf(line: bytes): bytes {
    var c := ColonAt(line);
    var after := if c < |line| then line[c + 1..] else [];
    if after != [] && after[0] == ' ' then after[1..] else after
  }

  function EndLine(p: Parser): Parser {
    var line, rest := p.line, p.(line := []);
    if line == [] then Dispatch(rest)
    else if line[0] == ':' then rest
    else Field(rest, NameOf(line), ValueOf(line))
  }

  function Feed(p: Parser, b: byte): Parser {
    if b == '\n' && p.cr then p.(cr := false)
    else if IsLineBreak(b) then EndLine(p).(cr := b == '\r')
    else p.(line := p.line + [b], cr := false)
  }

  function FeedAll(p: Parser, s: bytes): Parser
    decreases |s|
  {
    if s == [] then p else FeedAll(Feed(p, s[0]), s[1..])
  }

  // What a client gets out of a response body. An unfinished event at the end
  // of the stream is discarded, so only `seen` counts.
  function Parse(s: bytes): seq<Event> {
    FeedAll(START, if BOM <= s then s[3..] else s).seen
  }

  // The same without the rule that drops one leading byte order mark.
  function ParseInside(s: bytes): seq<Event> { FeedAll(START, s).seen }

  function ErrorFrame(line: bytes): bytes { "event: error\ndata: " + line + "\n\n" }

  // ---------- how the parser composes ----------

  lemma {:induction false} FeedAllConcat(p: Parser, a: bytes, b: bytes)
    ensures FeedAll(p, a + b) == FeedAll(FeedAll(p, a), b)
    decreases |a|
  {
    if a == [] {
      assert a + b == b;
    } else {
      assert (a + b)[0] == a[0] && (a + b)[1..] == a[1..] + b;
      FeedAllConcat(Feed(p, a[0]), a[1..], b);
    }
  }

  lemma {:induction false} FeedText(p: Parser, s: bytes)
    requires SingleLine(s) && !p.cr
    ensures FeedAll(p, s) == p.(line := p.line + s)
    decreases |s|
  {
    if s == [] {
      assert p.line + s == p.line;
    } else {
      FeedText(Feed(p, s[0]), s[1..]);
      assert p.line + [s[0]] + s[1..] == p.line + s;
    }
  }

  // A whole line at the start of a line, whichever way it is broken off.
  lemma FeedBrokenLine(p: Parser, l: bytes, b: byte, rest: bytes)
    requires SingleLine(l) && IsLineBreak(b) && !p.cr && p.line == []
    ensures FeedAll(p, l + [b] + rest) == FeedAll(EndLine(p.(line := l)).(cr := b == '\r'), rest)
  {
    assert l + [b] + rest == l + ([b] + rest);
    FeedAllConcat(p, l, [b] + rest);
    FeedText(p, l);
    assert p.line + l == l;
    assert ([b] + rest)[1..] == rest;
  }

  lemma FeedLine(p: Parser, s: bytes)
    requires SingleLine(s) && !p.cr && p.line == []
    ensures FeedAll(p, s + "\n") == EndLine(p.(line := s))
  {
    FeedBrokenLine(p, s, '\n', []);
    assert s + ['\n'] + [] == s + "\n";
    EndLineKeepsBreak(p.(line := s));
  }

  lemma EndLineKeepsBreak(p: Parser)
    ensures EndLine(p).cr == p.cr && EndLine(p).line == []
  {
  }

  // ---------- keep-alives are invisible ----------

  // A comment line and the blank line after it.
  ghost predicate IsComment(s: bytes) {
    |s| > 2 && s[0] == ':' && SingleLine(s[..|s| - 2]) && s[|s| - 2..] == "\n\n"
  }

  lemma CommentLeavesNoTrace(s: bytes)
    requires IsComment(s)
    ensures FeedAll(START, s) == START
  {
    var c := s[..|s| - 2];
    assert s == (c + "\n") + ([] + "\n");
    FeedAllConcat(START, c + "\n", [] + "\n");
    FeedLine(START, c);
    FeedLine(START, []);
  }

  lemma {:induction false} CommentsLeaveNoTrace(s: bytes, n: nat)
    requires IsComment(s)
    ensures FeedAll(START, Repeat(s, n)) == START
  {
    if n > 0 {
      CommentLeavesNoTrace(s);
      CommentsLeaveNoTrace(s, n - 1);
      FeedAllConcat(START, s, Repeat(s, n - 1));
    }
  }

  lemma KeepAlivesHideNoMark(n: nat, x: bytes)
    requires n > 0
    ensures !(BOM <= Repeat(KEEP_ALIVE, n) + x)
  {
    assert (Repeat(KEEP_ALIVE, n) + x)[0] == ':';
  }

  // However many keep-alives went first, the client reads what follows as if
  // it stood alone -- except that a byte order mark is no longer leading.
  lemma KeepAlivesAreInvisible(n: nat, x: bytes)
    ensures Parse(Repeat(KEEP_ALIVE, n) + x) == (if n == 0 then Parse(x) else ParseInside(x))
    ensures n == 0 || !(BOM <= x) ==> Parse(Repeat(KEEP_ALIVE, n) + x) == Parse(x)
  {
    if n == 0 {
      assert Repeat(KEEP_ALIVE, n) + x == x;
    } else {
      KeepAlivesHideNoMark(n, x);
      CommentsLeaveNoTrace(KEEP_ALIVE, n);
      FeedAllConcat(START, Repeat(KEEP_ALIVE, n), x);
    }
  }

  // ---------- one error frame is one event ----------

  lemma ColonEndsName(name: bytes, rest: bytes)
    requires ':' !in name
    ensures ColonAt(name + [':'] + rest) == |name|
  {
    var s, i := name + [':'] + rest, ColonAt(name + [':'] + rest);
    assert s[|name|] == ':';
    assert forall j :: 0 <= j < |name| ==> s[j] == name[j];
  }

  lemma FieldLine(name: bytes, value: bytes)
    requires name != [] && ':' !in name
    ensures var line := name + ": " + value;
            line != [] && line[0] != ':' && NameOf(line) == name && ValueOf(line) == value
  {
    var line := name + ": " + value;
    assert line == name + [':'] + ([' '] + value);
    ColonEndsName(name, [' '] + value);
    assert line[|name| + 1..] == [' '] + value;
    assert ([' '] + value)[1..] == value;
    assert line[0] == name[0] && name[0] in name;
  }

  // "name: value" on a line of its own sets that field to that value.
  lemma FeedField(p: Parser, name: bytes, value: bytes)
    requires !p.cr && p.line == []
    requires name != [] && ':' !in name && SingleLine(name) && SingleLine(value)
    ensures FeedAll(p, name + ": " + value + "\n") == Field(p, name, value)
  {
    FeedLine(p, name + ": " + value);
    FieldLine(name, value);
    assert p.(line := name + ": " + value).(line := []) == p;
  }

  // Two fields and the blank line that dispatches them.
  function TwoFields(n1: bytes, v1: bytes, n2: bytes, v2: bytes): bytes {
    n1 + ": " + v1 + "\n" + (n2 + ": " + v2 + "\n" + "\n")
  }

  ghost predicate PlainName(name: bytes) { name != [] && ':' !in name && SingleLine(name) }

  lemma FeedTwoFields(n1: bytes, v1: bytes, n2: bytes, v2: bytes)
    requires PlainName(n1) && PlainName(n2) && SingleLine(v1) && SingleLine(v2)
    ensures FeedAll(START, TwoFields(n1, v1, n2, v2)) == Dispatch(Field(Field(START, n1, v1), n2, v2))
  {
    var l1 := n1 + ": " + v1 + "\n";
    var l2 := n2 + ": " + v2 + "\n";
    FeedAllConcat(START, l1, l2 + "\n");
    FeedField(START, n1, v1);
    var p := Field(START, n1, v1);
    FeedAllConcat(p, l2, "\n");
    FeedField(p, n2, v2);
    var q := Field(p, n2, v2);
    FeedLine(q, []);
    assert [] + "\n" == "\n";
    assert q.(line := []) == q;
  }

  lemma ErrorFrameIsOneEvent(line: bytes)
    requires SingleLine(line)
    ensures ParseInside(ErrorFrame(line)) == [Event("error", line, [])]
    ensures Parse(ErrorFrame(line)) == [Event("error", line, [])]
  {
    assert ErrorFrame(line) == TwoFields("event", "error", "data", line);
    FeedTwoFields("event", "error", "data", line);
    assert [] + line + ['\n'] == line + ['\n'];
    assert (line + ['\n'])[..|line|] == line;
    assert ErrorFrame(line)[0] == 'e';
  }

  lemma UnknownFieldIsIgnored(name: bytes, value: bytes, line: bytes)
    requires PlainName(name) && name != "event" && name != "data" && name != "id"
    requires SingleLine(value) && SingleLine(line)
    ensures ParseInside(TwoFields(name, value, "data", line)) == [Event("message", line, [])]
  {
    FeedTwoFields(name, value, "data", line);
    assert [] + line + ['\n'] == line + ['\n'];
    assert (line + ['\n'])[..|line|] == line;
  }

  // ---------- what a byte order mark after keep-alives costs ----------

  function Marked(l: bytes, b: byte, rest: bytes): bytes { BOM + (l + [b] + rest) }

  lemma MarkedLineIsIgnored(l: bytes)
    ensures EndLine(START.(line := BOM + l)) == START
  {
    var line := BOM + l;
    assert line[0] == BOM[0] && ColonAt(line) > 0;
    assert NameOf(line)[0] == BOM[0];
  }

  // A leading mark is dropped. After a keep-alive it is part of the first line,
  // which is thereby lost, that line and no more.
  lemma MarkCostsTheFirstLine(n: nat, l: bytes, b: byte, rest: bytes)
    requires n > 0 && SingleLine(l) && IsLineBreak(b)
    ensures Parse(Marked(l, b, rest)) == FeedAll(EndLine(START.(line := l)).(cr := b == '\r'), rest).seen
    ensures Parse(Repeat(KEEP_ALIVE, n) + Marked(l, b, rest)) == FeedAll(START.(cr := b == '\r'), rest).seen
  {
    assert Marked(l, b, rest)[3..] == l + [b] + rest;
    FeedBrokenLine(START, l, b, rest);
    KeepAlivesAreInvisible(n, Marked(l, b, rest));
    assert Marked(l, b, rest) == (BOM + l) + [b] + rest;
    FeedBrokenLine(START, BOM + l, b, rest);
    MarkedLineIsIgnored(l);
  }

  // A stream that never finishes its first line says nothing either way.
  lemma MarkOnAnUnfinishedLine(n: nat, l: bytes)
    requires n > 0 && SingleLine(l)
    ensures Parse(Repeat(KEEP_ALIVE, n) + (BOM + l)) == Parse(BOM + l) == []
  {
    assert (BOM + l)[3..] == l;
    KeepAlivesAreInvisible(n, BOM + l);
    FeedText(START, l);
    FeedText(START, BOM + l);
  }

  const DATA: bytes := "data"
  const EVENT: bytes := "event"
  const ID: bytes := "id"
  const MESSAGE: bytes := "message"

  // The first line says nothing that lasts: blank, a comment, an unknown field,
  // the default event type, or an id that is empty or not allowed.
  predicate Harmless(l: bytes) {
    || l == [] || l[0] == ':'
    || (&& NameOf(l) != DATA
        && (NameOf(l) == EVENT ==> ValueOf(l) == [] || ValueOf(l) == MESSAGE)
        && (NameOf(l) == ID ==> ValueOf(l) == [] || '\0' in ValueOf(l)))
  }

  // The default event type, left out or spelled out.
  predicate Plainly(kind: bytes) { kind == [] || kind == MESSAGE }

  predicate Alike(p: Parser, q: Parser) {
    p == q || (p.(kind := q.kind) == q && Plainly(p.kind) && Plainly(q.kind))
  }

  lemma EndLineAlike(p: Parser, q: Parser)
    requires Alike(p, q)
    ensures Alike(EndLine(p), EndLine(q))
  {
  }

  lemma {:induction false} FeedAlike(p: Parser, q: Parser, s: bytes)
    requires Alike(p, q)
    ensures FeedAll(p, s).seen == FeedAll(q, s).seen
    decreases |s|
  {
    if s != [] {
      EndLineAlike(p, q);
      FeedAlike(Feed(p, s[0]), Feed(q, s[0]), s[1..]);
    }
  }

  const PROBE_VALUE: bytes := "x"

  // A data line and a blank one: whatever the state, an event comes of it.
  function Probe(): bytes { DATA + ": " + PROBE_VALUE + "\n" + "\n" }

  lemma ProbeShows(p: Parser)
    requires p.line == [] && !p.cr
    ensures FeedAll(p, Probe()) == Dispatch(Field(p, DATA, PROBE_VALUE))
  {
    var first := DATA + ": " + PROBE_VALUE + "\n";
    FeedAllConcat(p, first, "\n");
    FeedField(p, DATA, PROBE_VALUE);
    var q := Field(p, DATA, PROBE_VALUE);
    FeedLine(q, []);
    assert [] + "\n" == "\n" && q.(line := []) == q;
  }

  lemma HarmlessLine(l: bytes)
    requires Harmless(l)
    ensures Alike(EndLine(START.(line := l)), START)
  {
  }

  // What a harmful line leaves behind shows in the first event.
  lemma HarmfulLineShows(l: bytes)
    requires !Harmless(l)
    ensures FeedAll(EndLine(START.(line := l)), Probe()).seen != FeedAll(START, Probe()).seen
  {
    var p := EndLine(START.(line := l));
    ProbeShows(p);
    ProbeShows(START);
    var a, b := Field(p, DATA, PROBE_VALUE), Field(START, DATA, PROBE_VALUE);
    assert a.data == p.data + PROBE_VALUE + ['\n'] && b.data == [] + PROBE_VALUE + ['\n'];
    assert Dispatch(a).seen == [] + [Event(if a.kind == [] then MESSAGE else a.kind, a.data[..|a.data| - 1], a.id)];
    assert Dispatch(b).seen == [] + [Event(MESSAGE, b.data[..|b.data| - 1], [])];
    assert Dispatch(a).seen[0].data == p.data + PROBE_VALUE;
    assert Dispatch(b).seen[0].data == [] + PROBE_VALUE;
  }

  // So keep-alives ahead of a marked stream are invisible, whatever follows its
  // first line, exactly when that line is harmless.
  lemma MarkIsInvisibleExactly(n: nat, l: bytes)
    requires n > 0 && SingleLine(l)
    ensures Harmless(l) <==>
            forall b: byte, rest: bytes :: IsLineBreak(b) ==>
              Parse(Repeat(KEEP_ALIVE, n) + Marked(l, b, rest)) == Parse(Marked(l, b, rest))
  {
    if Harmless(l) {
      forall b: byte, rest: bytes | IsLineBreak(b)
        ensures Parse(Repeat(KEEP_ALIVE, n) + Marked(l, b, rest)) == Parse(Marked(l, b, rest))
      {
        MarkCostsTheFirstLine(n, l, b, rest);
        HarmlessLine(l);
        FeedAlike(EndLine(START.(line := l)).(cr := b == '\r'), START.(cr := b == '\r'), rest);
      }
    } else {
      var lf: byte := '\n';
      MarkCostsTheFirstLine(n, l, lf, Probe());
      HarmfulLineShows(l);
      EndLineKeepsBreak(START.(line := l));
      assert IsLineBreak(lf) && Parse(Repeat(KEEP_ALIVE, n) + Marked(l, lf, Probe())) != Parse(Marked(l, lf, Probe()));
    }
  }

  // The exception is real: a body that opens with a byte order mark is read
  // differently once a keep-alive has gone before it.
  lemma ByteOrderMarkIsSeenAfterKeepAlives(n: nat, line: bytes)
    requires n > 0 && SingleLine(line)
    ensures Parse(BOM + ErrorFrame(line)) == [Event("error", line, [])]
    ensures Parse(Repeat(KEEP_ALIVE, n) + (BOM + ErrorFrame(line))) == [Event("message", line, [])]
  {
    var frame := ErrorFrame(line);
    assert BOM <= BOM + frame && (BOM + frame)[3..] == frame;
    ErrorFrameIsOneEvent(line);
    KeepAlivesAreInvisible(n, BOM + frame);
    MarkedFrameIsNoError(line);
  }

  lemma MarkedFrameIsNoError(line: bytes)
    requires SingleLine(line)
    ensures ParseInside(BOM + ErrorFrame(line)) == [Event("message", line, [])]
  {
    var name := BOM + "event";
    assert name[0] == BOM[0];
    assert BOM + ErrorFrame(line) == TwoFields(name, "error", "data", line);
    UnknownFieldIsIgnored(name, "error", line);
  }
}
