// Reading the journal back in one pass: skipping day files, counting noise
// apart, and keeping only the most recent matches.
module JournalReader {

  import opened Journal
  import opened Wrappers

  datatype Query = Query(
    since: Option<Time>, until: Option<Time>, status: int, minLatency: int, route: string, model: string,
    failedOnly: bool, includeNoise: bool, limit: int)

  function LowerChar(c: char): char { if 'A' <= c <= 'Z' then c + 32 as char else c }

  function Lower(s: string): (r: string)
    ensures |r| == |s|
  {
    seq(|s|, i requires 0 <= i < |s| => LowerChar(s[i]))
  }

  predicate Contains(s: string, part: string) {
    exists i :: 0 <= i <= |s| && part <= s[i..]
  }

  lemma ContainsExactly(s: string, part: string)
    ensures Contains(s, part) <==> exists before: string, after: string :: s == before + part + after
  {
    if Contains(s, part) {
      var i :| 0 <= i <= |s| && part <= s[i..];
      assert s == s[..i] + part + s[i + |part|..];
    }
    forall before: string, after: string | s == before + part + after ensures Contains(s, part) {
      assert s[|before|..] == part + after;
    }
  }

  predicate SuppressesNoise(q: Query) { !q.includeNoise && q.status == 0 }

  const MILLISECOND := 1_000_000

  predicate Match(q: Query, e: Event) {
    && !(q.since.Some? && e.at < q.since.value)
    && !(q.until.Some? && e.at > q.until.value)
    && (e.kind == Request || e.kind == Reject ==> // events of other kinds are context
          && !(q.failedOnly && !e.Failed() && e.kind != Reject)
          && !(q.status != 0 && e.status != q.status)
          && !(q.minLatency > 0 && e.latencyMs * MILLISECOND < q.minLatency)
          && !(q.route != "" && !Contains(Lower(e.route), Lower(q.route)))
          && !(q.model != "" && !Contains(Lower(e.model), Lower(q.model))))
  }

  // ---------- what a query means ----------

  // A match is listed, unless it is noise to be counted instead.
  datatype Fate = Skipped | Shown | Counted

  type Judge = Event -> Fate

  function FateOf(q: Query, e: Event): Fate {
    if !Match(q, e) then Skipped
    else if e.Noise() && SuppressesNoise(q) then Counted
    else Shown
  }

  function JudgeOf(q: Query): Judge { e => FateOf(q, e) }

  function Listed(j: Judge, events: seq<Event>): seq<Event> {
    if events == [] then []
    else
      var n := |events| - 1;
      Listed(j, events[..n]) + if j(events[n]) == Shown then [events[n]] else []
  }

  function NoiseIn(j: Judge, events: seq<Event>): int {
    if events == [] then 0
    else
      var n := |events| - 1;
      NoiseIn(j, events[..n]) + if j(events[n]) == Counted then events[n].Weight() else 0
  }

  // The most recent ones, or all of them without a limit.
  function Recent<T>(limit: int, s: seq<T>): seq<T> {
    if limit <= 0 || |s| <= limit then s else s[|s| - limit..]
  }

  lemma RecentSnoc<T>(limit: int, s: seq<T>, x: T)
    ensures Recent(limit, Recent(limit, s) + [x]) == Recent(limit, s + [x])
  {
  }

  lemma ListedSnoc(j: Judge, events: seq<Event>, e: Event)
    ensures Listed(j, events + [e]) == Listed(j, events) + if j(e) == Shown then [e] else []
    ensures NoiseIn(j, events + [e]) == NoiseIn(j, events) + if j(e) == Counted then e.Weight() else 0
  {
    assert (events + [e])[..|events|] == events;
  }

  lemma {:induction false} ListedConcat(j: Judge, a: seq<Event>, b: seq<Event>)
    ensures Listed(j, a + b) == Listed(j, a) + Listed(j, b)
    ensures NoiseIn(j, a + b) == NoiseIn(j, a) + NoiseIn(j, b)
    decreases |b|
  {
    if b == [] {
      assert a + b == a;
    } else {
      var n := |b| - 1;
      ListedConcat(j, a, b[..n]);
      ListedSnoc(j, a + b[..n], b[n]);
      assert a + b == a + b[..n] + [b[n]];
    }
  }

  // ---------- what an answer holds, filter by filter ----------

  // What was asked of a request or a reject; other kinds are context.
  predicate MeetsFilters(q: Query, e: Event) {
    e.kind == Request || e.kind == Reject ==>
      && (q.failedOnly ==> e.kind == Reject || e.ok == Some(false))
      && (q.status != 0 ==> e.status == q.status)
      && (q.minLatency > 0 ==> e.latencyMs * 1_000_000 >= q.minLatency)
      && (q.route != "" ==> Contains(Lower(e.route), Lower(q.route)))
      && (q.model != "" ==> Contains(Lower(e.model), Lower(q.model)))
  }

  predicate InTime(q: Query, e: Event) {
    (q.since.Some? ==> e.at >= q.since.value) && (q.until.Some? ==> e.at <= q.until.value)
  }

  // A refusal of outside traffic, left out of a listing nobody asked it into.
  predicate LeftOut(q: Query, e: Event) {
    e.kind == Reject && e.src != Local && e.status < 500 && !q.includeNoise && q.status == 0
  }

  lemma FateSpeltOut(q: Query, e: Event)
    ensures FateOf(q, e) ==
      if !(InTime(q, e) && MeetsFilters(q, e)) then Skipped
      else if LeftOut(q, e) then Counted
      else Shown
  {
  }

  lemma {:induction false} ListedExactly(j: Judge, events: seq<Event>, e: Event)
    ensures e in Listed(j, events) <==> e in events && j(e) == Shown
  {
    if events != [] {
      var n := |events| - 1;
      ListedExactly(j, events[..n], e);
      assert events == events[..n] + [events[n]];
    }
  }

  // How many of these there are, each taken for as many as it stands for.
  function WeightOf(events: seq<Event>, q: Query): int {
    if events == [] then 0
    else
      var n := |events| - 1;
      var e := events[n];
      WeightOf(events[..n], q)
      + if InTime(q, e) && MeetsFilters(q, e) && LeftOut(q, e) then (if e.count == 0 then 1 else e.count) else 0
  }

  lemma {:induction false} NoiseIsTheLeftOut(q: Query, events: seq<Event>)
    ensures NoiseIn(JudgeOf(q), events) == WeightOf(events, q)
  {
    if events != [] {
      NoiseIsTheLeftOut(q, events[..|events| - 1]);
      FateSpeltOut(q, events[|events| - 1]);
    }
  }

  // One more filter set, or a bound moved inwards.
  predicate Narrower(q: Query, wide: Query) {
    && (wide.since.Some? ==> q.since.Some? && q.since.value >= wide.since.value)
    && (wide.until.Some? ==> q.until.Some? && q.until.value <= wide.until.value)
    && (wide.failedOnly ==> q.failedOnly)
    && (wide.status != 0 ==> q.status == wide.status)
    && (wide.minLatency > 0 ==> q.minLatency >= wide.minLatency)
    && (wide.route != "" ==> q.route == wide.route)
    && (wide.model != "" ==> q.model == wide.model)
  }

  // It never finds anything new. What it lists beside what was listed before is
  // noise that had been counted: asking for a status asks for its noise too.
  lemma NarrowerFindsNothingNew(q: Query, wide: Query, e: Event)
    requires Narrower(q, wide) && q.includeNoise == wide.includeNoise
    ensures FateOf(q, e) != Skipped ==> FateOf(wide, e) != Skipped
    ensures FateOf(q, e) == Shown && FateOf(wide, e) != Shown ==>
      FateOf(wide, e) == Counted && LeftOut(wide, e) && q.status != 0
  {
  }

  // ---------- day files ----------

  // A file as the scan meets it. `day` is None when the name is not a date.
  datatype Contents = Lines(lines: seq<Line>) | Gone | Unreadable

  datatype File = File(day: Option<Day>, contents: Contents)

  predicate SkipDay(c: Calendar, f: File, q: Query) {
    && f.day.Some?
    && ((q.since.Some? && c.End(f.day.value) <= q.since.value) || (q.until.Some? && c.start(f.day.value) > q.until.value))
  }

  predicate Breaks(f: File) { f.contents.Unreadable? || (f.contents.Lines? && TooLong in f.contents.lines) }

  function EventsIn(f: File): seq<Event> { if f.contents.Lines? then EventsOf(f.contents.lines) else [] }

  function AllEvents(files: seq<File>): seq<Event> {
    if files == [] then [] else AllEvents(files[..|files| - 1]) + EventsIn(files[|files| - 1])
  }

  // Every event lies in the day its file is named after.
  predicate FiledByDay(c: Calendar, f: File) {
    f.day.Some? ==> forall e :: e in EventsIn(f) ==> c.Within(f.day.value, e.at)
  }

  lemma {:induction false} NothingMatches(j: Judge, events: seq<Event>)
    requires forall e :: e in events ==> j(e) == Skipped
    ensures Listed(j, events) == [] && NoiseIn(j, events) == 0
  {
    if events != [] {
      NothingMatches(j, events[..|events| - 1]);
    }
  }

  // A skipped file filed by day holds no match, so skipping it changes nothing.
  lemma {:induction false} SkippingIsSound(c: Calendar, f: File, q: Query)
    requires SkipDay(c, f, q) && FiledByDay(c, f)
    ensures Listed(JudgeOf(q), EventsIn(f)) == [] && NoiseIn(JudgeOf(q), EventsIn(f)) == 0
  {
    NothingMatches(JudgeOf(q), EventsIn(f));
  }

  // An event of another day, earlier or later, is passed over by some query it
  // matches.
  lemma MisfiledEventIsMissed(c: Calendar, f: File, e: Event) returns (q: Query)
    requires f.day.Some? && e in EventsIn(f) && !c.Within(f.day.value, e.at)
    ensures SkipDay(c, f, q) && Match(q, e)
  {
    var since := if c.End(f.day.value) <= e.at then Some(e.at) else None;
    var until := if e.at < c.start(f.day.value) then Some(e.at) else None;
    q := Query(since, until, 0, 0, "", "", false, true, 0);
  }

  // Skipping a dated file is safe for every query exactly when all its events
  // lie in its own day.
  lemma SafeToSkipExactly(c: Calendar, f: File)
    requires f.day.Some?
    ensures FiledByDay(c, f) <==> forall q, e :: SkipDay(c, f, q) && e in EventsIn(f) ==> !Match(q, e)
  {
    if !FiledByDay(c, f) {
      var e :| e in EventsIn(f) && !c.Within(f.day.value, e.at);
      var q := MisfiledEventIsMissed(c, f, e);
    }
  }

  // ---------- one pass ----------

  method ShiftDown<T>(a: array<T>, x: T)
    requires a.Length > 0
    modifies a
    ensures a[..] == old(a[1..]) + [x]
  {
    var n := a.Length - 1;
    for k := 0 to n
      invariant forall i :: 0 <= i < k ==> a[i] == old(a[i + 1])
      invariant forall i :: k <= i <= n ==> a[i] == old(a[i])
    {
      a[k] := a[k + 1];
    }
    a[n] := x;
  }

  // The state one reading accumulates. `seen` is every event it has met.
  class Pass {
    const judge: Judge
    const limit: int
    var ring: array<Event>
    var noise: int
    ghost var seen: seq<Event>
    ghost var shown: seq<Event>

    ghost predicate Valid()
      reads this, ring
    {
      && ring[..] == Recent(limit, shown)
      && shown == Listed(judge, seen) && noise == NoiseIn(judge, seen)
    }

    constructor (judge: Judge, limit: int)
      ensures Valid() && fresh(ring) && this.judge == judge && this.limit == limit && seen == []
    {
      this.judge, this.limit, ring, noise, seen, shown := judge, limit, new Event[0], 0, [], [];
    }

    // A full ring shifts down in place; otherwise the slice grows.
    method Keep(e: Event)
      requires ring[..] == Recent(limit, shown)
      modifies this`ring, this`shown, ring
      ensures ring == old(ring) || fresh(ring)
      ensures shown == old(shown) + [e] && ring[..] == Recent(limit, shown)
    {
      RecentSnoc(limit, shown, e);
      shown := shown + [e];
      if limit <= 0 || ring.Length < limit {
        var was := ring[..];
        ring := new Event[|was| + 1](i requires 0 <= i < |was| + 1 => if i < |was| then was[i] else e);
        assert ring[..] == was + [e];
        return;
      }
      ShiftDown(ring, e);
    }

    // Noise that is only counted takes no slot of the ring.
    method Meet(e: Event)
      requires Valid()
      modifies this`ring, this`noise, this`seen, this`shown, ring
      ensures Valid() && (ring == old(ring) || fresh(ring))
      ensures seen == old(seen) + [e]
    {
      ListedSnoc(judge, seen, e);
      seen := seen + [e];
      match judge(e) {
        case Skipped =>
        case Counted =>
          noise := noise + e.Weight();
        case Shown =>
          Keep(e);
      }
    }
  }

  // Stops at the first line too long for the scanner's buffer.
  method ScanLines(lines: seq<Line>, p: Pass) returns (ok: bool)
    requires p.Valid()
    modifies p`ring, p`noise, p`seen, p`shown, p.ring
    ensures p.Valid() && (p.ring == old(p.ring) || fresh(p.ring))
    ensures ok == (TooLong !in lines)
    ensures ok ==> p.seen == old(p.seen) + EventsOf(lines)
  {
    ok := true;
    for k := 0 to |lines|
      invariant p.Valid() && (p.ring == old(p.ring) || fresh(p.ring))
      invariant TooLong !in lines[..k]
      invariant p.seen == old(p.seen) + EventsOf(lines[..k])
    {
      EventsUpTo(lines, k);
      match lines[k] {
        case TooLong =>
          return false;
        case Good(e) =>
          p.Meet(e);
        case Blank =>
        case Garbled =>
      }
    }
    assert lines[..|lines|] == lines;
  }

  method ScanDay(f: File, p: Pass) returns (ok: bool)
    requires p.Valid()
    modifies p`ring, p`noise, p`seen, p`shown, p.ring
    ensures p.Valid() && (p.ring == old(p.ring) || fresh(p.ring))
    ensures ok == !Breaks(f)
    ensures ok ==> p.seen == old(p.seen) + EventsIn(f)
  {
    match f.contents {
      case Unreadable =>
        ok := false;
      case Gone => // removed between listing and reading
        ok := true;
        assert p.seen + [] == p.seen;
      case Lines(lines) =>
        ok := ScanLines(lines, p);
    }
  }

  // ---------- reading ----------

  datatype Result = Found(events: seq<Event>, noise: int) | Broken

  // The whole answer, without skipping, rings or running counts.
  ghost predicate Answers(q: Query, events: seq<Event>, r: Result) {
    r == Found(Recent(q.limit, Listed(JudgeOf(q), events)), NoiseIn(JudgeOf(q), events))
  }

  // A limited answer is the end of the unlimited one.
  lemma LimitKeepsTheLatest(q: Query, events: seq<Event>, r: Result, all: Result)
    requires q.limit > 0 && Answers(q, events, r) && Answers(q.(limit := 0), events, all)
    ensures |r.events| == if |all.events| < q.limit then |all.events| else q.limit
    ensures r.events == all.events[|all.events| - |r.events|..] && r.noise == all.noise
  {
    SameJudgement(q, q.(limit := 0), events);
  }

  lemma {:induction false} SameJudgement(q: Query, q': Query, events: seq<Event>)
    requires q' == q.(limit := q'.limit)
    ensures Listed(JudgeOf(q), events) == Listed(JudgeOf(q'), events)
    ensures NoiseIn(JudgeOf(q), events) == NoiseIn(JudgeOf(q'), events)
  {
    if events != [] {
      SameJudgement(q, q', events[..|events| - 1]);
      assert FateOf(q, events[|events| - 1]) == FateOf(q', events[|events| - 1]);
    }
  }

  // So an answer holds exactly what was asked for: nothing else, all of it when
  // there is no limit and the most recent otherwise, and the rest as a number.
  lemma AnswerSpeltOut(q: Query, events: seq<Event>, r: Result)
    requires Answers(q, events, r)
    ensures forall e :: e in r.events ==>
      e in events && InTime(q, e) && MeetsFilters(q, e) && !LeftOut(q, e)
    ensures q.limit <= 0 ==> forall e :: e in events && InTime(q, e) && MeetsFilters(q, e) && !LeftOut(q, e) ==>
      e in r.events
    ensures q.limit > 0 ==> |r.events| <= q.limit
    ensures r.noise == WeightOf(events, q)
  {
    var j := JudgeOf(q);
    NoiseIsTheLeftOut(q, events);
    forall e ensures e in Listed(j, events) <==> e in events && InTime(q, e) && MeetsFilters(q, e) && !LeftOut(q, e) {
      ListedExactly(j, events, e);
      FateSpeltOut(q, e);
    }
  }

  ghost predicate SameMatches(j: Judge, a: seq<Event>, b: seq<Event>) {
    Listed(j, a) == Listed(j, b) && NoiseIn(j, a) == NoiseIn(j, b)
  }

  // The skipped files hold no event of another day.
  ghost predicate SkipsAreFiledByDay(c: Calendar, files: seq<File>, q: Query) {
    forall f :: f in files && SkipDay(c, f, q) ==> FiledByDay(c, f)
  }

  // The events met when the files are read in turn.
  function Met(c: Calendar, q: Query, files: seq<File>): seq<Event> {
    if files == [] then []
    else
      var f := files[|files| - 1];
      Met(c, q, files[..|files| - 1]) + if SkipDay(c, f, q) then [] else EventsIn(f)
  }

  lemma MetSnoc(c: Calendar, q: Query, files: seq<File>, k: nat)
    requires k < |files|
    ensures Met(c, q, files[..k + 1]) == Met(c, q, files[..k]) + if SkipDay(c, files[k], q) then [] else EventsIn(files[k])
  {
    assert files[..k + 1][..k] == files[..k];
  }

  // They answer as well as all the events would.
  lemma {:induction false} MetAnswers(c: Calendar, q: Query, files: seq<File>)
    requires SkipsAreFiledByDay(c, files, q)
    ensures SameMatches(JudgeOf(q), Met(c, q, files), AllEvents(files))
  {
    if files != [] {
      var n := |files| - 1;
      var met, all, more, j := Met(c, q, files[..n]), AllEvents(files[..n]), EventsIn(files[n]), JudgeOf(q);
      MetAnswers(c, q, files[..n]);
      ListedConcat(j, met, more);
      ListedConcat(j, all, more);
      assert met + [] == met;
      if SkipDay(c, files[n], q) {
        SkippingIsSound(c, files[n], q);
      }
    }
  }

  predicate KeptBreaks(c: Calendar, f: File, q: Query) { !SkipDay(c, f, q) && Breaks(f) }

  predicate SomeBreaks(c: Calendar, q: Query, files: seq<File>) { exists f :: f in files && KeptBreaks(c, f, q) }

  lemma SomeBreaksExactly(c: Calendar, q: Query, files: seq<File>)
    ensures SomeBreaks(c, q, files) <==> exists f ::
      f in files && !SkipDay(c, f, q) && (f.contents.Unreadable? || (f.contents.Lines? && TooLong in f.contents.lines))
  {
  }

  lemma SomeBreaksSnoc(c: Calendar, q: Query, files: seq<File>, k: nat)
    requires k < |files|
    ensures SomeBreaks(c, q, files[..k + 1]) <==> SomeBreaks(c, q, files[..k]) || KeptBreaks(c, files[k], q)
    ensures KeptBreaks(c, files[k], q) ==> SomeBreaks(c, q, files)
  {
    assert files[..k + 1] == files[..k] + [files[k]];
    assert files[k] in files && files[k] in files[..k + 1];
  }

  // `files` are the day files in the order of their names.
  method Read(c: Calendar, files: seq<File>, q: Query) returns (r: Result)
    ensures r.Broken? <==> SomeBreaks(c, q, files)
    ensures r.Found? && SkipsAreFiledByDay(c, files, q) ==> Answers(q, AllEvents(files), r)
  {
    var judge := JudgeOf(q);
    var p := new Pass(judge, q.limit);
    for k := 0 to |files|
      invariant fresh(p) && fresh(p.ring) && p.Valid() && p.judge == judge && p.limit == q.limit
      invariant !SomeBreaks(c, q, files[..k])
      invariant p.seen == Met(c, q, files[..k])
    {
      MetSnoc(c, q, files, k);
      SomeBreaksSnoc(c, q, files, k);
      if SkipDay(c, files[k], q) {
        continue;
      }
      var ok := ScanDay(files[k], p);
      if !ok {
        return Broken;
      }
    }
    assert files[..|files|] == files;
    r := Found(p.ring[..], p.noise);
    if SkipsAreFiledByDay(c, files, q) {
      MetAnswers(c, q, files);
    }
  }
}
