// What is appended to the journal is what a query finds in it.
module JournalRoundTrip {

  import opened Journal
  import opened Wrappers
  import R = JournalReader
  import W = JournalWriter

  function Stored(f: Option<W.File>): seq<Line> { if f.Some? then f.value.Read() else [] }

  // ---------- which events can be read ----------

  // The entry puts bytes into the day's file, or removes it.
  predicate Changes(e: W.Entry, c: Calendar, d: Day) {
    W.Touches(e, c, d) && (e.Torn? ==> !e.wrote.Nothing?)
  }

  // The latest such entry.
  function LastChange(log: seq<W.Entry>, c: Calendar, d: Day): Option<W.Entry> {
    if log == [] then None
    else
      var n := |log| - 1;
      if Changes(log[n], c, d) then Some(log[n]) else LastChange(log[..n], c, d)
  }

  // The log alone says whether the day's file ends in the middle of a line.
  predicate CutShort(found: W.Found, log: seq<W.Entry>, c: Calendar, d: Day) {
    match LastChange(log, c, d)
    case None => d in found && !found[d].tail.Clean?
    case Some(e) => e.Torn?
  }

  function FullLines(f: Option<W.File>): seq<Line> { if f.Some? then f.value.lines else [] }

  predicate Unclean(f: Option<W.File>) { f.Some? && !f.value.tail.Clean? }

  // A file ends in the middle of a line exactly when the latest entry that
  // changed it was a write cut short, or nothing changed it and it was found
  // like that.
  lemma {:induction false} UncleanExactlyWhenCutShort(found: W.Found, log: seq<W.Entry>, c: Calendar, d: Day)
    ensures Unclean(W.FileOf(found, log, c, d)) <==> CutShort(found, log, c, d)
  {
    if log != [] {
      UncleanExactlyWhenCutShort(found, log[..|log| - 1], c, d);
    }
  }

  // A written event can be read exactly when the file did not end in the
  // middle of a line before it; otherwise its line is lost, and with it an
  // event that lacked only its newline.
  lemma WrittenIsReadableExactly(found: W.Found, log: seq<W.Entry>, c: Calendar, x: Event)
    ensures var d := c.dayOf(x.at);
            var before, after := W.FileOf(found, log, c, d), W.FileOf(found, log + [W.Filed(x)], c, d);
            && (EventsOf(Stored(after)) == EventsOf(Stored(before)) + [x] <==> !CutShort(found, log, c, d))
            && (CutShort(found, log, c, d) ==> EventsOf(Stored(after)) == EventsOf(before.value.lines))
  {
    var d := c.dayOf(x.at);
    var before := W.FileOf(found, log, c, d);
    UncleanExactlyWhenCutShort(found, log, c, d);
    W.FileSnoc(found, log, c, W.Filed(x), d);
    var lines := if before.Some? then before.value.lines else [];
    EventsSnoc(lines, Garbled);
    EventsSnoc(lines, Good(x));
    if before.Some? && before.value.tail.Whole? {
      EventsSnoc(lines, Good(before.value.tail.event));
    }
  }

  lemma ReadsOnly(f: W.File)
    ensures EventsOf(f.Read()) == EventsOf(f.lines) + if f.tail.Whole? then [f.tail.event] else []
  {
    EventsSnoc(f.lines, Garbled);
    if f.tail.Whole? {
      EventsSnoc(f.lines, Good(f.tail.event));
    }
    assert EventsOf(f.lines) + [] == EventsOf(f.lines);
  }

  lemma Interrupts(f: Option<W.File>, e: Event, wrote: W.Wrote)
    ensures var after := Some(W.Written(f, W.Torn(e, wrote)));
            && (wrote.AllButNewline? && !Unclean(f) ==> EventsOf(Stored(after)) == EventsOf(Stored(f)) + [e])
            && (wrote.Nothing? || (wrote.Partly? && !Unclean(f)) ==> EventsOf(Stored(after)) == EventsOf(Stored(f)))
            && (!wrote.Nothing? && Unclean(f) ==> EventsOf(Stored(after)) == EventsOf(FullLines(f)))
            && |EventsOf(FullLines(f))| <= |EventsOf(Stored(f))|
  {
    if f.Some? {
      ReadsOnly(f.value);
    }
    ReadsOnly(W.Written(f, W.Torn(e, wrote)));
  }

  // A write cut short can be read all the same exactly when it lacked only its
  // newline. What an earlier one left after the last newline is lost with it.
  lemma TornIsReadableExactly(found: W.Found, log: seq<W.Entry>, c: Calendar, e: Event, wrote: W.Wrote)
    ensures var d := c.dayOf(e.at);
            var before, after := W.FileOf(found, log, c, d), W.FileOf(found, log + [W.Torn(e, wrote)], c, d);
            var cut := CutShort(found, log, c, d);
            && (EventsOf(Stored(after)) == EventsOf(Stored(before)) + [e] <==> wrote.AllButNewline? && !cut)
            && (wrote.Nothing? || (wrote.Partly? && !cut) ==> EventsOf(Stored(after)) == EventsOf(Stored(before)))
            && (!wrote.Nothing? && cut ==> EventsOf(Stored(after)) == EventsOf(FullLines(before)))
  {
    var d := c.dayOf(e.at);
    var before := W.FileOf(found, log, c, d);
    UncleanExactlyWhenCutShort(found, log, c, d);
    W.FileSnoc(found, log, c, W.Torn(e, wrote), d);
    Interrupts(before, e, wrote);
    assert |EventsOf(Stored(before)) + [e]| == |EventsOf(Stored(before))| + 1;
  }

  // Of all that Take counts as written, that and the events for a file removed
  // while open are the only ones lost. `open` and `detached` are the writer's
  // when it takes the event: the day's file is open, and has been removed.
  lemma CountedIsReadableExactly(found: W.Found, log: seq<W.Entry>, c: Calendar,
                                 open: bool, detached: bool, e: Event, attempt: W.Attempt)
    requires W.CountsAsWritten(W.Outcome(open, detached, e, attempt))
    ensures var d, entry := c.dayOf(e.at), W.Outcome(open, detached, e, attempt);
            EventsOf(Stored(W.FileOf(found, log + [entry], c, d))) == EventsOf(Stored(W.FileOf(found, log, c, d))) + [e]
            <==> !(open && detached) && !CutShort(found, log, c, d)
  {
    var d, entry := c.dayOf(e.at), W.Outcome(open, detached, e, attempt);
    W.FileSnoc(found, log, c, entry, d);
    if entry.Filed? {
      WrittenIsReadableExactly(found, log, c, e);
    } else {
      var before := EventsOf(Stored(W.FileOf(found, log, c, d)));
      assert |before + [e]| == |before| + 1;
    }
  }

  // So a write cut short spoils the event after it, which counts as written all
  // the same.
  lemma CutWriteSpoilsTheNextLine(found: W.Found, log: seq<W.Entry>, c: Calendar, e: Event, wrote: W.Wrote, x: Event)
    requires c.dayOf(e.at) == c.dayOf(x.at) && !wrote.Nothing?
    ensures var d, cut := c.dayOf(x.at), log + [W.Torn(e, wrote)];
            && W.WrittenIn(cut + [W.Filed(x)]) == W.WrittenIn(log) + 1
            && EventsOf(Stored(W.FileOf(found, cut + [W.Filed(x)], c, d))) == Lasting(found, log, c, d)
  {
    var d, torn := c.dayOf(x.at), W.Torn(e, wrote);
    var cut := log + [torn];
    W.LogSnoc(log, torn);
    W.LogSnoc(cut, W.Filed(x));
    assert cut[..|log|] == log && Changes(torn, c, d);
    WrittenIsReadableExactly(found, cut, c, x);
    W.FileSnoc(found, log, c, torn, d);
    FullLinesAreLasting(found, log, c, d);
  }

  // ---------- what a day file holds ----------

  // What the day's file was found with.
  function FoundOn(found: W.Found, d: Day): seq<Event> { if d in found then EventsOf(found[d].lines) else [] }

  // The events on full lines, from the log alone.
  function Lasting(found: W.Found, log: seq<W.Entry>, c: Calendar, d: Day): seq<Event> {
    if log == [] then FoundOn(found, d)
    else
      var before, e := log[..|log| - 1], log[|log| - 1];
      if e == W.Removed(d) then []
      else Lasting(found, before, c, d) + if CutShort(found, before, c, d) then [] else Adds(e, c, d)
  }

  // What the entry adds to the events written on the day.
  function Adds(e: W.Entry, c: Calendar, d: Day): seq<Event> {
    if e.Filed? && c.dayOf(e.event.at) == d then [e.event] else []
  }

  lemma FullLinesAfter(f: Option<W.File>, c: Calendar, e: W.Entry, d: Day)
    requires e != W.Removed(d)
    ensures EventsOf(FullLines(W.After(f, c, e, d))) == EventsOf(FullLines(f)) + if Unclean(f) then [] else Adds(e, c, d)
  {
    var lines := FullLines(f);
    if e.Filed? {
      EventsSnoc(lines, Good(e.event));
      EventsSnoc(lines, Garbled);
    }
  }

  lemma {:induction false} FullLinesAreLasting(found: W.Found, log: seq<W.Entry>, c: Calendar, d: Day)
    ensures EventsOf(FullLines(W.FileOf(found, log, c, d))) == Lasting(found, log, c, d)
  {
    if log != [] {
      var n := |log| - 1;
      FullLinesAreLasting(found, log[..n], c, d);
      UncleanExactlyWhenCutShort(found, log[..n], c, d);
      if log[n] != W.Removed(d) {
        FullLinesAfter(W.FileOf(found, log[..n], c, d), c, log[n], d);
      }
    }
  }

  // Everything written on the day since its file was last removed, after what
  // the file was found with.
  function WrittenOn(found: W.Found, log: seq<W.Entry>, c: Calendar, d: Day): seq<Event> {
    if log == [] then FoundOn(found, d)
    else
      var before, e := log[..|log| - 1], log[|log| - 1];
      if e == W.Removed(d) then []
      else WrittenOn(found, before, c, d) + Adds(e, c, d)
  }

  // No event written on the day since then met a file cut short.
  predicate NoneSpoiled(found: W.Found, log: seq<W.Entry>, c: Calendar, d: Day) {
    log == [] ||
    var before, e := log[..|log| - 1], log[|log| - 1];
    || e == W.Removed(d)
    || (NoneSpoiled(found, before, c, d) && (Adds(e, c, d) != [] ==> !CutShort(found, before, c, d)))
  }

  // All of it can be read exactly when none was spoiled, and in queue order.
  // Failures of other days do not matter, nor failures that wrote nothing.
  lemma {:induction false} AllReadableExactly(found: W.Found, log: seq<W.Entry>, c: Calendar, d: Day)
    ensures Lasting(found, log, c, d) == WrittenOn(found, log, c, d) <==> NoneSpoiled(found, log, c, d)
    ensures |Lasting(found, log, c, d)| <= |WrittenOn(found, log, c, d)|
  {
    if log != [] {
      var before, e := log[..|log| - 1], log[|log| - 1];
      AllReadableExactly(found, before, c, d);
      AddedToBoth(Lasting(found, before, c, d), WrittenOn(found, before, c, d), Adds(e, c, d));
    }
  }

  lemma AddedToBoth<T>(a: seq<T>, b: seq<T>, more: seq<T>)
    requires |a| <= |b|
    ensures a + more == b + more <==> a == b
    ensures a + [] == a && b + [] == b
    ensures more != [] ==> a != b + more
  {
    assert (a + more)[..|a|] == a && (b + more)[..|b|] == b;
    assert |b + more| == |b| + |more|;
  }

  // A day in order: nothing spoiled, and no line left open.
  predicate InOrder(found: W.Found, log: seq<W.Entry>, c: Calendar, d: Day) {
    NoneSpoiled(found, log, c, d) && !CutShort(found, log, c, d)
  }

  // The file of such a day holds the day's events in the order they left the
  // queue.
  lemma FileKeepsQueueOrder(found: W.Found, log: seq<W.Entry>, c: Calendar, d: Day)
    requires InOrder(found, log, c, d)
    ensures EventsOf(Stored(W.FileOf(found, log, c, d))) == WrittenOn(found, log, c, d)
  {
    FullLinesAreLasting(found, log, c, d);
    UncleanExactlyWhenCutShort(found, log, c, d);
    AllReadableExactly(found, log, c, d);
  }

  // ---------- the day's events among those accepted ----------

  function OnDay(c: Calendar, events: seq<Event>, d: Day): seq<Event> {
    if events == [] then []
    else
      var e := events[|events| - 1];
      OnDay(c, events[..|events| - 1], d) + if c.dayOf(e.at) == d then [e] else []
  }

  // The entry neither removes the day's file nor is a failed event of the day.
  predicate SmoothEntry(e: W.Entry, c: Calendar, d: Day) {
    if e.Removed? then e.day != d else c.dayOf(e.event.at) == d ==> e.Filed?
  }

  predicate Smooth(log: seq<W.Entry>, c: Calendar, d: Day) {
    log == [] || (Smooth(log[..|log| - 1], c, d) && SmoothEntry(log[|log| - 1], c, d))
  }

  lemma OnDaySnoc(c: Calendar, events: seq<Event>, e: Event, d: Day)
    ensures OnDay(c, events + [e], d) == OnDay(c, events, d) + if c.dayOf(e.at) == d then [e] else []
  {
    assert (events + [e])[..|events|] == events;
  }

  lemma TakenOnDay(taken: seq<Event>, e: W.Entry, c: Calendar, d: Day)
    requires SmoothEntry(e, c, d)
    ensures OnDay(c, taken + (if e.Removed? then [] else [e.event]), d) == OnDay(c, taken, d) + Adds(e, c, d)
  {
    if e.Removed? {
      assert taken + [] == taken && OnDay(c, taken, d) + [] == OnDay(c, taken, d);
    } else {
      OnDaySnoc(c, taken, e.event, d);
    }
  }

  lemma {:induction false} SmoothDayIsWritten(found: W.Found, log: seq<W.Entry>, c: Calendar, d: Day)
    requires Smooth(log, c, d)
    ensures WrittenOn(found, log, c, d) == FoundOn(found, d) + OnDay(c, W.Taken(log), d)
  {
    if log == [] {
      assert FoundOn(found, d) + [] == FoundOn(found, d);
    } else {
      var n := |log| - 1;
      SmoothDayIsWritten(found, log[..n], c, d);
      TakenOnDay(W.Taken(log[..n]), log[n], c, d);
    }
  }

  lemma {:induction false} SmoothDayIsInOrder(found: W.Found, log: seq<W.Entry>, c: Calendar, d: Day)
    requires Smooth(log, c, d) && (d in found ==> found[d].tail.Clean?)
    ensures InOrder(found, log, c, d)
  {
    if log != [] {
      SmoothDayIsInOrder(found, log[..|log| - 1], c, d);
    }
  }

  // Then all accepted events of the day are there, after what the file was
  // found with, whatever became of other days.
  lemma SmoothDayIsComplete(found: W.Found, log: seq<W.Entry>, c: Calendar, d: Day)
    requires Smooth(log, c, d) && (d in found ==> found[d].tail.Clean?)
    ensures InOrder(found, log, c, d)
    ensures WrittenOn(found, log, c, d) == FoundOn(found, d) + OnDay(c, W.Taken(log), d)
  {
    SmoothDayIsInOrder(found, log, c, d);
    SmoothDayIsWritten(found, log, c, d);
  }

  // ---------- nothing is filed under a wrong day ----------

  // A line is filed under its own day, and no line breaks the scan.
  ghost predicate WellFiled(lines: seq<Line>, c: Calendar, d: Day) {
    && TooLong !in lines
    && forall e :: e in EventsOf(lines) ==> c.dayOf(e.at) == d
  }

  lemma WellFiledSnoc(lines: seq<Line>, l: Line, c: Calendar, d: Day)
    requires WellFiled(lines, c, d) && !l.TooLong? && (l.Good? ==> c.dayOf(l.event.at) == d)
    ensures WellFiled(lines + [l], c, d)
  {
    EventsSnoc(lines, l);
  }

  ghost predicate OwnDay(f: W.File, c: Calendar, d: Day) {
    WellFiled(f.lines, c, d) && (f.tail.Whole? ==> c.dayOf(f.tail.event.at) == d)
  }

  // A directory this writer may be opened on: its files may end anywhere.
  ghost predicate OwnDays(files: map<Day, W.File>, c: Calendar) {
    forall d :: d in files ==> OwnDay(files[d], c, d)
  }

  lemma OwnDayRead(f: W.File, c: Calendar, d: Day)
    requires OwnDay(f, c, d)
    ensures WellFiled(f.Read(), c, d)
  {
    match f.tail
    case Clean =>
    case Part => WellFiledSnoc(f.lines, Garbled, c, d);
    case Whole(e) => WellFiledSnoc(f.lines, Good(e), c, d);
  }

  lemma OwnDayAppended(f: W.File, e: Event, c: Calendar, d: Day)
    requires OwnDay(f, c, d) && c.dayOf(e.at) == d
    ensures OwnDay(f.Appended(e), c, d)
  {
    WellFiledSnoc(f.lines, if f.tail.Clean? then Good(e) else Garbled, c, d);
  }

  lemma OwnDayInterrupted(f: W.File, e: Event, wrote: W.Wrote, c: Calendar, d: Day)
    requires OwnDay(f, c, d) && c.dayOf(e.at) == d
    ensures OwnDay(f.Interrupted(e, wrote), c, d)
  {
  }

  ghost predicate HoldsOwnDay(f: Option<W.File>, c: Calendar, d: Day) { f.Some? ==> OwnDay(f.value, c, d) }

  lemma OwnDayKept(f: Option<W.File>, e: W.Entry, c: Calendar, d: Day)
    requires HoldsOwnDay(f, c, d)
    ensures HoldsOwnDay(W.After(f, c, e, d), c, d)
  {
    var now := if f.Some? then f.value else W.EMPTY;
    if W.Touches(e, c, d) && e.Filed? {
      OwnDayAppended(now, e.event, c, d);
    } else if W.Touches(e, c, d) && e.Torn? {
      OwnDayInterrupted(now, e.event, e.wrote, c, d);
    }
  }

  // Whatever fails, a day file never holds an event of another day, if none
  // did at the start.
  lemma {:induction false} FilesHoldTheirOwnDay(found: W.Found, log: seq<W.Entry>, c: Calendar, d: Day)
    requires OwnDays(found, c)
    ensures HoldsOwnDay(W.FileOf(found, log, c, d), c, d)
  {
    if log != [] {
      var n := |log| - 1;
      FilesHoldTheirOwnDay(found, log[..n], c, d);
      OwnDayKept(W.FileOf(found, log[..n], c, d), log[n], c, d);
    }
  }

  // So a writer may be opened on what any writer before it left.
  lemma LeavesItsDirectorySound(w: W.Writer)
    requires w.Valid() && OwnDays(w.found, w.cal)
    ensures OwnDays(w.files, w.cal)
  {
    W.BookIsTrue(w.found, w.log, w.cal);
    forall d | d in w.files ensures OwnDay(w.files[d], w.cal, d) {
      FilesHoldTheirOwnDay(w.found, w.log, w.cal, d);
      assert W.FileOf(w.found, w.log, w.cal, d) == W.At(w.files, d);
    }
  }

  // And on what a crash left of it: any number of lines and a part of the next.
  lemma {:induction false} CrashLeavesOwnDay(f: W.File, c: Calendar, d: Day, n: nat)
    requires OwnDay(f, c, d) && n <= |f.lines|
    ensures OwnDay(W.File(f.lines[..n], W.Part), c, d)
    decreases |f.lines| - n
  {
    if n == |f.lines| {
      assert f.lines[..n] == f.lines;
    } else {
      CrashLeavesOwnDay(f, c, d, n + 1);
      EventsUpTo(f.lines, n);
      var more := EventsOf(f.lines[..n + 1]);
      assert forall e :: e in EventsOf(f.lines[..n]) ==> e in more;
    }
  }

  // ---------- the whole directory ----------

  ghost predicate Lists(days: seq<Day>, files: map<Day, W.File>) {
    && (forall i, j :: 0 <= i < j < |days| ==> days[i] < days[j])
    && (forall i :: 0 <= i < |days| ==> days[i] in files)
    && (forall d :: d in files ==> d in days)
  }

  function Directory(days: seq<Day>, files: map<Day, W.File>): (r: seq<R.File>)
    requires forall i :: 0 <= i < |days| ==> days[i] in files
    ensures |r| == |days|
  {
    if days == [] then []
    else
      var n := |days| - 1;
      Directory(days[..n], files) + [R.File(Some(days[n]), R.Lines(files[days[n]].Read()))]
  }

  // Day by day, each in queue order.
  function Grouped(found: W.Found, log: seq<W.Entry>, c: Calendar, days: seq<Day>): seq<Event> {
    if days == [] then []
    else Grouped(found, log, c, days[..|days| - 1]) + WrittenOn(found, log, c, days[|days| - 1])
  }

  lemma {:induction false} DirectoryHolds(found: W.Found, log: seq<W.Entry>, c: Calendar, days: seq<Day>, files: map<Day, W.File>)
    requires W.Mirrors(files, found, log, c) && forall i :: 0 <= i < |days| ==> days[i] in files
    requires forall i :: 0 <= i < |days| ==> InOrder(found, log, c, days[i])
    ensures R.AllEvents(Directory(days, files)) == Grouped(found, log, c, days)
  {
    if days != [] {
      var n := |days| - 1;
      DirectoryHolds(found, log, c, days[..n], files);
      FileKeepsQueueOrder(found, log, c, days[n]);
      assert W.FileOf(found, log, c, days[n]) == W.At(files, days[n]);
      var all := Directory(days, files);
      assert all[..n] == Directory(days[..n], files);
    }
  }

  lemma {:induction false} DirectoryIsSound(c: Calendar, days: seq<Day>, files: map<Day, W.File>)
    requires c.Sane() && OwnDays(files, c) && forall i :: 0 <= i < |days| ==> days[i] in files
    ensures forall f :: f in Directory(days, files) ==> R.FiledByDay(c, f) && !R.Breaks(f)
  {
    if days != [] {
      var n := |days| - 1;
      DirectoryIsSound(c, days[..n], files);
      OwnDayRead(files[days[n]], c, days[n]);
    }
  }

  // Asks for everything, the noise included.
  const EVERYTHING: R.Query := R.Query(None, None, 0, 0, "", "", false, true, 0)

  lemma EverythingIsShown(e: Event)
    ensures R.FateOf(EVERYTHING, e) == R.Shown
  {
  }

  lemma {:induction false} AllAreListed(j: R.Judge, events: seq<Event>)
    requires forall e :: j(e) == R.Shown
    ensures R.Listed(j, events) == events && R.NoiseIn(j, events) == 0
  {
    if events != [] {
      AllAreListed(j, events[..|events| - 1]);
    }
  }

  lemma EverythingIsListed(events: seq<Event>)
    ensures R.Listed(R.JudgeOf(EVERYTHING), events) == events && R.NoiseIn(R.JudgeOf(EVERYTHING), events) == 0
  {
    var j := R.JudgeOf(EVERYTHING);
    forall e ensures j(e) == R.Shown {
      EverythingIsShown(e);
    }
    AllAreListed(j, events);
  }

  // Any query over what a closed writer left equals the query over all it
  // holds, whatever it was opened on and however its life went.
  method QueryAfterClose(w: W.Writer, days: seq<Day>, q: R.Query) returns (r: R.Result)
    requires w.Valid() && w.closed && w.cal.Sane() && OwnDays(w.found, w.cal) && Lists(days, w.files)
    ensures r.Found? && R.Answers(q, R.AllEvents(Directory(days, w.files)), r)
  {
    LeavesItsDirectorySound(w);
    DirectoryIsSound(w.cal, days, w.files);
    r := R.Read(w.cal, Directory(days, w.files), q);
  }

  // And where the days are in order, reading everything returns what was found
  // and what was written, grouped by ascending day, in queue order within a day.
  method ReadEverything(w: W.Writer, days: seq<Day>) returns (r: R.Result)
    requires w.Valid() && w.closed && w.cal.Sane() && OwnDays(w.found, w.cal) && Lists(days, w.files)
    ensures r.Found? && r.noise == 0
    ensures (forall i :: 0 <= i < |days| ==> InOrder(w.found, w.log, w.cal, days[i])) ==>
              r.events == Grouped(w.found, w.log, w.cal, days)
  {
    r := QueryAfterClose(w, days, EVERYTHING);
    EverythingIsListed(R.AllEvents(Directory(days, w.files)));
    if forall i :: 0 <= i < |days| ==> InOrder(w.found, w.log, w.cal, days[i]) {
      W.BookIsTrue(w.found, w.log, w.cal);
      DirectoryHolds(w.found, w.log, w.cal, days, w.files);
    }
  }

  // ---------- a removed file that is still open ----------

  method WriteOne(c: Calendar, e: Event, now: Time) returns (w: W.Writer)
    requires e.at != W.ZERO_TIME
    ensures fresh(w) && w.Valid() && w.written == 1 && w.dropped == 0 && !w.lastErr && !w.closed && w.queue == []
    ensures w.cal == c && w.retention == 7 * W.NANOS_PER_DAY
    ensures w.file == Some(c.dayOf(e.at)) && !w.detached && w.files.Keys == {c.dayOf(e.at)}
  {
    w := new W.Writer(c, 7, map[]);
    w.Append(e, now);
    assert w.queue == [] + [e];
    ghost var entry := w.Take(W.Done);
    assert entry == W.Filed(e);
  }

  method WriteOneAndPrune(c: Calendar, e: Event, now: Time) returns (w: W.Writer)
    requires e.at != W.ZERO_TIME && now > c.End(c.dayOf(e.at)) + 7 * W.NANOS_PER_DAY
    ensures fresh(w) && w.Valid() && w.written == 1 && w.dropped == 0 && !w.lastErr && !w.closed && w.queue == []
    ensures w.cal == c && w.file == Some(c.dayOf(e.at)) && w.detached && w.files == map[]
  {
    w := WriteOne(c, e, now);
    w.Prune(now, {});
    assert forall d :: d !in w.files;
  }

  // An event as old as a removed file that is still open goes nowhere.
  method LateEventGoesNowhere(c: Calendar, e: Event, now: Time) returns (w: W.Writer)
    requires e.at != W.ZERO_TIME && now > c.End(c.dayOf(e.at)) + 7 * W.NANOS_PER_DAY
    ensures fresh(w) && w.Valid() && w.queue == [] && w.written == 2 && w.dropped == 0 && !w.lastErr
    ensures w.files == map[] && w.log != [] && w.log[|w.log| - 1] == W.Unlinked(e)
  {
    w := WriteOneAndPrune(c, e, now);
    w.Append(e, now);
    assert w.queue == [] + [e];
    ghost var entry := w.Take(W.Done);
  }
}
