// The journal's bounded queue, its day files, and their removal.
module JournalWriter {

  import opened Journal
  import opened Wrappers

  const QUEUE_SIZE := 4096
  const DEFAULT_RETENTION_DAYS := 7
  const NANOS_PER_DAY := 86_400_000_000_000

  // The instant no clock shows, in nanoseconds from 1970.
  const ZERO_TIME: Time := -62_135_596_800_000_000_000

  // ---------- files ----------

  // What an interrupted write left after the last newline.
  datatype Tail = Clean | Part | Whole(event: Event)

  datatype File = File(lines: seq<Line>, tail: Tail) {
    function Read(): seq<Line> {
      match tail
      case Clean => lines
      case Part => lines + [Garbled]
      case Whole(e) => lines + [Good(e)]
    }

    // A full line. It is glued to whatever an interrupted write left.
    function Appended(e: Event): File {
      File(lines + [if tail.Clean? then Good(e) else Garbled], Clean)
    }

    function Interrupted(e: Event, wrote: Wrote): File {
      match wrote
      case Nothing => this
      case Partly => File(lines, Part)
      case AllButNewline => File(lines, if tail.Clean? then Whole(e) else Part)
    }
  }

  const EMPTY: File := File([], Clean)

  datatype Wrote = Nothing | Partly | AllButNewline

  // How an attempt to write one event may end.
  datatype Attempt = NotMarshalled | NotOpened | Cut(wrote: Wrote) | Done

  // One prune: when, and which files the system refuses to remove.
  datatype Tick = Tick(now: Time, stuck: set<Day>)

  datatype Turn = Turn(ticks: seq<Tick>, attempt: Attempt)

  // ---------- what the writer has done ----------

  datatype Entry =
    | Filed(event: Event)
    | Unlinked(event: Event)          // into a file already removed
    | Unmarshalled(event: Event)
    | Unopened(event: Event)
    | Torn(event: Event, wrote: Wrote)
    | TornUnlinked(event: Event)
    | Removed(day: Day)

  // The entry is about the file of this day.
  predicate Touches(e: Entry, c: Calendar, d: Day) {
    if e.Removed? then e.day == d else (e.Filed? || e.Torn?) && c.dayOf(e.event.at) == d
  }

  // A write opens the file, creating it if need be.
  function Written(f: Option<File>, e: Entry): File
    requires e.Filed? || e.Torn?
  {
    var now := if f.Some? then f.value else EMPTY;
    if e.Filed? then now.Appended(e.event) else now.Interrupted(e.event, e.wrote)
  }

  function After(f: Option<File>, c: Calendar, e: Entry, d: Day): Option<File> {
    if !Touches(e, c, d) then f
    else if e.Removed? then None
    else Some(Written(f, e))
  }

  function At(files: map<Day, File>, d: Day): Option<File> { if d in files then Some(files[d]) else None }

  // The directory after one more entry.
  function Update(files: map<Day, File>, c: Calendar, e: Entry): map<Day, File> {
    if e.Removed? then files - {e.day}
    else if e.Filed? || e.Torn? then files[c.dayOf(e.event.at) := Written(At(files, c.dayOf(e.event.at)), e)]
    else files
  }

  // What the directory held before the writer was opened, which an earlier
  // process may have left in the middle of a line.
  type Found = map<Day, File>

  // The file of a day, from what was found and everything done since.
  function FileOf(found: Found, log: seq<Entry>, c: Calendar, d: Day): Option<File> {
    if log == [] then At(found, d)
    else After(FileOf(found, log[..|log| - 1], c, d), c, log[|log| - 1], d)
  }

  // The events taken off the queue, in order.
  function Taken(log: seq<Entry>): seq<Event> {
    if log == [] then []
    else
      var e := log[|log| - 1];
      Taken(log[..|log| - 1]) + if e.Removed? then [] else [e.event]
  }

  predicate CountsAsWritten(e: Entry) { e.Filed? || e.Unlinked? }

  predicate CountsAsFailed(e: Entry) { e.Unmarshalled? || e.Unopened? || e.Torn? || e.TornUnlinked? }

  function WrittenIn(log: seq<Entry>): nat {
    if log == [] then 0 else WrittenIn(log[..|log| - 1]) + if CountsAsWritten(log[|log| - 1]) then 1 else 0
  }

  function FailedIn(log: seq<Entry>): nat {
    if log == [] then 0 else FailedIn(log[..|log| - 1]) + if CountsAsFailed(log[|log| - 1]) then 1 else 0
  }

  lemma LogSnoc(log: seq<Entry>, e: Entry)
    ensures Taken(log + [e]) == Taken(log) + if e.Removed? then [] else [e.event]
    ensures WrittenIn(log + [e]) == WrittenIn(log) + if CountsAsWritten(e) then 1 else 0
    ensures FailedIn(log + [e]) == FailedIn(log) + if CountsAsFailed(e) then 1 else 0
  {
    assert (log + [e])[..|log|] == log;
  }

  // The directory holds what the log says.
  ghost predicate Mirrors(files: map<Day, File>, found: Found, log: seq<Entry>, c: Calendar) {
    forall d :: FileOf(found, log, c, d) == At(files, d)
  }

  lemma FileSnoc(found: Found, log: seq<Entry>, c: Calendar, e: Entry, d: Day)
    ensures FileOf(found, log + [e], c, d) == After(FileOf(found, log, c, d), c, e, d)
  {
    assert (log + [e])[..|log|] == log;
  }

  lemma MirrorsSnoc(files: map<Day, File>, found: Found, log: seq<Entry>, c: Calendar, e: Entry)
    requires Mirrors(files, found, log, c)
    ensures Mirrors(Update(files, c, e), found, log + [e], c)
  {
    forall d ensures FileOf(found, log + [e], c, d) == At(Update(files, c, e), d) {
      FileSnoc(found, log, c, e, d);
    }
  }

  // Everything taken off the queue was either written or failed.
  lemma {:induction false} TakenAreAccountedFor(log: seq<Entry>)
    ensures |Taken(log)| == WrittenIn(log) + FailedIn(log)
  {
    if log != [] {
      TakenAreAccountedFor(log[..|log| - 1]);
    }
  }

  // The directory lists its files in no particular order.
  method AnyOf<T(==)>(days: set<T>) returns (d: T)
    requires days != {}
    ensures d in days
  {
    d :| d in days;
  }

  // ---------- the log in one pass ----------

  datatype Book = Book(files: map<Day, File>, taken: seq<Event>, written: nat, failed: nat)

  function Enter(c: Calendar, b: Book, e: Entry): Book {
    Book(Update(b.files, c, e), b.taken + (if e.Removed? then [] else [e.event]),
         b.written + (if CountsAsWritten(e) then 1 else 0), b.failed + (if CountsAsFailed(e) then 1 else 0))
  }

  function BookOf(found: Found, log: seq<Entry>, c: Calendar): Book {
    if log == [] then Book(found, [], 0, 0) else Enter(c, BookOf(found, log[..|log| - 1], c), log[|log| - 1])
  }

  lemma BookSnoc(found: Found, log: seq<Entry>, c: Calendar, e: Entry)
    ensures BookOf(found, log + [e], c) == Enter(c, BookOf(found, log, c), e)
  {
    assert (log + [e])[..|log|] == log;
  }

  lemma NextBook(found: Found, log: seq<Entry>, c: Calendar, b: Book, e: Entry) returns (next: Book)
    requires b == BookOf(found, log, c) && !e.Removed?
    ensures next == BookOf(found, log + [e], c) == Enter(c, b, e)
    ensures next.files == Update(b.files, c, e) && next.taken == b.taken + [e.event]
    ensures next.written == b.written + if CountsAsWritten(e) then 1 else 0
  {
    BookSnoc(found, log, c, e);
    next := Enter(c, b, e);
  }

  // What the book says of the log: day by day the files, and the counts.
  lemma {:induction false} BookIsTrue(found: Found, log: seq<Entry>, c: Calendar)
    ensures Mirrors(BookOf(found, log, c).files, found, log, c)
    ensures BookOf(found, log, c).taken == Taken(log)
    ensures BookOf(found, log, c).written == WrittenIn(log) && BookOf(found, log, c).failed == FailedIn(log)
  {
    if log != [] {
      var n := |log| - 1;
      BookIsTrue(found, log[..n], c);
      MirrorsSnoc(BookOf(found, log[..n], c).files, found, log[..n], c, log[n]);
      assert log[..n] + [log[n]] == log;
    }
  }

  // What becomes of an event. A file still open for its day is used even if
  // it was removed.
  function Outcome(open: bool, detached: bool, e: Event, attempt: Attempt): (r: Entry)
    ensures !r.Removed? && r.event == e
    ensures CountsAsWritten(r) <==> attempt.Done? || (attempt.NotOpened? && open)
    ensures CountsAsFailed(r) <==> !CountsAsWritten(r)
    ensures r.Unlinked? || r.TornUnlinked? ==> open && detached
  {
    var gone := open && detached;
    match attempt
    case NotMarshalled => Unmarshalled(e)
    case NotOpened => if !open then Unopened(e) else if gone then Unlinked(e) else Filed(e)
    case Cut(wrote) => if gone then TornUnlinked(e) else Torn(e, wrote)
    case Done => if gone then Unlinked(e) else Filed(e)
  }

  // ---------- the writer ----------

  class Writer {
    const cal: Calendar
    const retention: Time
    var queue: seq<Event>
    var closed: bool
    var files: map<Day, File>
    var file: Option<Day> // the open file
    var detached: bool    // the open file has been removed from the directory
    var dropped: nat
    var written: nat
    var lastErr: bool

    ghost const found: Found
    ghost var appends: nat
    ghost var accepted: seq<Event>
    ghost var log: seq<Entry>
    ghost var book: Book

    ghost predicate Valid()
      reads this
    {
      && retention > 0
      && |queue| <= QUEUE_SIZE
      && book == BookOf(found, log, cal)
      && files == book.files && written == book.written
      && accepted == book.taken + queue
      && appends == |accepted| + dropped
      && (file.Some? && !detached ==> file.value in files)
    }

    // Opens the directory as it is. The first prune comes before the first
    // write, but after any number of appends.
    constructor (cal: Calendar, retentionDays: int, found: Found)
      ensures Valid() && this.found == found && files == found
      ensures this.cal == cal && !closed && log == [] && accepted == [] && appends == 0
      ensures file == None && !detached && !lastErr
      ensures retention == (if retentionDays <= 0 then 7 else retentionDays) * 24 * 3_600_000_000_000
    {
      this.cal := cal;
      var days := if retentionDays <= 0 then DEFAULT_RETENTION_DAYS else retentionDays;
      retention := days * NANOS_PER_DAY;
      this.found := found;
      queue, closed, files, file, detached := [], false, found, None, false;
      dropped, written, lastErr := 0, 0, false;
      appends, accepted, log, book := 0, [], [], Book(found, [], 0, 0);
    }

    // Never waits: a full queue drops the event and counts it.
    method Append(e: Event, now: Time)
      requires Valid() && !closed
      modifies this`queue, this`dropped, this`appends, this`accepted
      ensures Valid() && appends == old(appends) + 1
      ensures var x := if e.at == ZERO_TIME then e.(at := now) else e;
              if |old(queue)| < 4096
              then queue == old(queue) + [x] && accepted == old(accepted) + [x] && dropped == old(dropped)
              else queue == old(queue) && accepted == old(accepted) && dropped == old(dropped) + 1
    {
      var x := if e.at == ZERO_TIME then e.(at := now) else e;
      appends := appends + 1;
      if |queue| < QUEUE_SIZE {
        queue := queue + [x];
        accepted := accepted + [x];
      } else {
        dropped := dropped + 1;
      }
    }

    // Closes the file of another day and opens the one for `day`.
    method OpenFor(day: Day, attempt: Attempt) returns (ok: bool)
      requires !attempt.NotMarshalled?
      modifies this`files, this`file, this`detached, this`lastErr
      ensures ok == (old(file) == Some(day) || !attempt.NotOpened?)
      ensures !ok ==> file == None && files == old(files) && detached == old(detached) && lastErr
      ensures ok ==> lastErr == old(lastErr) && file == Some(day) && detached == (old(detached) && old(file) == file)
      ensures ok ==> files == if old(file) == file || day in old(files) then old(files) else old(files)[day := EMPTY]
    {
      if file == Some(day) {
        return true;
      }
      if attempt.NotOpened? {
        lastErr, file := true, None;
        return false;
      }
      file, detached := Some(day), false;
      if day !in files {
        files := files[day := EMPTY];
      }
      return true;
    }

    // An attempt that could not open matters only when a file has to be
    // opened.
    method Write(e: Event, attempt: Attempt, ghost entry: Entry)
      requires file.Some? && !detached ==> file.value in files
      requires entry == Outcome(file == Some(cal.dayOf(e.at)), detached, e, attempt)
      modifies this`files, this`file, this`detached, this`written, this`lastErr
      ensures files == Update(old(files), cal, entry)
      ensures file.Some? && !detached ==> file.value in files
      ensures written == old(written) + if CountsAsWritten(entry) then 1 else 0
      ensures CountsAsFailed(entry) ==> lastErr
      ensures CountsAsWritten(entry) ==>
                lastErr == old(lastErr) && file == Some(cal.dayOf(e.at)) && detached == (old(detached) && old(file) == file)
    {
      if attempt.NotMarshalled? {
        lastErr := true;
        return;
      }
      var day := cal.dayOf(e.at);
      var ok := OpenFor(day, attempt);
      if !ok {
        return;
      }
      if !detached {
        files := files[day := if attempt.Cut? then files[day].Interrupted(e, attempt.wrote) else files[day].Appended(e)];
      }
      if attempt.Cut? {
        lastErr := true;
        return;
      }
      written := written + 1;
    }

    method Pop() returns (e: Event)
      requires queue != [] && accepted == book.taken + queue
      modifies this`queue
      ensures e == old(queue[0]) && |queue| == |old(queue)| - 1
      ensures accepted == book.taken + [e] + queue
    {
      e := queue[0];
      assert queue == [e] + queue[1..];
      queue := queue[1..];
    }

    // Takes an event off the queue and writes it down as what it became.
    method Take(attempt: Attempt) returns (ghost entry: Entry)
      requires Valid() && queue != []
      modifies this`queue, this`files, this`file, this`detached, this`written, this`lastErr, this`log, this`book
      ensures Valid() && |queue| == |old(queue)| - 1 && log == old(log) + [entry]
      ensures entry == Outcome(old(file) == Some(cal.dayOf(entry.event.at)), old(detached), old(queue[0]), attempt)
      ensures book == Enter(cal, old(book), entry)
      ensures CountsAsWritten(entry) ==>
                lastErr == old(lastErr) && file == Some(cal.dayOf(entry.event.at)) && detached == (old(detached) && old(file) == file)
    {
      var e := Pop();
      entry := Outcome(file == Some(cal.dayOf(e.at)), detached, e, attempt);
      Write(e, attempt, entry);
      Note(entry);
    }

    // What has been done is entered in the log.
    ghost method Note(entry: Entry)
      requires retention > 0 && |queue| <= QUEUE_SIZE && appends == |accepted| + dropped
      requires (file.Some? && !detached ==> file.value in files) && book == BookOf(found, log, cal)
      requires !entry.Removed? && accepted == book.taken + [entry.event] + queue
      requires files == Update(book.files, cal, entry)
      requires written == book.written + if CountsAsWritten(entry) then 1 else 0
      modifies this`log, this`book
      ensures Valid() && log == old(log) + [entry] && book == Enter(cal, old(book), entry)
    {
      var next := NextBook(found, log, cal, book, entry);
      log, book := log + [entry], next;
    }

    predicate Expired(d: Day, now: Time) { cal.End(d) < now - retention }

    // `stuck` are the files the system refuses to remove.
    method Prune(now: Time, stuck: set<Day>)
      requires Valid()
      modifies this`files, this`detached, this`log, this`book
      ensures Valid() && old(log) <= log && book.taken == old(book).taken && book.failed == old(book).failed
      ensures detached == (old(detached) || (file.Some? && file.value in old(files) && file.value !in files))
      ensures forall d :: d in files <==> d in old(files) && !(Expired(d, now) && d !in stuck)
      ensures forall d :: d in files ==> files[d] == old(files)[d]
      ensures forall k :: |old(log)| <= k < |log| ==> log[k].Removed? && Expired(log[k].day, now)
      // No event inside the retention window is lost.
      ensures forall d, t :: d in old(files) && cal.Within(d, t) && t >= now - retention ==>
                d in files && files[d] == old(files)[d]
    {
      var todo := files.Keys;
      while todo != {}
        invariant Valid() && old(log) <= log && todo <= old(files).Keys
        invariant book.taken == old(book).taken && book.failed == old(book).failed
        invariant forall d :: d in files <==> d in old(files) && (d in todo || !(Expired(d, now) && d !in stuck))
        invariant forall d :: d in files ==> files[d] == old(files)[d]
        invariant detached == (old(detached) || (file.Some? && file.value in old(files) && file.value !in files))
        invariant forall k :: |old(log)| <= k < |log| ==> log[k].Removed? && Expired(log[k].day, now)
        decreases |todo|
      {
        var d := AnyOf(todo);
        todo := todo - {d};
        if Expired(d, now) && d !in stuck {
          Remove(d);
        }
      }
    }

    method Remove(d: Day)
      requires Valid() && d in files
      modifies this`files, this`detached, this`log, this`book
      ensures Valid() && files == old(files) - {d} && log == old(log) + [Removed(d)]
      ensures book.taken == old(book).taken && book.failed == old(book).failed
      ensures detached == (old(detached) || file == Some(d))
    {
      BookSnoc(found, log, cal, Removed(d));
      assert book.taken + [] == book.taken;
      log, book := log + [Removed(d)], Enter(cal, book, Removed(d));
      files := files - {d};
      if file == Some(d) {
        detached := true;
      }
    }

    // The hourly ticks that come between two writes.
    method PruneAll(ticks: seq<Tick>, ghost latest: Time)
      requires Valid() && forall t :: t in ticks ==> t.now <= latest
      modifies this`files, this`detached, this`log, this`book
      ensures Valid() && old(log) <= log && book.taken == old(book).taken && book.failed == old(book).failed
      ensures forall k :: |old(log)| <= k < |log| ==> log[k].Removed? && Expired(log[k].day, latest)
      ensures forall d :: d in old(files) && !Expired(d, latest) ==> d in files
      ensures ticks == [] ==> log == old(log) && files == old(files)
    {
      for i := 0 to |ticks|
        invariant Valid() && old(log) <= log && book.taken == old(book).taken && book.failed == old(book).failed
        invariant forall k :: |old(log)| <= k < |log| ==> log[k].Removed? && Expired(log[k].day, latest)
        invariant forall d :: d in old(files) && !Expired(d, latest) ==> d in files
        invariant i == 0 ==> log == old(log) && files == old(files)
      {
        Prune(ticks[i].now, ticks[i].stuck);
      }
    }

    // What may happen to the directory while the queue drains.
    static ghost predicate OnlyPruned(cal: Calendar, retention: Time, before: seq<Entry>, after: seq<Entry>, latest: Time) {
      && before <= after
      && forall k :: |before| <= k < |after| && after[k].Removed? ==> cal.End(after[k].day) < latest - retention
    }

    static ghost predicate Undisturbed(before: seq<Entry>, after: seq<Entry>) {
      before <= after && forall k :: |before| <= k < |after| ==> !after[k].Removed?
    }

    // One turn of the drain: the ticks served first, then a write.
    method DrainOne(turn: Turn, ghost latest: Time)
      requires Valid() && queue != [] && forall t :: t in turn.ticks ==> t.now <= latest
      modifies this`queue, this`files, this`file, this`detached, this`written, this`lastErr, this`log, this`book
      ensures Valid() && |queue| == |old(queue)| - 1
      ensures OnlyPruned(cal, retention, old(log), log, latest)
      ensures forall d :: d in old(files) && !Expired(d, latest) ==> d in files
      ensures turn.ticks == [] ==> Undisturbed(old(log), log) && files.Keys >= old(files).Keys
      ensures turn.attempt.Done? ==> book.failed == old(book).failed
    {
      PruneAll(turn.ticks, latest);
      ghost var _ := Take(turn.attempt);
    }

    // Drains the queue, then lets go of the file. While it drains, pruning goes
    // on: a turn is the ticks served before the next event, and how its write
    // ends. The last turn has ticks only.
    method Close(turns: nat -> Turn, ghost latest: Time)
      requires Valid() && !closed && forall i, t :: t in turns(i).ticks ==> t.now <= latest
      modifies this
      ensures Valid() && closed && queue == [] && file == None
      ensures book.taken == accepted == old(accepted) && appends == old(appends) && dropped == old(dropped)
      ensures OnlyPruned(cal, retention, old(log), log, latest)
      ensures forall d :: d in old(files) && !Expired(d, latest) ==> d in files
      ensures (forall i :: turns(i).ticks == []) ==> Undisturbed(old(log), log) && files.Keys >= old(files).Keys
      ensures (forall i :: turns(i).attempt.Done?) ==> book.failed == old(book).failed
    {
      closed := true;
      ghost var quiet := forall i :: turns(i).ticks == [];
      ghost var smooth := forall i :: turns(i).attempt.Done?;
      var k := 0;
      while queue != []
        invariant Valid() && closed && accepted == old(accepted) && appends == old(appends) && dropped == old(dropped)
        invariant OnlyPruned(cal, retention, old(log), log, latest)
        invariant forall d :: d in old(files) && !Expired(d, latest) ==> d in files
        invariant quiet ==> Undisturbed(old(log), log) && files.Keys >= old(files).Keys
        invariant smooth ==> book.failed == old(book).failed
        decreases |queue|
      {
        DrainOne(turns(k), latest);
        k := k + 1;
      }
      PruneAll(turns(k).ticks, latest);
      file := None;
    }

    // Every event handed over is waiting, written, dropped or failed.
    lemma Conserved()
      requires Valid()
      ensures appends == |queue| + written + dropped + FailedIn(log)
    {
      BookIsTrue(found, log, cal);
      TakenAreAccountedFor(log);
    }
  }
}
