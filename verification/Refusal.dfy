// Findings carried from the hook before a translation to the hook after it.
module Refusal {

  import opened Wrappers

  type Context = nat

  type Details = string

  const MAX_PENDING := 1024

  // What has happened to the pending map, at the instants it was touched.
  datatype Event =
    | SawRefusal(ctx: Context, details: Details)
    | SawClean(ctx: Context)
    | Consumed(ctx: Context)
    | Swept(ctx: Context) // by the emergency clear

  // The latest event about a context.
  function Latest(history: seq<Event>, ctx: Context): Option<Event> {
    if history == [] then None
    else
      var n := |history| - 1;
      if history[n].ctx == ctx then Some(history[n]) else Latest(history[..n], ctx)
  }

  predicate Pending(history: seq<Event>, ctx: Context) {
    var e := Latest(history, ctx);
    e.Some? && e.value.SawRefusal?
  }

  lemma LatestSnoc(history: seq<Event>, e: Event, ctx: Context)
    ensures Latest(history + [e], ctx) == if e.ctx == ctx then Some(e) else Latest(history, ctx)
  {
    assert (history + [e])[..|history|] == history;
  }

  lemma PendingSnoc(history: seq<Event>, e: Event)
    ensures forall x :: Pending(history + [e], x) <==> if e.ctx == x then e.SawRefusal? else Pending(history, x)
  {
    forall x ensures Latest(history + [e], x) == if e.ctx == x then Some(e) else Latest(history, x) {
      LatestSnoc(history, e, x);
    }
  }

  // A retry whose upstream body was clean is never marked on account of the
  // attempt before it.
  lemma {:induction false} CleanRetryIsNotMarked(before: seq<Event>, ctx: Context, after: seq<Event>)
    requires forall e :: e in after && e.ctx == ctx ==> !e.SawRefusal?
    ensures !Pending(before + [SawClean(ctx)] + after, ctx)
    decreases |after|
  {
    if after == [] {
      assert before + [SawClean(ctx)] + after == before + [SawClean(ctx)];
      LatestSnoc(before, SawClean(ctx), ctx);
    } else {
      var n := |after| - 1;
      CleanRetryIsNotMarked(before, ctx, after[..n]);
      LatestSnoc(before + [SawClean(ctx)] + after[..n], after[n], ctx);
      assert before + [SawClean(ctx)] + after == before + [SawClean(ctx)] + after[..n] + [after[n]];
    }
  }

  // ---------- rewriting a translated frame ----------

  datatype Choice = NotAnObject | Choice(finishReason: Option<string>)

  // A line of a frame: JSON with a list of choices, or anything else.
  datatype Line = Other(text: string) | Doc(choices: seq<Choice>)

  const STOP: string := "stop"
  const FILTERED: string := "content_filter"

  predicate Stops(c: Choice) { c.Choice? && c.finishReason == Some(STOP) }

  function Filtered(c: Choice): Choice { if Stops(c) then Choice(Some(FILTERED)) else c }

  predicate AnyStop(l: Line) { l.Doc? && exists i :: 0 <= i < |l.choices| && Stops(l.choices[i]) }

  function Marked(l: Line): Line {
    match l
    case Other(_) => l
    case Doc(choices) => Doc(seq(|choices|, i requires 0 <= i < |choices| => Filtered(choices[i])))
  }

  method SetFinishReason(choices: array<Choice>) returns (changed: bool)
    modifies choices
    ensures forall i :: 0 <= i < choices.Length ==> choices[i] == Filtered(old(choices[i]))
    ensures changed <==> exists i :: 0 <= i < choices.Length && Stops(old(choices[i]))
  {
    changed := false;
    for k := 0 to choices.Length
      invariant forall i :: 0 <= i < k ==> choices[i] == Filtered(old(choices[i]))
      invariant forall i :: k <= i < choices.Length ==> choices[i] == old(choices[i])
      invariant changed <==> exists i :: 0 <= i < k && Stops(old(choices[i]))
    {
      if Stops(choices[k]) {
        choices[k] := Choice(Some(FILTERED));
        changed := true;
      }
    }
  }

  method MarkLine(l: Line) returns (out: Line, changed: bool)
    ensures out == Marked(l) && changed == AnyStop(l)
  {
    out, changed := l, false;
    if l.Doc? {
      var choices := l.choices;
      var doc := new Choice[|choices|](i requires 0 <= i < |choices| => choices[i]);
      assert doc[..] == choices;
      changed := SetFinishReason(doc);
      assert doc[..] == Marked(l).choices;
      out := Doc(doc[..]);
    }
  }

  method MarkFrame(lines: array<Line>) returns (changed: bool)
    modifies lines
    ensures forall i :: 0 <= i < lines.Length ==> lines[i] == Marked(old(lines[i]))
    ensures changed <==> exists i :: 0 <= i < lines.Length && AnyStop(old(lines[i]))
  {
    changed := false;
    for k := 0 to lines.Length
      invariant forall i :: 0 <= i < k ==> lines[i] == Marked(old(lines[i]))
      invariant forall i :: k <= i < lines.Length ==> lines[i] == old(lines[i])
      invariant changed <==> exists i :: 0 <= i < k && AnyStop(old(lines[i]))
    {
      ghost var was := lines[k];
      var out, hit := MarkLine(lines[k]);
      if hit {
        lines[k] := out;
        changed := true;
      } else {
        MarkingOnlyStops(was);
      }
    }
  }

  // Marking changes a line exactly when some choice said "stop", leaves no
  // "stop" behind, and keeps every other finish reason.
  lemma MarkingOnlyStops(l: Line)
    ensures AnyStop(l) <==> Marked(l) != l
    ensures !AnyStop(Marked(l))
    ensures l.Doc? ==> Marked(l).Doc? && |Marked(l).choices| == |l.choices|
    ensures l.Doc? ==> forall i :: 0 <= i < |l.choices| ==>
      Marked(l).choices[i] ==
      if l.choices[i] == Choice(Some("stop")) then Choice(Some("content_filter")) else l.choices[i]
  {
    if AnyStop(l) {
      var i :| 0 <= i < |l.choices| && Stops(l.choices[i]);
      assert Marked(l).choices[i] != l.choices[i];
    }
  }

  // ---------- the dialects ----------

  type Dialect = string

  const OPENAI: string := "openai"
  const CLAUDE: string := "claude"

  function Lower(c: char): char { if 'A' <= c <= 'Z' then c + 32 as char else c }

  predicate CarriesRefusal(to: Dialect) {
    |to| == |CLAUDE| && forall i :: 0 <= i < |to| ==> Lower(to[i]) == CLAUDE[i]
  }

  lemma CarriesExactly(to: Dialect)
    ensures CarriesRefusal(to) <==> |to| == 6 && forall i :: 0 <= i < 6 ==> to[i] == "claude"[i] || to[i] == "CLAUDE"[i]
  {
  }

  predicate Rewrites(to: Dialect, lines: seq<Line>) {
    to == OPENAI && exists i :: 0 <= i < |lines| && AnyStop(lines[i])
  }

  // A body is rewritten exactly when that changes it.
  lemma SomeLineChanged(to: Dialect, was: seq<Line>, now: seq<Line>)
    requires |now| == |was| && forall i :: 0 <= i < |was| ==> now[i] == if to == OPENAI then Marked(was[i]) else was[i]
    ensures Rewrites(to, was) <==> now != was
  {
    forall i | 0 <= i < |was| ensures AnyStop(was[i]) <==> Marked(was[i]) != was[i] {
      MarkingOnlyStops(was[i]);
    }
    if Rewrites(to, was) {
      var i :| 0 <= i < |was| && AnyStop(was[i]);
      assert now[i] != was[i];
    }
  }

  // ---------- the hooks ----------

  lemma Without(m: map<Context, Details>, c: Context)
    ensures |m - {c}| == |m| - if c in m then 1 else 0
    ensures c !in m ==> m - {c} == m
  {
    if c in m {
      assert m.Keys == (m - {c}).Keys + {c};
    } else {
      assert m - {c} == m;
    }
  }

  lemma With(m: map<Context, Details>, c: Context, d: Details)
    requires c !in m
    ensures |m[c := d]| == |m| + 1
  {
    assert m[c := d].Keys == m.Keys + {c};
  }

  // What an emergency clear met when it zeroed the counter: findings stored but
  // not counted yet, findings deleted but not subtracted yet, findings held.
  datatype End = End(stored: nat, deleted: nat, held: nat)

  // The latest clear to end set the counter right by all but this.
  function Residue(ends: seq<End>): int {
    if ends == [] then 0
    else
      var last := ends[|ends| - 1];
      last.stored - last.deleted - last.held
  }

  class Hooks {
    var pending: map<Context, Details>
    var live: int

    ghost var history: seq<Event>
    ghost var stored: nat    // findings stored but not counted yet
    ghost var deleted: nat   // findings deleted but not subtracted yet
    ghost var clearing: nat  // emergency clears under way
    ghost var loose: nat     // findings they have dropped since one last ended
    ghost var ends: seq<End> // the clears that have ended

    // What every interleaving of the atomic steps below keeps: a finding is
    // pending exactly when the latest event about its context was a refusal, and
    // the counter is off by the steps and clears under way and by what the
    // latest clear met at its end.
    ghost predicate Valid()
      reads this
    {
      && (forall c :: c in pending <==> Pending(history, c))
      && live == |pending| - stored + deleted + loose + Residue(ends)
      && (clearing == 0 ==> loose == 0)
    }

    // No hook is half way.
    ghost predicate Settled()
      reads this
    {
      Resting() && clearing == 0 && live == |pending| <= MAX_PENDING
    }

    // No store or delete waits for its counter step.
    ghost predicate Resting()
      reads this
    {
      Valid() && stored == 0 && deleted == 0
    }

    // With nothing under way the counter agrees with the map exactly when no
    // clear has ever ended, or the latest one met as many findings held as were
    // waiting to be counted, less those waiting to be subtracted.
    lemma AgreesExactly()
      requires Resting() && clearing == 0
      ensures live == |pending| <==>
        ends == [] || ends[|ends| - 1].stored - ends[|ends| - 1].deleted == ends[|ends| - 1].held
      ensures live - |pending| == Residue(ends)
    {
    }

    constructor ()
      ensures Settled() && pending == map[] && history == [] && ends == []
    {
      pending, live := map[], 0;
      history, stored, deleted, clearing, loose, ends := [], 0, 0, 0, 0, [];
    }

    // ----- the atomic steps, which any number of requests interleave -----

    method LoadOrStore(c: Context, d: Details) returns (loaded: bool)
      requires Valid()
      modifies this`pending, this`history, this`stored
      ensures Valid() && loaded == (c in old(pending))
      ensures pending == if loaded then old(pending) else old(pending)[c := d]
      ensures history == old(history) + [SawRefusal(c, d)]
      ensures stored == old(stored) + if loaded then 0 else 1
    {
      PendingSnoc(history, SawRefusal(c, d));
      history := history + [SawRefusal(c, d)];
      loaded := c in pending;
      if !loaded {
        With(pending, c, d);
        pending := pending[c := d];
        stored := stored + 1;
      }
    }

    // `why` is the event this deletion stands for.
    method LoadAndDelete(c: Context, ghost why: Event) returns (loaded: bool)
      requires Valid() && why.ctx == c && !why.SawRefusal?
      modifies this`pending, this`history, this`deleted
      ensures Valid() && loaded == (c in old(pending)) && pending == old(pending) - {c}
      ensures history == old(history) + [why]
      ensures deleted == old(deleted) + if loaded then 1 else 0
    {
      PendingSnoc(history, why);
      history := history + [why];
      loaded := c in pending;
      Without(pending, c);
      if loaded {
        pending := pending - {c};
        deleted := deleted + 1;
      }
    }

    // Whoever takes the counter over the bound goes on to clear.
    method CountUp() returns (n: int)
      requires Valid() && stored > 0
      modifies this`live, this`stored, this`clearing
      ensures Valid() && n == live == old(live) + 1 && stored == old(stored) - 1
      ensures clearing == old(clearing) + if n > MAX_PENDING then 1 else 0
    {
      live := live + 1;
      stored := stored - 1;
      clearing := clearing + if live > MAX_PENDING then 1 else 0;
      return live;
    }

    method CountDown()
      requires Valid() && deleted > 0
      modifies this`live, this`deleted
      ensures Valid() && live == old(live) - 1 && deleted == old(deleted) - 1
    {
      live := live - 1;
      deleted := deleted - 1;
    }

    // One deletion of the emergency clear, which the counter does not follow.
    method SweepOne(c: Context)
      requires Valid() && clearing > 0
      modifies this`pending, this`history, this`loose
      ensures Valid() && pending == old(pending) - {c}
      ensures history == old(history) + [Swept(c)]
      ensures loose == old(loose) + if c in old(pending) then 1 else 0
    {
      PendingSnoc(history, Swept(c));
      history := history + [Swept(c)];
      Without(pending, c);
      loose := loose + if c in pending then 1 else 0;
      pending := pending - {c};
    }

    // The end of a clear. What it leaves wrong does not depend on what was
    // wrong before, only on what the others are in the middle of.
    method Reset()
      requires Valid() && clearing > 0
      modifies this`live, this`clearing, this`loose, this`ends
      ensures Valid() && live == 0 && clearing == old(clearing) - 1 && loose == 0
      ensures ends == old(ends) + [End(stored, deleted, |pending|)]
    {
      live := 0;
      clearing, loose := clearing - 1, 0;
      ends := ends + [End(stored, deleted, |pending|)];
    }

    // ----- whole hooks, run without interruption -----

    // A new finding stored and counted.
    method Record(c: Context) returns (n: int)
      requires Resting() && c !in pending
      modifies this
      ensures Resting() && pending == old(pending)[c := ""] && |pending| == |old(pending)| + 1
      ensures n == live == old(live) + 1 && loose == old(loose) && ends == old(ends)
      ensures clearing == old(clearing) + if n > MAX_PENDING then 1 else 0
    {
      var _ := LoadOrStore(c, "");
      n := CountUp();
    }

    method SweepAll() returns (count: nat)
      requires Valid() && clearing > 0
      modifies this`pending, this`history, this`loose
      ensures Valid() && pending == map[] && count == |old(pending)| && loose == old(loose) + count
    {
      count := 0;
      while pending.Keys != {}
        invariant Valid() && count + |pending| == |old(pending)| && loose == old(loose) + count
        decreases |pending|
      {
        var c :| c in pending.Keys;
        Without(pending, c);
        SweepOne(c);
        count := count + 1;
      }
    }

    method Sweep() returns (count: nat)
      requires Valid() && clearing > 0
      modifies this`pending, this`live, this`history, this`clearing, this`loose, this`ends
      ensures Valid() && pending == map[] && live == 0 && count == |old(pending)|
      ensures clearing == old(clearing) - 1 && loose == 0 && ends == old(ends) + [End(stored, deleted, 0)]
    {
      count := SweepAll();
      Reset();
    }

    method Forget(c: Context, ghost why: Event)
      requires Settled() && why.ctx == c && !why.SawRefusal?
      modifies this
      ensures Settled() && pending == old(pending) - {c}
      ensures history == old(history) + [why] && ends == old(ends)
    {
      Without(pending, c);
      var loaded := LoadAndDelete(c, why);
      if loaded {
        CountDown();
      }
    }

    // A clean body clears the context's finding, and a refusal records one
    // unless it is already there; past the bound everything is dropped.
    method Before(c: Context, found: Option<Details>) returns (reported: bool)
      requires Settled()
      modifies this
      ensures Settled()
      ensures found.None? ==> pending == old(pending) - {c} && !reported
      ensures found.Some? && c in old(pending) ==> pending == old(pending) && !reported
      ensures found.Some? && c !in old(pending) ==>
        && reported
        && pending == if |old(pending)| < 1024 then old(pending)[c := found.value] else map[]
    {
      match found {
        case None =>
          Forget(c, SawClean(c));
          reported := false;
        case Some(d) =>
          var loaded := LoadOrStore(c, d);
          reported := !loaded;
          if !loaded {
            var n := CountUp();
            if n > MAX_PENDING {
              var _ := Sweep();
            }
          }
      }
    }

    // `lines` are the translated body: one object, or the lines of a frame.
    method After(c: Context, to: Dialect, lines: array<Line>, stream: bool) returns (warned: bool)
      requires Settled()
      modifies this, lines
      ensures Settled()
      ensures c !in old(pending) ==> pending == old(pending) && lines[..] == old(lines[..]) && !warned
      ensures c in old(pending) ==>
        && (forall i :: 0 <= i < lines.Length ==>
              lines[i] == if to == "openai" then Marked(old(lines[i])) else old(lines[i]))
        && pending == (if !stream || lines[..] != old(lines[..]) then old(pending) - {c} else old(pending))
        && warned == (lines[..] == old(lines[..]) && !CarriesRefusal(to))
    {
      warned := false;
      if c !in pending {
        return;
      }
      ghost var was := lines[..];
      var changed := false;
      if to == OPENAI {
        changed := MarkFrame(lines);
      }
      assert changed == Rewrites(to, was);
      SomeLineChanged(to, was, lines[..]);
      if !stream || changed {
        Forget(c, Consumed(c));
      }
      if !changed && !CarriesRefusal(to) {
        warned := true;
      }
    }
  }

  // n more findings, one after another.
  method RecordMore(h: Hooks, first: nat, n: nat)
    requires h.Resting() && h.clearing == 0 && h.live + n <= MAX_PENDING
    requires forall x :: x in h.pending ==> x < first
    modifies h
    ensures h.Resting() && h.clearing == 0 && h.ends == old(h.ends)
    ensures |h.pending| == |old(h.pending)| + n && h.live == old(h.live) + n
    ensures forall x :: x in h.pending ==> x < first + n
  {
    for c := 0 to n
      invariant h.Resting() && h.clearing == 0 && h.ends == old(h.ends)
      invariant |h.pending| == |old(h.pending)| + c && h.live == old(h.live) + c
      invariant forall x :: x in h.pending ==> x < first + c
    {
      var _ := h.Record(first + c);
    }
  }

  // Interrupted, the emergency clear can leave the counter above the map: a
  // finding stored before the clear and counted after it.
  method ClearCanLeaveAStrayCount() returns (h: Hooks)
    ensures fresh(h) && h.Resting() && h.clearing == 0
    ensures h.pending == map[] && h.live == 1 && h.ends == [End(1, 0, 0)]
  {
    h := new Hooks();
    RecordMore(h, 0, MAX_PENDING);
    var _ := h.LoadOrStore(MAX_PENDING, "");
    var _ := h.LoadOrStore(MAX_PENDING + 1, "");
    var n := h.CountUp(); // the first of the two goes over the bound
    assert n > MAX_PENDING;
    var _ := h.Sweep();
    var _ := h.CountUp(); // and the second is counted only now
  }

  // Two requests go over the bound, the second while the first is between
  // emptying the map and zeroing the counter; a third is stored and counted,
  // far below the bound by then, while the second is there.
  method TwoClears(h: Hooks)
    requires h.Resting() && h.clearing == 0 && h.live == MAX_PENDING
    requires forall x :: x in h.pending ==> x < MAX_PENDING
    modifies h
    ensures h.Resting() && h.clearing == 0 && h.pending.Keys == {0} && h.live == 0
    ensures h.ends == old(h.ends) + [End(0, 0, 1), End(0, 0, 1)]
  {
    var first := h.Record(MAX_PENDING);
    var _ := h.SweepAll();
    var second := h.Record(0);
    h.Reset();
    var _ := h.SweepAll();
    var third := h.Record(0);
    h.Reset();
    assert first > MAX_PENDING && second > MAX_PENDING && third == 1;
  }

  // Or below it, and then more findings than the bound are held and nobody
  // clears.
  method ClearCanLoseACount() returns (h: Hooks)
    ensures fresh(h) && h.Resting() && h.clearing == 0 && h.ends == [End(0, 0, 1), End(0, 0, 1)]
    ensures |h.pending| == MAX_PENDING + 1 && h.live == MAX_PENDING
  {
    h := new Hooks();
    RecordMore(h, 0, MAX_PENDING);
    TwoClears(h);
    RecordMore(h, 1, MAX_PENDING);
  }
}
