// Events, the days they are filed under, and the lines of a day file.
module Journal {

  import opened Wrappers

  // Nanoseconds.
  type Time = int

  type Day = int

  // Days are consecutive half-open stretches of time, not all equally long.
  datatype Calendar = Calendar(start: Day -> Time, dayOf: Time -> Day) {
    ghost predicate Sane() {
      && (forall a, b :: a < b ==> start(a) < start(b))
      && (forall t :: start(dayOf(t)) <= t < start(dayOf(t) + 1))
    }

    // Where the day ends.
    function End(d: Day): Time { start(d + 1) }

    predicate Within(d: Day, t: Time) { start(d) <= t < End(d) }
  }

  // Every instant lies in exactly its own day.
  lemma WithinExactly(c: Calendar, d: Day, t: Time)
    requires c.Sane()
    ensures c.Within(d, t) <==> c.dayOf(t) == d
  {
    var k := c.dayOf(t);
    assert c.start(k) <= t < c.start(k + 1);
    if k < d && k + 1 < d {
      assert c.start(k + 1) < c.start(d);
    }
    if d < k && d + 1 < k {
      assert c.start(d + 1) < c.start(k);
    }
  }

  datatype Kind = Request | Reject | Proxy | Tunnel | Cred | Doctor | Fidelity | Health

  datatype Source = Unknown | Local | ViaTunnel | Remote

  datatype Event = Event(
    at: Time, kind: Kind, route: string, model: string, ok: Option<bool>, status: int, latencyMs: int,
    canceledCause: bool, count: int, src: Source, payload: string)
  {
    predicate Failed() { kind == Request && ok == Some(false) }

    predicate Canceled() { Failed() && canceledCause }

    // Refused outside traffic; a 5xx is this deployment's own failure.
    predicate Noise() { kind == Reject && src != Local && status < 500 }

    // How many identical rejects one line stands for.
    function Weight(): int { if count == 0 then 1 else count }
  }

  // What a scan finds between two newlines.
  datatype Line = Good(event: Event) | Blank | Garbled | TooLong

  // The events on the lines, in order.
  function EventsOf(lines: seq<Line>): seq<Event> {
    if lines == [] then []
    else
      var n := |lines| - 1;
      EventsOf(lines[..n]) + if lines[n].Good? then [lines[n].event] else []
  }

  lemma EventsSnoc(lines: seq<Line>, l: Line)
    ensures EventsOf(lines + [l]) == EventsOf(lines) + if l.Good? then [l.event] else []
  {
    assert (lines + [l])[..|lines|] == lines;
  }

  lemma EventsUpTo(lines: seq<Line>, k: nat)
    requires k < |lines|
    ensures EventsOf(lines[..k + 1]) == EventsOf(lines[..k]) + if lines[k].Good? then [lines[k].event] else []
    ensures lines[..k + 1] == lines[..k] + [lines[k]]
  {
    assert lines[..k + 1] == lines[..k] + [lines[k]];
    EventsSnoc(lines[..k], lines[k]);
  }
}
