// The relay that forwards stream chunks and severs an upstream gone silent.
//
// A script says what the environment does: when chunks arrive, how long the
// reader makes each forward block, which arm of a select with several ready
// ones is taken. Every statement is about every script.
module StallGuard {

  // A payload line that is not a JSON object says nothing; of one that is, only
  // its type and a top-level usage field matter.
  datatype Line = Ignored | Json(messageStart: bool, usage: bool)

  datatype Chunk = Chunk(payload: seq<Line>, failed: bool)

  datatype Choice =
    | Receive(wait: nat, chunk: Chunk, blocked: nat, taken: bool) // not taken: the request ended meanwhile
    | Closed(wait: nat, alive: bool)
    | Silence(extra: nat, taken: bool) // the idle timer's arm, `extra` after it could be taken
    | HungUp(wait: nat)

  datatype Out = Data(chunk: Chunk) | Stall

  datatype Note = Stalled | NoTail | ClientDrop(accounted: bool)

  // ---------- the ledger as a statement about history ----------

  predicate Opens(c: Chunk) { exists i :: 0 <= i < |c.payload| && c.payload[i].Json? && c.payload[i].messageStart }

  predicate Settles(c: Chunk) { exists i :: 0 <= i < |c.payload| && c.payload[i].Json? && c.payload[i].usage }

  predicate Armed(received: seq<Chunk>) { exists i :: 0 <= i < |received| && Opens(received[i]) }

  predicate Accounted(received: seq<Chunk>) {
    exists i :: 0 <= i < |received| && (Settles(received[i]) || received[i].failed)
  }

  method ScanLedgerSignals(payload: seq<Line>) returns (opens: bool, settles: bool)
    ensures opens <==> exists i :: 0 <= i < |payload| && payload[i].Json? && payload[i].messageStart
    ensures settles <==> exists i :: 0 <= i < |payload| && payload[i].Json? && payload[i].usage
  {
    opens, settles := false, false;
    for k := 0 to |payload|
      invariant opens <==> exists i :: 0 <= i < k && payload[i].Json? && payload[i].messageStart
      invariant settles <==> exists i :: 0 <= i < k && payload[i].Json? && payload[i].usage
    {
      if payload[k].Ignored? {
        continue;
      }
      if payload[k].messageStart {
        opens := true;
      }
      if payload[k].usage {
        settles := true;
      }
    }
  }

  // ---------- what a run amounts to ----------

  predicate Final(ch: Choice) { !(ch.Receive? && ch.taken) }

  // A run goes on until a choice ends it.
  predicate OneEnding(run: seq<Choice>) { forall i :: 0 <= i < |run| - 1 ==> !Final(run[i]) }

  function Spent(idle: nat, ch: Choice): nat {
    match ch
    case Receive(wait, _, blocked, _) => wait + blocked
    case Closed(wait, _) => wait
    case HungUp(wait) => wait
    case Silence(extra, _) => idle + extra
  }

  function Handed(ch: Choice): seq<Out> {
    if ch.Receive? && ch.taken then [Data(ch.chunk)]
    else if ch.Silence? && ch.taken then [Stall] else []
  }

  function Drop(received: seq<Chunk>): seq<Note> {
    if Armed(received) then [ClientDrop(Accounted(received))] else []
  }

  // How an ending is filed: one note at most.
  function Told(received: seq<Chunk>, ch: Choice): seq<Note> {
    match ch
    case Receive(_, _, _, taken) => if taken then [] else Drop(received)
    case HungUp(_) => Drop(received)
    case Silence(_, _) => [Stalled]
    case Closed(_, alive) =>
      if !Armed(received) then []
      else if !alive then Drop(received)
      else if Accounted(received) then [] else [NoTail]
  }

  function Received(script: seq<Choice>): seq<Chunk> {
    if script == [] then []
    else Received(script[..|script| - 1]) + (if script[|script| - 1].Receive? then [script[|script| - 1].chunk] else [])
  }

  function Forwarded(script: seq<Choice>): seq<Out> {
    if script == [] then []
    else
      var last := script[|script| - 1];
      Forwarded(script[..|script| - 1]) + Handed(last)
  }

  function Elapsed(idle: nat, script: seq<Choice>): nat {
    if script == [] then 0
    else
      var last := script[|script| - 1];
      Elapsed(idle, script[..|script| - 1]) + Spent(idle, last)
  }

  function Filed(script: seq<Choice>): seq<Note> {
    if script == [] then []
    else Told(Received(script), script[|script| - 1])
  }

  // ---------- a timer with a one-value channel ----------

  class Timer {
    var active: bool
    var deadline: nat
    var pending: bool // a value nobody has received yet

    constructor (now: nat, d: nat)
      ensures active && deadline == now + d && !pending
    {
      active, deadline, pending := true, now + d, false;
    }

    // Time has come to `now`.
    method Advance(now: nat)
      modifies this
      ensures deadline == old(deadline)
      ensures active == (old(active) && now < deadline)
      ensures pending == (old(pending) || (old(active) && deadline <= now))
    {
      if active && deadline <= now {
        active, pending := false, true;
      }
    }

    method Stop() returns (was: bool)
      modifies this`active
      ensures was == old(active) && !active
    {
      was := active;
      active := false;
    }

    // A receive that does not wait.
    method TryReceive()
      modifies this`pending
      ensures !pending
    {
      pending := false;
    }

    method Reset(now: nat, d: nat)
      modifies this`active, this`deadline
      ensures active && deadline == now + d
    {
      active, deadline := true, now + d;
    }
  }

  // ---------- the relay ----------

  lemma ArmedSnoc(received: seq<Chunk>, c: Chunk)
    ensures Armed(received + [c]) <==> Armed(received) || Opens(c)
    ensures Accounted(received + [c]) <==> Accounted(received) || Settles(c) || c.failed
  {
    var all := received + [c];
    assert all[|received|] == c;
    assert forall i :: 0 <= i < |received| ==> all[i] == received[i];
  }

  function After(received: seq<Chunk>, ch: Choice): seq<Chunk> {
    if ch.Receive? then received + [ch.chunk] else received
  }

  lemma OneMore(idle: nat, script: seq<Choice>, i: nat)
    requires i < |script|
    ensures var before, run, last := script[..i], script[..i + 1], script[i];
      && Received(run) == After(Received(before), last)
      && Forwarded(run) == Forwarded(before) + Handed(last)
      && Elapsed(idle, run) == Elapsed(idle, before) + Spent(idle, last)
      && Filed(run) == Told(Received(run), last)
  {
    assert script[..i + 1][..i] == script[..i];
  }

  // Before each wait on the upstream the window starts anew: a value the timer
  // left behind during a slow forward is thrown away with the old deadline.
  method RearmTimer(timer: Timer, now: nat, idle: nat)
    requires timer.active ==> !timer.pending
    modifies timer
    ensures timer.active && !timer.pending && timer.deadline == now + idle
  {
    var was := timer.Stop();
    if !was {
      timer.TryReceive();
    }
    timer.Reset(now, idle);
  }

  // The select's timer arm: ready once the channel holds a value.
  method TakeTimerArm(timer: Timer, now: nat, extra: nat) returns (later: nat)
    requires timer.active || timer.pending
    modifies timer
    ensures !timer.pending
    ensures later == (if old(timer.pending) then now else old(timer.deadline)) + extra
  {
    later := now;
    if !timer.pending {
      later := timer.deadline;
      timer.Advance(later);
    }
    later := later + extra;
    timer.TryReceive();
  }

  // The flags are brought up to date only while one of them can still change.
  method KeepLedger(ghost received: seq<Chunk>, armed: bool, accounted: bool, chunk: Chunk)
    returns (armed': bool, accounted': bool)
    requires armed == Armed(received) && accounted == Accounted(received)
    ensures armed' == Armed(received + [chunk]) && accounted' == Accounted(received + [chunk])
  {
    ArmedSnoc(received, chunk);
    armed', accounted' := armed, accounted;
    if !armed || !accounted {
      var opens, settles := ScanLedgerSignals(chunk.payload);
      armed' := armed || opens;
      accounted' := accounted || settles || chunk.failed;
    }
  }

  // One turn of the loop: re-arm, then whichever arm the select takes.
  method Turn(timer: Timer, idle: nat, now: nat, ghost received: seq<Chunk>, armed: bool, accounted: bool, ch: Choice)
    returns (later: nat, armed': bool, accounted': bool, out: seq<Out>, notes: seq<Note>, waited: nat)
    requires timer.active ==> !timer.pending
    requires armed == Armed(received) && accounted == Accounted(received)
    modifies timer
    ensures timer.active ==> !timer.pending
    ensures later == now + Spent(idle, ch) && out == Handed(ch)
    ensures armed' == Armed(After(received, ch)) && accounted' == Accounted(After(received, ch))
    ensures notes == Told(After(received, ch), ch)
    ensures ch.Silence? ==> waited == idle + ch.extra
  {
    armed', accounted', out, notes, waited := armed, accounted, [], [], 0;
    RearmTimer(timer, now, idle);
    var since := now;
    match ch {
      case Closed(wait, alive) =>
        later := now + wait;
        if !armed {
          return;
        }
        if !alive {
          notes := [ClientDrop(accounted)];
        } else if !accounted {
          notes := [NoTail];
        }
      case Receive(wait, chunk, blocked, taken) =>
        later := now + wait;
        timer.Advance(later);
        armed', accounted' := KeepLedger(received, armed, accounted, chunk);
        later := later + blocked;
        timer.Advance(later);
        if taken {
          out := [Data(chunk)];
        } else if armed' {
          notes := [ClientDrop(accounted')];
        }
      case Silence(extra, taken) =>
        later := TakeTimerArm(timer, now, extra);
        waited, notes := later - since, [Stalled];
        if taken {
          out := [Stall];
        }
      case HungUp(wait) =>
        later := now + wait;
        if armed {
          notes := [ClientDrop(accounted)];
        }
    }
  }

  method Pump(idle: nat, script: seq<Choice>)
    returns (sent: seq<Out>, notes: seq<Note>, armed: bool, accounted: bool, waited: nat, now: nat, used: nat)
    ensures used <= |script| && OneEnding(script[..used])
    ensures used < |script| ==> used > 0 && !(script[used - 1].Receive? && script[used - 1].taken)
    ensures var run := script[..used];
      && sent == Forwarded(run)
      && notes == Filed(run)
      && armed == Armed(Received(run))
      && accounted == Accounted(Received(run))
      && now == Elapsed(idle, run)
    ensures notes == [Stalled] ==> waited == idle + script[used - 1].extra
  {
    sent, notes, armed, accounted, waited, now, used := [], [], false, false, 0, 0, 0;
    var timer := new Timer(0, idle);
    while used < |script|
      invariant used <= |script|
      invariant forall j :: 0 <= j < used ==> !Final(script[j])
      invariant sent == Forwarded(script[..used]) && notes == [] == Filed(script[..used])
      invariant armed == Armed(Received(script[..used]))
      invariant accounted == Accounted(Received(script[..used]))
      invariant now == Elapsed(idle, script[..used])
      invariant fresh(timer) && (timer.active ==> !timer.pending)
      decreases |script| - used
    {
      OneMore(idle, script, used);
      var out: seq<Out>;
      now, armed, accounted, out, notes, waited :=
        Turn(timer, idle, now, Received(script[..used]), armed, accounted, script[used]);
      sent := sent + out;
      used := used + 1;
      if Final(script[used - 1]) {
        return;
      }
    }
  }

  // Only chunks that were taken come before the last choice.
  lemma OneEndingExactly(run: seq<Choice>)
    ensures OneEnding(run) <==> forall i :: 0 <= i < |run| - 1 ==> run[i].Receive? && run[i].taken
  {
  }

  // ---------- what follows for the stream and the journal ----------

  function AsData(received: seq<Chunk>): seq<Out> {
    if received == [] then [] else AsData(received[..|received| - 1]) + [Data(received[|received| - 1])]
  }

  lemma AsDataSnoc(received: seq<Chunk>, c: Chunk)
    ensures AsData(received + [c]) == AsData(received) + [Data(c)]
  {
    assert (received + [c])[..|received|] == received;
  }

  lemma {:induction false} ForwardedInFull(run: seq<Choice>)
    requires forall i :: 0 <= i < |run| ==> !Final(run[i])
    ensures Forwarded(run) == AsData(Received(run))
  {
    if run != [] {
      var n := |run| - 1;
      ForwardedInFull(run[..n]);
      AsDataSnoc(Received(run[..n]), run[n].chunk);
    }
  }

  // How a run ended, by its last choice.
  predicate EndedIn(run: seq<Choice>, p: Choice -> bool) { run != [] && p(run[|run| - 1]) }

  predicate Starved(ch: Choice) { ch.Silence? && ch.taken }

  predicate Missed(ch: Choice) { ch.Receive? && !ch.taken }

  // The reader gets every chunk received, in order, and nothing else, but for
  // two endings: a last chunk it was gone for is missing, and after a silence it
  // waited through it gets the stall chunk.
  lemma ReaderGetsAPrefix(run: seq<Choice>)
    requires OneEnding(run)
    ensures var all := Received(run);
      Forwarded(run) ==
      if EndedIn(run, Starved) then AsData(all) + [Stall]
      else if EndedIn(run, Missed) then AsData(all[..|all| - 1])
      else AsData(all)
    ensures EndedIn(run, Missed) ==> Received(run) != [] && run[|run| - 1].chunk == Received(run)[|Received(run)| - 1]
    ensures Stall in Forwarded(run) <==> EndedIn(run, Starved)
  {
    if run != [] {
      var n := |run| - 1;
      var before := Received(run[..n]);
      ForwardedInFull(run[..n]);
      OneMore(0, run, n);
      assert run[..n + 1] == run;
      NoStallInData(before);
      if run[n].Receive? {
        AsDataSnoc(before, run[n].chunk);
        NoStallInData(before + [run[n].chunk]);
        assert (before + [run[n].chunk])[..|before|] == before;
      }
    }
  }

  lemma {:induction false} NoStallInData(received: seq<Chunk>)
    ensures Stall !in AsData(received)
  {
    if received != [] {
      NoStallInData(received[..|received| - 1]);
    }
  }

  predicate Live(received: seq<Chunk>) {
    exists i, j :: 0 <= i < |received| && 0 <= j < |received[i].payload| &&
      received[i].payload[j].Json? && received[i].payload[j].messageStart
  }

  predicate Paid(received: seq<Chunk>) {
    || (exists i, j :: 0 <= i < |received| && 0 <= j < |received[i].payload| &&
          received[i].payload[j].Json? && received[i].payload[j].usage)
    || (exists i :: 0 <= i < |received| && received[i].failed)
  }

  lemma LedgerSpeltOut(received: seq<Chunk>)
    ensures Armed(received) <==> Live(received)
    ensures Accounted(received) <==> Paid(received)
  {
  }

  predicate ClosedAlive(ch: Choice) { ch.Closed? && ch.alive }

  predicate Abandoned(ch: Choice) { ch.HungUp? || (ch.Receive? && !ch.taken) || (ch.Closed? && !ch.alive) }

  predicate TimedOut(ch: Choice) { ch.Silence? }

  // Every ending is filed at most once. A stall is filed whoever is left to read
  // of it. Of a claude stream, "no tail" means that the upstream closed it, the
  // request alive, with neither a usage line nor an error received; "client
  // drop" that the request ended first, and whether one had been received.
  lemma EndingsAreFiledOnce(run: seq<Choice>)
    ensures var received := Received(run);
      Filed(run) ==
      if EndedIn(run, TimedOut) then [Stalled]
      else if EndedIn(run, ClosedAlive) && Live(received) && !Paid(received) then [NoTail]
      else if EndedIn(run, Abandoned) && Live(received) then [ClientDrop(Paid(received))]
      else []
  {
    LedgerSpeltOut(Received(run));
  }

  function Slower(script: seq<Choice>, i: nat, extra: nat): seq<Choice>
    requires i < |script| && script[i].Receive?
  {
    script[i := script[i].(blocked := script[i].blocked + extra)]
  }

  lemma SlowerPrefix(script: seq<Choice>, i: nat, extra: nat)
    requires i < |script| && script[i].Receive?
    ensures var n := |script| - 1; var slower := Slower(script, i, extra);
      && slower[..n] == (if i < n then Slower(script[..n], i, extra) else script[..n])
      && slower[n] == if i < n then script[n] else script[n].(blocked := script[n].blocked + extra)
  {
  }

  // A reader that takes its time moves the end of the stream by exactly that
  // time; it neither hastens nor hides a stall.
  lemma {:induction false} SlowReaderOnlyDelays(idle: nat, script: seq<Choice>, i: nat, extra: nat)
    requires i < |script| && script[i].Receive?
    ensures var slower := Slower(script, i, extra);
      && Forwarded(slower) == Forwarded(script)
      && Received(slower) == Received(script)
      && Filed(slower) == Filed(script)
      && Elapsed(idle, slower) == Elapsed(idle, script) + extra
    decreases |script|
  {
    var n := |script| - 1;
    SlowerPrefix(script, i, extra);
    if i < n {
      SlowReaderOnlyDelays(idle, script[..n], i, extra);
    }
    OneMore(idle, script, n);
    OneMore(idle, Slower(script, i, extra), n);
    assert script[..n + 1] == script && Slower(script, i, extra)[..n + 1] == Slower(script, i, extra);
  }
}
