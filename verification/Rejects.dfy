// Folding refused requests: one journal line per key and window.
module Rejects {

  datatype Source = Local | Tunnel | Remote

  datatype Key = Key(verb: string, path: string, status: int, src: Source)

  datatype Refusal = Refusal(key: Key, at: int)

  // A flush after its swap: what it still has to emit.
  datatype Flight = Flight(left: map<Key, nat>, at: map<Key, int>)

  // The stretch adds[lo..hi] a flush was cut from.
  datatype Span = Span(lo: nat, hi: nat)

  // One emitted line. It stands for the adds of its key in its span.
  datatype Batch = Batch(key: Key, count: nat, at: int, span: Span)

  function Count(adds: seq<Refusal>, k: Key): nat {
    if adds == [] then 0
    else
      var n := |adds| - 1;
      Count(adds[..n], k) + (if adds[n].key == k then 1 else 0)
  }

  function First(adds: seq<Refusal>, k: Key): int
    requires Count(adds, k) > 0
  {
    var n := |adds| - 1;
    if Count(adds[..n], k) > 0 then First(adds[..n], k) else adds[n].at
  }

  lemma {:induction false} FirstIsTheEarliestAdded(adds: seq<Refusal>, k: Key) returns (i: nat)
    requires Count(adds, k) > 0
    ensures i < |adds| && adds[i] == Refusal(k, First(adds, k))
    ensures forall j :: 0 <= j < i ==> adds[j].key != k
  {
    var n := |adds| - 1;
    if Count(adds[..n], k) > 0 {
      i := FirstIsTheEarliestAdded(adds[..n], k);
    } else {
      i := n;
      NoneCounted(adds[..n], k);
    }
  }

  lemma {:induction false} NoneCounted(adds: seq<Refusal>, k: Key)
    requires Count(adds, k) == 0
    ensures forall j :: 0 <= j < |adds| ==> adds[j].key != k
  {
    if adds != [] {
      NoneCounted(adds[..|adds| - 1], k);
    }
  }

  ghost predicate CountsOneMore(adds: seq<Refusal>, x: Refusal, k: Key) {
    && Count(adds + [x], k) == Count(adds, k) + (if x.key == k then 1 else 0)
    && (Count(adds + [x], k) > 0 ==>
          First(adds + [x], k) == if Count(adds, k) > 0 then First(adds, k) else x.at)
  }

  lemma AddSnoc(adds: seq<Refusal>, x: Refusal, k: Key)
    ensures CountsOneMore(adds, x, k)
  {
    assert (adds + [x])[..|adds|] == adds;
  }

  function Get(m: map<Key, nat>, k: Key): nat { if k in m then m[k] else 0 }

  function InFlight(flights: seq<Flight>, k: Key): nat {
    if flights == [] then 0
    else InFlight(flights[..|flights| - 1], k) + Get(flights[|flights| - 1].left, k)
  }

  function Emitted(out: seq<Batch>, k: Key): nat {
    if out == [] then 0
    else
      var last := out[|out| - 1];
      Emitted(out[..|out| - 1], k) + (if last.key == k then last.count else 0)
  }

  lemma {:induction false} FlightUpdate(flights: seq<Flight>, i: nat, f: Flight, k: Key)
    requires i < |flights|
    ensures InFlight(flights[i := f], k) + Get(flights[i].left, k) == InFlight(flights, k) + Get(f.left, k)
  {
    var n := |flights| - 1;
    if i < n {
      FlightUpdate(flights[..n], i, f, k);
      assert flights[i := f][..n] == flights[..n][i := f];
    } else {
      assert flights[i := f][..n] == flights[..n];
    }
  }

  // A counter map that agrees with a stretch of adds.
  ghost predicate Tallies(counts: map<Key, nat>, at: map<Key, int>, adds: seq<Refusal>) {
    && at.Keys == counts.Keys
    && forall k :: (k in counts <==> Count(adds, k) > 0)
         && (k in counts ==> counts[k] == Count(adds, k) && at[k] == First(adds, k))
  }

  // A flight holds entries of its stretch, not necessarily all of them still.
  ghost predicate Carries(f: Flight, span: Span, adds: seq<Refusal>) {
    && span.lo <= span.hi <= |adds|
    && f.left.Keys <= f.at.Keys
    && forall k :: k in f.left ==>
         && Count(adds[span.lo..span.hi], k) == f.left[k] > 0
         && f.at[k] == First(adds[span.lo..span.hi], k)
  }

  ghost predicate Honest(b: Batch, adds: seq<Refusal>) {
    && b.span.lo <= b.span.hi <= |adds|
    && b.count == Count(adds[b.span.lo..b.span.hi], b.key) > 0
    && b.at == First(adds[b.span.lo..b.span.hi], b.key)
  }

  lemma TalliesOneMore(counts: map<Key, nat>, at: map<Key, int>, adds: seq<Refusal>, x: Refusal)
    requires Tallies(counts, at, adds)
    ensures Tallies(counts[x.key := Get(counts, x.key) + 1],
                    if Get(counts, x.key) == 0 then at[x.key := x.at] else at, adds + [x])
  {
    forall k ensures CountsOneMore(adds, x, k) {
      AddSnoc(adds, x, k);
    }
  }

  lemma PastStays(adds: seq<Refusal>, x: Refusal, flights: seq<Flight>, spans: seq<Span>, emitted: seq<Batch>)
    requires |spans| == |flights|
    requires forall i :: 0 <= i < |flights| ==> Carries(flights[i], spans[i], adds)
    requires forall i :: 0 <= i < |emitted| ==> Honest(emitted[i], adds)
    ensures forall i :: 0 <= i < |flights| ==> Carries(flights[i], spans[i], adds + [x])
    ensures forall i :: 0 <= i < |emitted| ==> Honest(emitted[i], adds + [x])
  {
    forall i | 0 <= i < |flights| ensures Carries(flights[i], spans[i], adds + [x]) {
      assert (adds + [x])[spans[i].lo..spans[i].hi] == adds[spans[i].lo..spans[i].hi];
    }
    forall i | 0 <= i < |emitted| ensures Honest(emitted[i], adds + [x]) {
      var s := emitted[i].span;
      assert (adds + [x])[s.lo..s.hi] == adds[s.lo..s.hi];
    }
  }

  class Folder {
    var counts: map<Key, nat>
    var firstAt: map<Key, int>
    var flights: seq<Flight>
    var closed: bool

    ghost var adds: seq<Refusal>  // every Add, in lock order
    ghost var mark: nat       // where the latest swap cut it
    ghost var spans: seq<Span>
    ghost var emitted: seq<Batch>

    // Nothing is lost and nothing counted twice, key by key; and every line
    // emitted tells the truth about its stretch.
    ghost predicate Valid()
      reads this
    {
      && mark <= |adds|
      && Tallies(counts, firstAt, adds[mark..])
      && |spans| == |flights|
      && (forall i :: 0 <= i < |flights| ==> Carries(flights[i], spans[i], adds))
      && (forall i :: 0 <= i < |emitted| ==> Honest(emitted[i], adds))
      && Conserved()
    }

    ghost predicate Conserved()
      reads this
    {
      forall k :: Count(adds, k) == Get(counts, k) + InFlight(flights, k) + Emitted(emitted, k)
    }

    constructor ()
      ensures Valid() && adds == [] && emitted == [] && flights == []
    {
      counts, firstAt, flights, closed := map[], map[], [], false;
      adds, mark, spans, emitted := [], 0, [], [];
    }

    method Add(k: Key, at: int)
      requires Valid()
      modifies this`counts, this`firstAt, this`adds
      ensures Valid() && adds == old(adds) + [Refusal(k, at)]
    {
      ghost var x := Refusal(k, at);
      assert (adds + [x])[mark..] == adds[mark..] + [x];
      TalliesOneMore(counts, firstAt, adds[mark..], x);
      PastStays(adds, x, flights, spans, emitted);
      forall k' ensures CountsOneMore(adds, x, k') {
        AddSnoc(adds, x, k');
      }
      if Get(counts, k) == 0 {
        firstAt := firstAt[k := at];
      }
      counts := counts[k := Get(counts, k) + 1];
      adds := adds + [x];
    }

    // flush, the locked half: take the maps, leave fresh ones.
    method Swap()
      requires Valid()
      modifies this`counts, this`firstAt, this`flights, this`spans, this`mark
      ensures Valid() && counts == map[] && firstAt == map[] && mark == |adds|
      ensures flights == old(flights) + [Flight(old(counts), old(firstAt))]
      ensures spans == old(spans) + [Span(old(mark), |adds|)]
    {
      assert adds[mark..|adds|] == adds[mark..];
      flights := flights + [Flight(counts, firstAt)];
      spans := spans + [Span(mark, |adds|)];
      assert flights[..|flights| - 1] == old(flights);
      counts, firstAt, mark := map[], map[], |adds|;
      assert adds[mark..] == [];
    }

    // flush, the unlocked half: one line of one flush in flight. Go iterates
    // the map in no particular order, and several flushes may be at it.
    method EmitOne(i: nat, k: Key)
      requires Valid() && i < |flights| && k in flights[i].left
      modifies this`flights, this`emitted
      ensures Valid()
      ensures var f := old(flights)[i];
        && flights == old(flights)[i := f.(left := f.left - {k})]
        && emitted == old(emitted) + [Batch(k, f.left[k], f.at[k], spans[i])]
    {
      var f := flights[i];
      ghost var b := Batch(k, f.left[k], f.at[k], spans[i]);
      ghost var f' := f.(left := f.left - {k});
      forall k' ensures InFlight(flights[i := f'], k') + Emitted(emitted + [b], k') == InFlight(flights, k') + Emitted(emitted, k') {
        FlightUpdate(flights, i, f', k');
        assert (emitted + [b])[..|emitted|] == emitted;
      }
      flights := flights[i := f.(left := f.left - {k})];
      emitted := emitted + [b];
    }

    // The last flush; a second Close does nothing.
    method Close()
      requires Valid()
      modifies this
      ensures Valid() && adds == old(adds) && closed
      ensures old(closed) ==> flights == old(flights) && counts == old(counts) && emitted == old(emitted)
      ensures !old(closed) ==>
        && counts == map[] && |flights| == |old(flights)| + 1
        && flights[..|old(flights)|] == old(flights)
        && flights[|old(flights)|].left == map[]
    {
      if closed {
        return;
      }
      closed := true;
      var mine := |flights|;
      Swap();
      while flights[mine].left != map[]
        invariant Valid() && closed && adds == old(adds) && counts == map[]
        invariant |flights| == mine + 1 && flights[..mine] == old(flights)
        decreases |flights[mine].left|
      {
        var k :| k in flights[mine].left;
        EmitOne(mine, k);
      }
    }
  }

  // With every flush through and nothing pending, the lines emitted account for
  // every refused request.
  lemma {:induction false} DrainedFlights(flights: seq<Flight>, k: Key)
    requires forall i :: 0 <= i < |flights| ==> flights[i].left == map[]
    ensures InFlight(flights, k) == 0
  {
    if flights != [] {
      DrainedFlights(flights[..|flights| - 1], k);
    }
  }

  lemma AllEmittedWhenDrained(f: Folder)
    requires f.Valid() && f.counts == map[]
    requires forall i :: 0 <= i < |f.flights| ==> f.flights[i].left == map[]
    ensures forall k :: Emitted(f.emitted, k) == Count(f.adds, k)
  {
    forall k ensures Emitted(f.emitted, k) == Count(f.adds, k) {
      DrainedFlights(f.flights, k);
    }
  }
}
