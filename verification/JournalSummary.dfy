// The numbers printed under a listing.
module JournalSummary {

  import opened Journal
  import opened Wrappers

  // ---------- sorting latencies ----------

  predicate Sorted(s: seq<int>) { forall i, j :: 0 <= i < j < |s| ==> s[i] <= s[j] }

  method SortInt64(v: array<int>)
    modifies v
    ensures Sorted(v[..]) && multiset(v[..]) == multiset(old(v[..]))
  {
    var i := 1;
    while i < v.Length
      invariant forall a, b :: 0 <= a < b < i && b < v.Length ==> v[a] <= v[b]
      invariant i >= 1 && multiset(v[..]) == multiset(old(v[..]))
    {
      var j := i;
      while j > 0 && v[j] < v[j - 1]
        invariant 0 <= j <= i
        invariant forall a, b :: 0 <= a < b <= i && b != j ==> v[a] <= v[b]
        invariant multiset(v[..]) == multiset(old(v[..]))
      {
        v[j], v[j - 1] := v[j - 1], v[j];
        j := j - 1;
      }
      i := i + 1;
    }
  }

  // How many are below x.
  function Below(s: seq<int>, x: int): nat {
    if s == [] then 0 else (if s[0] < x then 1 else 0) + Below(s[1..], x)
  }

  lemma {:induction false} BelowConcat(a: seq<int>, b: seq<int>, x: int)
    ensures Below(a + b, x) == Below(a, x) + Below(b, x)
  {
    if a == [] {
      assert a + b == b;
    } else {
      assert (a + b)[1..] == a[1..] + b;
      BelowConcat(a[1..], b, x);
    }
  }

  lemma Without(s: seq<int>, k: nat, x: int)
    requires k < |s|
    ensures Below(s, x) == Below(s[..k] + s[k + 1..], x) + if s[k] < x then 1 else 0
  {
    assert s == s[..k] + ([s[k]] + s[k + 1..]);
    BelowConcat(s[..k], [s[k]] + s[k + 1..], x);
    BelowConcat([s[k]], s[k + 1..], x);
    BelowConcat(s[..k], s[k + 1..], x);
  }

  lemma SameWithout(a: seq<int>, b: seq<int>, k: nat)
    requires a != [] && k < |b| && a[0] == b[k] && multiset(a) == multiset(b)
    ensures multiset(a[1..]) == multiset(b[..k] + b[k + 1..])
  {
    assert a == [a[0]] + a[1..];
    assert multiset(a) == multiset{a[0]} + multiset(a[1..]);
    assert b == b[..k] + [b[k]] + b[k + 1..];
    assert multiset(b) == multiset{b[k]} + multiset(b[..k] + b[k + 1..]);
    assert multiset(a[1..]) == multiset(a) - multiset{a[0]};
  }

  lemma {:induction false} BelowIgnoresOrder(a: seq<int>, b: seq<int>, x: int)
    requires multiset(a) == multiset(b)
    ensures Below(a, x) == Below(b, x)
    decreases |a|
  {
    if a == [] {
      assert |multiset(b)| == 0;
    } else {
      assert a[0] in multiset(b);
      var k :| 0 <= k < |b| && b[k] == a[0];
      SameWithout(a, b, k);
      Without(b, k, x);
      BelowIgnoresOrder(a[1..], b[..k] + b[k + 1..], x);
    }
  }

  lemma {:induction false} AllOrNone(s: seq<int>, x: int)
    ensures (forall i :: 0 <= i < |s| ==> s[i] < x) ==> Below(s, x) == |s|
    ensures (forall i :: 0 <= i < |s| ==> s[i] >= x) ==> Below(s, x) == 0
  {
    if s != [] {
      AllOrNone(s[1..], x);
      assert forall i :: 0 <= i < |s| - 1 ==> s[1..][i] == s[i + 1];
    }
  }

  lemma {:induction false} BelowIsBounded(s: seq<int>, x: int)
    ensures Below(s, x) <= |s|
  {
    if s != [] {
      BelowIsBounded(s[1..], x);
    }
  }

  lemma {:induction false} BelowOfSorted(s: seq<int>, k: nat)
    requires Sorted(s) && k < |s|
    ensures Below(s, s[k]) <= k < Below(s, s[k] + 1)
  {
    assert s == s[..k] + s[k..];
    BelowConcat(s[..k], s[k..], s[k]);
    AllOrNone(s[k..], s[k]);
    BelowIsBounded(s[..k], s[k]);
    assert s == s[..k + 1] + s[k + 1..];
    BelowConcat(s[..k + 1], s[k + 1..], s[k] + 1);
    AllOrNone(s[..k + 1], s[k] + 1);
  }

  // The value at rank k, counting from the smallest.
  ghost predicate HasRank(s: seq<int>, v: int, k: nat) { Below(s, v) <= k < Below(s, v + 1) }

  lemma {:induction false} BelowGrows(s: seq<int>, x: int, y: int)
    requires x <= y
    ensures Below(s, x) <= Below(s, y)
  {
    if s != [] {
      BelowGrows(s[1..], x, y);
    }
  }

  // It is the one found there when they are sorted.
  lemma RankExactly(s: seq<int>, sorted: seq<int>, v: int, k: nat)
    requires Sorted(sorted) && multiset(sorted) == multiset(s) && k < |sorted|
    ensures HasRank(s, v, k) <==> v == sorted[k]
  {
    BelowIgnoresOrder(sorted, s, v);
    BelowIgnoresOrder(sorted, s, v + 1);
    BelowOfSorted(sorted, k);
    if v < sorted[k] {
      BelowGrows(sorted, v + 1, sorted[k]);
    } else if v > sorted[k] {
      BelowGrows(sorted, sorted[k] + 1, v);
    }
  }

  // ---------- the summary ----------

  function Count(events: seq<Event>, p: Event -> bool): nat {
    if events == [] then 0
    else Count(events[..|events| - 1], p) + if p(events[|events| - 1]) then 1 else 0
  }

  function Weigh(events: seq<Event>, p: Event -> bool): int {
    if events == [] then 0
    else Weigh(events[..|events| - 1], p) + if p(events[|events| - 1]) then events[|events| - 1].Weight() else 0
  }

  function Where(events: seq<Event>, p: Event -> bool): set<nat> { set i | 0 <= i < |events| && p(events[i]) }

  lemma {:induction false} CountIsANumber(events: seq<Event>, p: Event -> bool)
    ensures Count(events, p) == |Where(events, p)|
  {
    if events != [] {
      var n := |events| - 1;
      CountIsANumber(events[..n], p);
      assert Where(events, p) == Where(events[..n], p) + if p(events[n]) then {n} else {};
    }
  }

  // What is counted as failed and as canceled.
  function FailedAt(events: seq<Event>): set<nat> {
    set i | 0 <= i < |events| && events[i].kind == Request && events[i].ok == Some(false) && !events[i].canceledCause
  }

  function CanceledAt(events: seq<Event>): set<nat> {
    set i | 0 <= i < |events| && events[i].kind == Request && events[i].ok == Some(false) && events[i].canceledCause
  }

  lemma FailedCount(events: seq<Event>)
    ensures Count(events, Broke) == |FailedAt(events)|
  {
    CountIsANumber(events, Broke);
    assert Where(events, Broke) == FailedAt(events);
  }

  lemma CanceledCount(events: seq<Event>)
    ensures Count(events, Canceled) == |CanceledAt(events)|
  {
    CountIsANumber(events, Canceled);
    assert Where(events, Canceled) == CanceledAt(events);
  }

  // The latencies that were measured.
  function Latencies(events: seq<Event>): seq<int> {
    if events == [] then []
    else
      var e := events[|events| - 1];
      Latencies(events[..|events| - 1]) + if e.kind == Request && e.latencyMs > 0 then [e.latencyMs] else []
  }

  // Two days' figures are those of the one and of the other, and of one event
  // these.
  lemma {:induction false} WeighConcat(a: seq<Event>, b: seq<Event>, p: Event -> bool)
    ensures Weigh(a + b, p) == Weigh(a, p) + Weigh(b, p)
    decreases |b|
  {
    if b == [] {
      assert a + b == a;
    } else {
      var n := |b| - 1;
      WeighConcat(a, b[..n], p);
      assert (a + b)[..|a + b| - 1] == a + b[..n];
    }
  }

  lemma WeighOne(e: Event, p: Event -> bool)
    ensures Weigh([e], p) == if !p(e) then 0 else if e.count == 0 then 1 else e.count
  {
    assert [e][..0] == [];
  }

  lemma {:induction false} LatenciesConcat(a: seq<Event>, b: seq<Event>)
    ensures Latencies(a + b) == Latencies(a) + Latencies(b)
    decreases |b|
  {
    if b == [] {
      assert a + b == a;
    } else {
      var n := |b| - 1;
      LatenciesConcat(a, b[..n]);
      assert (a + b)[..|a + b| - 1] == a + b[..n];
    }
  }

  lemma LatenciesOfOne(e: Event)
    ensures e.kind == Request && e.latencyMs > 0 ==> Latencies([e]) == [e.latencyMs]
    ensures e.kind != Request || e.latencyMs <= 0 ==> Latencies([e]) == []
  {
    assert [e][..0] == [];
  }

  predicate IsRequest(e: Event) { e.kind == Request }
  predicate IsReject(e: Event) { e.kind == Reject }
  predicate Canceled(e: Event) { e.Canceled() }
  predicate Broke(e: Event) { e.Failed() && !e.Canceled() }
  predicate IsNoise(e: Event) { e.Noise() }
  function BrokeWith(status: int): Event -> bool { (e: Event) => Broke(e) && e.status == status }

  datatype Summary = Summary(
    requests: nat, failed: nat, canceled: nat, rejects: int, noise: int, byStatus: map<int, nat>, slowestMs: int, p50Ms: int)

  method Summarise(events: seq<Event>) returns (s: Summary)
    ensures s.requests == Count(events, IsRequest)
    ensures s.failed == Count(events, Broke) && s.canceled == Count(events, Canceled)
    ensures s.rejects == Weigh(events, IsReject) && s.noise == Weigh(events, IsNoise)
    ensures forall st :: Count(events, BrokeWith(st)) == if st in s.byStatus then s.byStatus[st] else 0
    ensures var lat := Latencies(events);
            if lat == [] then s.slowestMs == s.p50Ms == 0
            else HasRank(lat, s.p50Ms, |lat| / 2) && HasRank(lat, s.slowestMs, |lat| - 1)
  {
    var requests, failed, canceled, rejects, noise := 0, 0, 0, 0, 0;
    var byStatus: map<int, nat> := map[];
    var lat: seq<int> := [];
    for k := 0 to |events|
      invariant requests == Count(events[..k], IsRequest)
      invariant failed == Count(events[..k], Broke) && canceled == Count(events[..k], Canceled)
      invariant rejects == Weigh(events[..k], IsReject) && noise == Weigh(events[..k], IsNoise)
      invariant forall st :: Count(events[..k], BrokeWith(st)) == if st in byStatus then byStatus[st] else 0
      invariant lat == Latencies(events[..k])
    {
      var e := events[k];
      assert events[..k + 1][..k] == events[..k];
      if e.kind == Request {
        requests := requests + 1;
        if e.Canceled() {
          canceled := canceled + 1;
        } else if e.Failed() {
          failed := failed + 1;
          byStatus := byStatus[e.status := (if e.status in byStatus then byStatus[e.status] else 0) + 1];
        }
        if e.latencyMs > 0 {
          lat := lat + [e.latencyMs];
        }
      } else if e.kind == Reject {
        rejects := rejects + e.Weight();
        if e.Noise() {
          noise := noise + e.Weight();
        }
      }
    }
    assert events[..|events|] == events;
    var slowest, p50 := 0, 0;
    if |lat| > 0 {
      slowest, p50 := Ranks(lat);
    }
    s := Summary(requests, failed, canceled, rejects, noise, byStatus, slowest, p50);
  }

  method Ranks(lat: seq<int>) returns (slowest: int, p50: int)
    requires lat != []
    ensures HasRank(lat, p50, |lat| / 2) && HasRank(lat, slowest, |lat| - 1)
  {
    var v := new int[|lat|](i requires 0 <= i < |lat| => lat[i]);
    assert v[..] == lat;
    SortInt64(v);
    slowest, p50 := v[v.Length - 1], v[v.Length / 2];
    BelowOfSorted(v[..], |lat| - 1);
    BelowOfSorted(v[..], |lat| / 2);
    BelowIgnoresOrder(v[..], lat, slowest);
    BelowIgnoresOrder(v[..], lat, slowest + 1);
    BelowIgnoresOrder(v[..], lat, p50);
    BelowIgnoresOrder(v[..], lat, p50 + 1);
  }
}
