// The in-memory window of completed requests.
module Collector {

  import opened Strings

  datatype Sample = Sample(at: int, route: string, ttft: nat)

  const WINDOW: nat := 3_600_000
  const MINUTE: nat := 60_000

  // ---------- the window as a filter of everything ever recorded ----------

  function Since(samples: seq<Sample>, cut: int): seq<Sample> {
    if samples == [] then []
    else
      var n := |samples| - 1;
      Since(samples[..n], cut) + (if samples[n].at >= cut then [samples[n]] else [])
  }

  lemma SinceSnoc(samples: seq<Sample>, s: Sample, cut: int)
    ensures Since(samples + [s], cut) == Since(samples, cut) + (if s.at >= cut then [s] else [])
  {
    assert (samples + [s])[..|samples|] == samples;
  }

  lemma SinceUpTo(samples: seq<Sample>, i: nat, cut: int)
    requires i < |samples|
    ensures Since(samples[..i + 1], cut) == Since(samples[..i], cut) + (if samples[i].at >= cut then [samples[i]] else [])
  {
    assert samples[..i + 1] == samples[..i] + [samples[i]];
    SinceSnoc(samples[..i], samples[i], cut);
  }

  // Pruning what has been pruned before is pruning everything at once.
  lemma {:induction false} PruningAgain(samples: seq<Sample>, early: int, later: int)
    requires early <= later
    ensures Since(Since(samples, early), later) == Since(samples, later)
  {
    if samples != [] {
      var n := |samples| - 1;
      PruningAgain(samples[..n], early, later);
      SinceSnoc(Since(samples[..n], early), samples[n], later);
      assert Since(samples[..n], early) + [] == Since(samples[..n], early);
    }
  }

  // A clock that went back makes a difference exactly when it brings a pruned
  // sample's time back into the window.
  lemma {:induction false} PruningAgainExactly(samples: seq<Sample>, first: int, second: int)
    ensures Since(Since(samples, first), second) == Since(samples, second)
       <==> forall i :: 0 <= i < |samples| && samples[i].at >= second ==> samples[i].at >= first
    ensures |Since(Since(samples, first), second)| <= |Since(samples, second)|
  {
    if samples != [] {
      var n := |samples| - 1;
      PruningAgainExactly(samples[..n], first, second);
      assert samples == samples[..n] + [samples[n]];
      SinceSnoc(samples[..n], samples[n], first);
      SinceSnoc(samples[..n], samples[n], second);
      SinceSnoc(Since(samples[..n], first), samples[n], second);
      var kept, x := Since(samples[..n], first), samples[n];
      var a, b := Since(kept, second), Since(samples[..n], second);
      SnocEqual(a, b, x);
      assert kept + [] == kept;
      assert Since(samples, first) == if x.at >= first then kept + [x] else kept;
      assert Since(samples, second) == if x.at >= second then b + [x] else b;
    }
  }

  lemma SnocEqual<T>(a: seq<T>, b: seq<T>, x: T)
    ensures a + [x] == b + [x] <==> a == b
    ensures a + [] == a && b + [] == b
    ensures |a| <= |b| ==> a != b + [x]
  {
    assert (a + [x])[..|a|] == a && (b + [x])[..|b|] == b;
    assert |a + [x]| == |a| + 1 && |b + [x]| == |b| + 1;
  }

  lemma RecordedAndPruned(samples: seq<Sample>, s: Sample, early: int, later: int)
    requires early <= later
    ensures Since(Since(samples, early) + [s], later) == Since(samples + [s], later)
  {
    PruningAgain(samples, early, later);
    SinceSnoc(Since(samples, early), s, later);
    SinceSnoc(samples, s, later);
  }

  lemma StillAFilter(all: seq<Sample>, held: seq<Sample>, kept: seq<Sample>, s: Sample, early: int, later: int)
    requires held == Since(all, early) && kept == Since(held + [s], later) && early <= later
    ensures kept == Since(all + [s], later)
  {
    RecordedAndPruned(all, s, early, later);
  }

  // ---------- per-route figures ----------

  function Count(samples: seq<Sample>, route: string): nat {
    if samples == [] then 0
    else
      var n := |samples| - 1;
      Count(samples[..n], route) + (if samples[n].route == route then 1 else 0)
  }

  function Waited(samples: seq<Sample>, route: string): nat {
    if samples == [] then 0
    else
      var n := |samples| - 1;
      Waited(samples[..n], route) + (if samples[n].route == route then samples[n].ttft else 0)
  }

  function Routes(samples: seq<Sample>): set<string> { set i | 0 <= i < |samples| :: samples[i].route }

  lemma {:induction false} CountIsPositive(samples: seq<Sample>, route: string)
    ensures Count(samples, route) > 0 <==> route in Routes(samples)
  {
    if samples != [] {
      var n := |samples| - 1;
      CountIsPositive(samples[..n], route);
      assert samples == samples[..n] + [samples[n]];
      assert forall i :: 0 <= i < n ==> samples[..n][i] == samples[i];
      assert Routes(samples) == Routes(samples[..n]) + {samples[n].route};
    }
  }

  // How many samples are on one of these routes.
  function Covered(samples: seq<Sample>, routes: set<string>): nat {
    if samples == [] then 0
    else
      var n := |samples| - 1;
      Covered(samples[..n], routes) + (if samples[n].route in routes then 1 else 0)
  }

  lemma {:induction false} CoveredGrows(samples: seq<Sample>, routes: set<string>, r: string)
    requires r !in routes
    ensures Covered(samples, routes + {r}) == Covered(samples, routes) + Count(samples, r)
  {
    if samples != [] {
      CoveredGrows(samples[..|samples| - 1], routes, r);
    }
  }

  lemma {:induction false} CoveredByAll(samples: seq<Sample>, routes: set<string>)
    ensures Covered(samples, {}) == 0
    ensures Routes(samples) <= routes ==> Covered(samples, routes) == |samples|
  {
    if samples != [] {
      var n := |samples| - 1;
      CoveredByAll(samples[..n], routes);
      assert forall i :: 0 <= i < n ==> samples[..n][i] == samples[i];
    }
  }

  // ---------- the listing ----------

  datatype RouteAgg = RouteAgg(route: string, count: nat, avgTTFT: nat)

  // Busiest first, ties by name.
  predicate Before(a: RouteAgg, b: RouteAgg) {
    a.count > b.count || (a.count == b.count && Less(a.route, b.route))
  }

  lemma BeforeIsStrict(a: RouteAgg, b: RouteAgg, c: RouteAgg)
    ensures Before(a, b) && Before(b, c) ==> Before(a, c)
    ensures !Before(a, a)
    ensures a.route != b.route ==> Before(a, b) || Before(b, a)
  {
    LessIsStrict(a.route, b.route, c.route);
    LessIsTotal(a.route, b.route);
  }

  ghost predicate Listed(list: seq<RouteAgg>) {
    forall i, j :: 0 <= i < j < |list| ==> Before(list[i], list[j])
  }

  // No less busy route comes first, and of equally busy ones the name decides.
  lemma BusiestFirst(list: seq<RouteAgg>, i: nat, j: nat)
    requires Listed(list) && i < j < |list|
    ensures list[i].count >= list[j].count
    ensures list[i].count == list[j].count ==> Less(list[i].route, list[j].route)
  {
    assert Before(list[i], list[j]);
  }

  function Entry(samples: seq<Sample>, route: string): RouteAgg {
    var n := Count(samples, route);
    RouteAgg(route, n, if n == 0 then 0 else Waited(samples, route) / n)
  }

  function Total(list: seq<RouteAgg>): nat {
    if list == [] then 0 else list[0].count + Total(list[1..])
  }

  lemma FirstIsIn<T>(s: seq<T>)
    ensures s != [] ==> s[0] in s
  {
  }

  // An ordered listing is determined by its entries, so by the samples: in
  // whatever order the routes were met.
  lemma {:induction false} ListingIsUnique(a: seq<RouteAgg>, b: seq<RouteAgg>)
    requires Listed(a) && Listed(b) && (forall x :: x in a <==> x in b)
    ensures a == b
  {
    if a == [] {
      FirstIsIn(b);
    } else {
      assert a[0] in b && (b != [] ==> b[0] in a);
      var i :| 0 <= i < |b| && b[i] == a[0];
      var j :| 0 <= j < |a| && a[j] == b[0];
      BeforeIsStrict(a[0], b[0], a[0]);
      assert a[0] == b[0];
      forall x ensures x in a[1..] <==> x in b[1..] {
        BeforeIsStrict(a[0], a[0], a[0]);
        assert x in a <==> x == a[0] || x in a[1..];
        assert x in b <==> x == b[0] || x in b[1..];
      }
      ListingIsUnique(a[1..], b[1..]);
    }
  }

  function Insert(list: seq<RouteAgg>, x: RouteAgg): seq<RouteAgg> {
    if list == [] || Before(x, list[0]) then [x] + list else [list[0]] + Insert(list[1..], x)
  }

  lemma {:induction false} InsertKeepsListed(list: seq<RouteAgg>, x: RouteAgg)
    requires Listed(list) && (forall y :: y in list ==> y.route != x.route)
    ensures Listed(Insert(list, x))
    ensures forall y :: y in Insert(list, x) <==> y == x || y in list
    ensures Total(Insert(list, x)) == Total(list) + x.count
  {
    if list == [] {
    } else if Before(x, list[0]) {
      forall j | 0 <= j < |list| ensures Before(x, list[j]) {
        BeforeIsStrict(x, list[0], list[j]);
      }
      assert ([x] + list)[1..] == list;
    } else {
      assert list[0] in list;
      BeforeIsStrict(x, list[0], x);
      InsertKeepsListed(list[1..], x);
      var rest := Insert(list[1..], x);
      forall j | 0 <= j < |rest| ensures Before(list[0], rest[j]) {
        assert rest[j] in rest;
        if rest[j] != x {
          var k :| 0 <= k < |list[1..]| && list[1..][k] == rest[j];
        }
      }
      assert ([list[0]] + rest)[1..] == rest;
      assert forall y :: y in list <==> y == list[0] || y in list[1..];
    }
  }

  // ---------- the collector ----------

  datatype Snapshot = Snapshot(total: nat, rpm: nat, ttft: nat, active: seq<RouteAgg>)

  function Minute(samples: seq<Sample>, from: int): nat {
    if samples == [] then 0
    else
      var n := |samples| - 1;
      Minute(samples[..n], from) + (if samples[n].at > from then 1 else 0)
  }

  // Sum and number of the positive first-token times.
  function Measured(samples: seq<Sample>): (r: (nat, nat)) {
    if samples == [] then (0, 0)
    else
      var n := |samples| - 1;
      var (sum, k) := Measured(samples[..n]);
      if samples[n].ttft > 0 then (sum + samples[n].ttft, k + 1) else (sum, k)
  }

  // The samples after the instant, and those that were measured.
  function After(samples: seq<Sample>, from: int): set<nat> { set i | 0 <= i < |samples| && samples[i].at > from }

  function Answered(samples: seq<Sample>): set<nat> { set i | 0 <= i < |samples| && samples[i].ttft > 0 }

  function OnRoute(samples: seq<Sample>, route: string): set<nat> {
    set i | 0 <= i < |samples| && samples[i].route == route
  }

  lemma LastIsNew(before: set<nat>, n: nat)
    requires forall i :: i in before ==> i < n
    ensures |before + {n}| == |before| + 1
  {
  }

  // The figures are numbers of samples.
  lemma {:induction false} MinuteCounts(samples: seq<Sample>, from: int)
    ensures Minute(samples, from) == |After(samples, from)|
  {
    if samples != [] {
      var n := |samples| - 1;
      MinuteCounts(samples[..n], from);
      LastIsNew(After(samples[..n], from), n);
      assert After(samples, from) == After(samples[..n], from) + if samples[n].at > from then {n} else {};
    }
  }

  lemma {:induction false} MeasuredCounts(samples: seq<Sample>)
    ensures Measured(samples).1 == |Answered(samples)|
  {
    if samples != [] {
      var n := |samples| - 1;
      MeasuredCounts(samples[..n]);
      LastIsNew(Answered(samples[..n]), n);
      assert Answered(samples) == Answered(samples[..n]) + if samples[n].ttft > 0 then {n} else {};
    }
  }

  // The sums are those of two stretches together, and of one sample its own.
  lemma {:induction false} SumsSplit(a: seq<Sample>, b: seq<Sample>, route: string)
    ensures Waited(a + b, route) == Waited(a, route) + Waited(b, route)
    ensures Measured(a + b).0 == Measured(a).0 + Measured(b).0
    decreases |b|
  {
    if b == [] {
      assert a + b == a;
    } else {
      var n := |b| - 1;
      SumsSplit(a, b[..n], route);
      assert (a + b)[..|a + b| - 1] == a + b[..n];
    }
  }

  lemma SumsOfOne(s: Sample, route: string)
    ensures Measured([s]).0 == s.ttft
    ensures Waited([s], route) == if s.route == route then s.ttft else 0
  {
    assert [s][..0] == [];
  }

  lemma {:induction false} RouteCounts(samples: seq<Sample>, route: string)
    ensures Count(samples, route) == |OnRoute(samples, route)|
  {
    if samples != [] {
      var n := |samples| - 1;
      RouteCounts(samples[..n], route);
      LastIsNew(OnRoute(samples[..n], route), n);
      assert OnRoute(samples, route) == OnRoute(samples[..n], route) + if samples[n].route == route then {n} else {};
    }
  }

  class Window {
    // The slice: the first n elements of a growing buffer.
    var buf: array<Sample>
    var n: nat

    ghost var all: seq<Sample> // every sample ever recorded, in arrival order
    ghost var pruned: int      // the latest prune
    ghost var steady: bool     // the clock has not been seen going backwards

    ghost predicate Valid()
      reads this, buf
    {
      n <= buf.Length && (steady ==> Held() == Since(all, pruned - WINDOW))
    }

    ghost function Held(): seq<Sample>
      requires n <= buf.Length
      reads this, buf
    {
      buf[..n]
    }

    constructor (now: int)
      ensures Valid() && fresh(buf) && all == [] && Held() == [] && steady
    {
      buf, n := new Sample[0], 0;
      all, pruned, steady := [], now, true;
    }

    method Append(s: Sample)
      requires n <= buf.Length
      modifies this`buf, this`n, buf
      ensures n <= buf.Length && Held() == old(Held()) + [s] && (buf == old(buf) || fresh(buf))
    {
      if n == buf.Length {
        var old' := buf;
        var bigger := new Sample[2 * n + 1](_ => s);
        for i := 0 to n
          invariant bigger[..i] == old'[..i] && n == old(n) && buf == old' && old'[..] == old(buf[..])
        {
          bigger[i] := old'[i];
        }
        buf := bigger;
      }
      buf[n] := s;
      n := n + 1;
    }

    // Samples arrive out of time order, so this filters instead of trimming a
    // prefix, and keeps what it keeps in the same buffer.
    method Prune(now: int)
      requires n <= buf.Length
      modifies this`n, buf
      ensures n <= buf.Length && Held() == Since(old(Held()), now - WINDOW)
    {
      ghost var before := Held();
      var cut, kept := now - WINDOW, 0;
      ghost var done: seq<Sample> := [];
      for i := 0 to n
        invariant kept <= i && n == |before| <= buf.Length
        invariant done == Since(before[..i], cut) && |done| == kept
        invariant forall j :: 0 <= j < kept ==> buf[j] == done[j]
        invariant forall j :: i <= j < n ==> buf[j] == before[j]
      {
        var s := buf[i];
        SinceUpTo(before, i, cut);
        if s.at >= cut {
          buf[kept] := s;
          kept := kept + 1;
          done := done + [s];
        }
      }
      n := kept;
      assert before[..|before|] == before;
      assert Held() == done;
    }

    method HandleUsage(s: Sample, now: int)
      requires Valid()
      modifies this, buf
      ensures Valid() && all == old(all) + [s] && (buf == old(buf) || fresh(buf))
      ensures Held() == Since(old(Held()) + [s], now - 3_600_000)
      ensures pruned == now && steady == (old(steady) && old(pruned) <= now)
    {
      ghost var held := Held();
      Append(s);
      Prune(now);
      ghost var kept := Held();
      if steady && pruned <= now {
        StillAFilter(all, held, kept, s, pruned - WINDOW, now - WINDOW);
      }
      all, steady, pruned := all + [s], steady && pruned <= now, now;
      assert Held() == kept;
    }

    method TakeSnapshot(now: int) returns (snap: Snapshot)
      requires Valid()
      modifies this`n, this`pruned, this`steady, buf
      ensures Valid() && all == old(all)
      ensures Held() == Since(old(Held()), now - WINDOW)
      ensures pruned == now && steady == (old(steady) && old(pruned) <= now)
      ensures Describes(snap, Held(), now)
    {
      Prune(now);
      if steady && pruned <= now {
        PruningAgain(all, pruned - WINDOW, now - WINDOW);
      }
      steady, pruned := steady && pruned <= now, now;
      snap := Summarise(buf[..n], now);
    }
  }

  // What a snapshot says about the samples it was taken from.
  ghost predicate Describes(snap: Snapshot, samples: seq<Sample>, now: int) {
    && snap.total == |samples|
    && snap.rpm == Minute(samples, now - 60_000)
    && (Measured(samples).1 > 0 ==> snap.ttft == Measured(samples).0 / Measured(samples).1)
    && (Measured(samples).1 == 0 ==> snap.ttft == 0)
    && Listed(snap.active)
    && Total(snap.active) == |samples|
    && (forall x :: x in snap.active <==> exists r :: r in Routes(samples) && x == Entry(samples, r))
  }

  // Nothing in a snapshot is left to the order a map is iterated in.
  lemma SnapshotIsDetermined(a: Snapshot, b: Snapshot, samples: seq<Sample>, now: int)
    requires Describes(a, samples, now) && Describes(b, samples, now)
    ensures a == b
  {
    ListingIsUnique(a.active, b.active);
  }

  ghost predicate Tallied(samples: seq<Sample>, byRoute: map<string, (nat, nat)>) {
    && byRoute.Keys == Routes(samples)
    && forall r :: r in byRoute ==> byRoute[r] == (Count(samples, r), Waited(samples, r))
  }

  method Tally(samples: seq<Sample>, i: nat, byRoute: map<string, (nat, nat)>) returns (next: map<string, (nat, nat)>)
    requires i < |samples| && Tallied(samples[..i], byRoute)
    ensures Tallied(samples[..i + 1], next)
  {
    var s := samples[i];
    NextSample(samples, i, 0);
    var (count, waited) := if s.route in byRoute then byRoute[s.route] else (0, 0);
    next := byRoute[s.route := (count + 1, waited + s.ttft)];
    forall r | r in next ensures next[r] == (Count(samples[..i + 1], r), Waited(samples[..i + 1], r)) {
      NextCounts(samples, i, r);
    }
  }

  ghost predicate Summed(samples: seq<Sample>, from: int, rpm: nat, sum: nat, k: nat) {
    rpm == Minute(samples, from) && (sum, k) == Measured(samples)
  }

  lemma SummedNext(samples: seq<Sample>, i: nat, from: int, rpm: nat, sum: nat, k: nat)
    requires i < |samples| && Summed(samples[..i], from, rpm, sum, k)
    ensures var s := samples[i];
      Summed(samples[..i + 1], from, rpm + (if s.at > from then 1 else 0), sum + s.ttft, k + if s.ttft > 0 then 1 else 0)
  {
    NextSample(samples, i, from);
  }

  method Summarise(samples: seq<Sample>, now: int) returns (snap: Snapshot)
    ensures Describes(snap, samples, now)
  {
    if samples == [] {
      return Snapshot(0, 0, 0, []);
    }
    var rpm: nat, sum: nat, k: nat := 0, 0, 0;
    var byRoute: map<string, (nat, nat)> := map[];
    for i := 0 to |samples|
      invariant Summed(samples[..i], now - MINUTE, rpm, sum, k)
      invariant Tallied(samples[..i], byRoute)
    {
      var s := samples[i];
      SummedNext(samples, i, now - MINUTE, rpm, sum, k);
      if s.at > now - MINUTE {
        rpm := rpm + 1;
      }
      if s.ttft > 0 {
        sum, k := sum + s.ttft, k + 1;
      }
      byRoute := Tally(samples, i, byRoute);
    }
    assert samples[..|samples|] == samples;
    var active := ListRoutes(samples, byRoute);
    snap := Snapshot(|samples|, rpm, if k > 0 then sum / k else 0, active);
  }

  lemma {:induction false} WaitedNeedsCount(samples: seq<Sample>, r: string)
    ensures r !in Routes(samples) ==> Count(samples, r) == 0 && Waited(samples, r) == 0
  {
    if samples != [] {
      var n := |samples| - 1;
      WaitedNeedsCount(samples[..n], r);
      assert forall i :: 0 <= i < n ==> samples[..n][i] == samples[i];
    }
  }

  lemma NextSample(samples: seq<Sample>, i: nat, now: int)
    requires i < |samples|
    ensures var a, b, s := samples[..i], samples[..i + 1], samples[i];
      && Routes(b) == Routes(a) + {s.route}
      && (s.route !in Routes(a) ==> Count(a, s.route) == 0 && Waited(a, s.route) == 0)
      && Minute(b, now) == Minute(a, now) + (if s.at > now then 1 else 0)
      && Measured(b) == (if s.ttft > 0 then (Measured(a).0 + s.ttft, Measured(a).1 + 1) else Measured(a))
  {
    var a, b := samples[..i], samples[..i + 1];
    WaitedNeedsCount(a, samples[i].route);
    assert b[..i] == a && b[i] == samples[i];
    assert forall j :: 0 <= j < i ==> a[j] == b[j];
    assert b[i].route in Routes(b);
  }

  lemma NextCounts(samples: seq<Sample>, i: nat, r: string)
    requires i < |samples|
    ensures Count(samples[..i + 1], r) == Count(samples[..i], r) + (if samples[i].route == r then 1 else 0)
    ensures Waited(samples[..i + 1], r) == Waited(samples[..i], r) + (if samples[i].route == r then samples[i].ttft else 0)
  {
    assert samples[..i + 1][..i] == samples[..i];
  }

  // The map's entries come out in no particular order and are then sorted.
  method ListRoutes(samples: seq<Sample>, byRoute: map<string, (nat, nat)>) returns (active: seq<RouteAgg>)
    requires Tallied(samples, byRoute)
    ensures Listed(active) && Total(active) == |samples|
    ensures forall x :: x in active <==> exists r :: r in Routes(samples) && x == Entry(samples, r)
  {
    active := [];
    var left := byRoute.Keys;
    CoveredByAll(samples, Routes(samples));
    assert byRoute.Keys - left == {};
    while left != {}
      invariant left <= byRoute.Keys && Listed(active)
      invariant forall x :: x in active <==> exists r :: r in byRoute.Keys - left && x == Entry(samples, r)
      invariant Total(active) == Covered(samples, byRoute.Keys - left)
    {
      var r :| r in left;
      CountIsPositive(samples, r);
      CoveredGrows(samples, byRoute.Keys - left, r);
      assert byRoute.Keys - left + {r} == byRoute.Keys - (left - {r});
      var agg := RouteAgg(r, byRoute[r].0, byRoute[r].1 / byRoute[r].0);
      InsertKeepsListed(active, agg);
      active := Insert(active, agg);
      left := left - {r};
    }
    assert byRoute.Keys - {} == Routes(samples);
  }
}
