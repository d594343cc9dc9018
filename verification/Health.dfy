// The tracker that turns completed requests into the few alerts worth making.
module Health {

  datatype FailureClass = Healthy | Unreachable | Quota | Upstream

  // The parts of a sample the tracker looks at.
  datatype Sample = Sample(failed: bool, status: int, canceled: bool, ttft: int)

  // A sample and when it was observed.
  datatype Seen = Seen(sample: Sample, at: int)

  datatype Alert =
    | Degraded(kind: FailureClass, streak: nat)
    | Recovered(kind: FailureClass, streak: nat, lasted: int)

  function Classify(s: Sample): FailureClass {
    if !s.failed then Healthy
    else if s.status == 0 then Unreachable
    else if s.status == 429 then Quota
    else Upstream
  }

  // Canceled after the first byte: says nothing either way.
  predicate AbandonedAfterAnswer(s: Sample) { s.canceled && s.ttft > 0 }

  const STEPS: seq<nat> := [3, 10, 30, 100, 300, 1000]

  predicate IsStep(n: nat) { n == 3 || n == 10 || n == 30 || n == 100 || n == 300 || n == 1000 }

  method IsAlertStep(n: nat) returns (step: bool)
    ensures step == IsStep(n)
  {
    for i := 0 to |STEPS|
      invariant n !in STEPS[..i]
    {
      if n == STEPS[i] {
        return true;
      }
    }
    assert STEPS[..6] == STEPS;
    assert STEPS[0] == 3 && STEPS[1] == 10 && STEPS[2] == 30 && STEPS[3] == 100 && STEPS[4] == 300 && STEPS[5] == 1000;
    return false;
  }

  // ---------- health as a function of the history ----------

  function Judged(history: seq<Seen>): seq<Seen> {
    if history == [] then []
    else
      var n := |history| - 1;
      Judged(history[..n]) + (if AbandonedAfterAnswer(history[n].sample) then [] else [history[n]])
  }

  function LastClass(h: seq<Seen>): FailureClass {
    if h == [] then Healthy else Classify(h[|h| - 1].sample)
  }

  // The length of the block of like failures the history ends in.
  function Streak(h: seq<Seen>): (n: nat)
    ensures n <= |h| && (n == 0 <==> LastClass(h) == Healthy)
  {
    if LastClass(h) == Healthy then 0
    else
      var before := h[..|h| - 1];
      if LastClass(before) == LastClass(h) then Streak(before) + 1 else 1
  }

  lemma {:induction false} StreakIsTheLastBlock(h: seq<Seen>)
    ensures var n := Streak(h);
      && (forall i :: |h| - n <= i < |h| ==> Classify(h[i].sample) == LastClass(h) != Healthy)
      && (0 < n < |h| ==> Classify(h[|h| - n - 1].sample) != LastClass(h))
  {
    if LastClass(h) != Healthy && LastClass(h[..|h| - 1]) == LastClass(h) {
      StreakIsTheLastBlock(h[..|h| - 1]);
    }
  }

  // ---------- the same in terms of the samples ----------

  // Failures of one kind: no status at all, 429, or any other.
  predicate Alike(a: Sample, b: Sample) {
    && a.failed && b.failed
    && (a.status == 0 <==> b.status == 0)
    && (a.status == 429 <==> b.status == 429)
  }

  lemma AlikeExactly(a: Sample, b: Sample)
    ensures Alike(a, b) <==> Classify(a) == Classify(b) != Healthy
  {
  }

  // The streak is the longest stretch of like failures at the end of what is
  // judged.
  lemma StreakSpeltOut(h: seq<Seen>)
    requires h != []
    ensures var n, last := Streak(h), h[|h| - 1].sample;
      && (forall i :: |h| - n <= i < |h| ==> Alike(h[i].sample, last))
      && (n < |h| ==> !Alike(h[|h| - n - 1].sample, last))
      && (n == 0 <==> !last.failed)
      && (last.failed && last.status == 0 ==> LastClass(h) == Unreachable)
      && (last.failed && last.status == 429 ==> LastClass(h) == Quota)
      && (last.failed && last.status != 0 && last.status != 429 ==> LastClass(h) == Upstream)
  {
    var n, last := Streak(h), h[|h| - 1].sample;
    StreakIsTheLastBlock(h);
    forall i | 0 <= i < |h| ensures Alike(h[i].sample, last) <==> Classify(h[i].sample) == LastClass(h) != Healthy {
      AlikeExactly(h[i].sample, last);
    }
  }

  // All is judged but what was canceled after its first byte.
  lemma {:induction false} JudgedExactly(history: seq<Seen>, s: Seen)
    ensures s in Judged(history) <==> s in history && !(s.sample.canceled && s.sample.ttft > 0)
  {
    if history != [] {
      var n := |history| - 1;
      JudgedExactly(history[..n], s);
      assert history == history[..n] + [history[n]];
    }
  }

  function BlockStart(h: seq<Seen>): int
    requires Streak(h) > 0
  {
    h[|h| - Streak(h)].at
  }

  // Every alert made over a history, in order.
  function Alerts(h: seq<Seen>): seq<Alert> {
    if h == [] then [] else Alerts(h[..|h| - 1]) + NextAlert(h[..|h| - 1], h[|h| - 1])
  }

  // What observing `s` after `h` announces.
  function NextAlert(h: seq<Seen>, s: Seen): seq<Alert> {
    var kind := Classify(s.sample);
    if kind == Healthy then
      if Streak(h) >= 3 then [Recovered(LastClass(h), Streak(h), s.at - BlockStart(h))] else []
    else Rung(kind, if LastClass(h) == kind then Streak(h) + 1 else 1)
  }

  function Rung(kind: FailureClass, n: nat): seq<Alert> { if IsStep(n) then [Degraded(kind, n)] else [] }

  // The rungs a block of length n has passed.
  function Rungs(kind: FailureClass, n: nat): seq<Alert> {
    if n == 0 then [] else Rungs(kind, n - 1) + Rung(kind, n)
  }

  lemma StreakSnoc(h: seq<Seen>, s: Seen)
    ensures var all, kind := h + [s], Classify(s.sample);
      && LastClass(all) == kind
      && Streak(all) == (if kind == Healthy then 0 else if LastClass(h) == kind then Streak(h) + 1 else 1)
      && (kind != Healthy ==> BlockStart(all) == if LastClass(h) == kind then BlockStart(h) else s.at)
  {
    var all := h + [s];
    assert all[..|all| - 1] == h && all[|h|] == s;
  }

  lemma AlertsSnoc(h: seq<Seen>, s: Seen)
    ensures Alerts(h + [s]) == Alerts(h) + NextAlert(h, s)
  {
    var all := h + [s];
    assert all[..|all| - 1] == h && all[|h|] == s;
  }

  lemma BlockAnnouncesItsRung(before: seq<Seen>, last: Seen)
    requires Classify(last.sample) != Healthy
    ensures var h := before + [last]; Alerts(h) == Alerts(before) + Rung(LastClass(h), Streak(h))
  {
    StreakSnoc(before, last);
    AlertsSnoc(before, last);
  }

  lemma RungsGrow(alerts: seq<Alert>, kind: FailureClass, n: nat)
    ensures alerts + Rungs(kind, n + 1) == alerts + Rungs(kind, n) + Rung(kind, n + 1)
  {
  }

  // The history before its last block of failures.
  function BeforeBlock(h: seq<Seen>): (b: seq<Seen>)
    ensures b == h[..|h| - Streak(h)]
  {
    if LastClass(h) == Healthy then h
    else
      var before := h[..|h| - 1];
      if LastClass(before) == LastClass(h) then BeforeBlock(before) else before
  }

  lemma BlockGrows(before: seq<Seen>, last: Seen)
    requires Classify(last.sample) != Healthy
    ensures var h, same := before + [last], LastClass(before) == Classify(last.sample);
      && LastClass(h) == Classify(last.sample)
      && Streak(h) == (if same then Streak(before) else 0) + 1
      && BeforeBlock(h) == if same then BeforeBlock(before) else before
  {
    StreakSnoc(before, last);
    assert (before + [last])[..|before|] == before;
  }

  ghost predicate Climbs(h: seq<Seen>) {
    Alerts(h) == Alerts(BeforeBlock(h)) + Rungs(LastClass(h), Streak(h))
  }

  // A block of length n announces exactly the ladder steps up to n, in order.
  lemma {:induction false} BlockClimbsTheLadder(h: seq<Seen>)
    ensures Climbs(h)
    decreases |h|, 1
  {
    if LastClass(h) == Healthy {
      NoBlockNoRungs(h);
    } else {
      assert h[..|h| - 1] + [h[|h| - 1]] == h;
      BlockStep(h[..|h| - 1], h[|h| - 1]);
    }
  }

  lemma NoBlockNoRungs(h: seq<Seen>)
    requires LastClass(h) == Healthy
    ensures Climbs(h)
  {
    assert Alerts(h) + Rungs(Healthy, 0) == Alerts(h);
  }

  lemma {:induction false} BlockStep(before: seq<Seen>, last: Seen)
    requires Classify(last.sample) != Healthy
    ensures Climbs(before + [last])
    decreases |before| + 1, 0
  {
    var kind := Classify(last.sample);
    BlockAnnouncesItsRung(before, last);
    BlockGrows(before, last);
    if LastClass(before) == kind {
      BlockClimbsTheLadder(before);
      RungsGrow(Alerts(BeforeBlock(before)), kind, Streak(before));
    } else {
      RungsGrow(Alerts(before), kind, 0);
      assert Alerts(before) + Rungs(kind, 0) == Alerts(before);
    }
  }

  lemma {:induction false} InRungs(kind: FailureClass, n: nat, a: Alert)
    ensures a in Rungs(kind, n) <==> a.Degraded? && a.kind == kind && IsStep(a.streak) && a.streak <= n
  {
    if n > 0 {
      InRungs(kind, n - 1, a);
      assert a in Rungs(kind, n) <==> a in Rungs(kind, n - 1) || a in Rung(kind, n);
    }
  }

  lemma {:induction false} RungsAscend(kind: FailureClass, n: nat)
    ensures forall i :: 0 <= i < |Rungs(kind, n)| ==> Rungs(kind, n)[i].streak <= n
    ensures forall i, j :: 0 <= i < j < |Rungs(kind, n)| ==> Rungs(kind, n)[i].streak < Rungs(kind, n)[j].streak
  {
    if n > 0 {
      RungsAscend(kind, n - 1);
      if !IsStep(n) {
        assert Rungs(kind, n) == Rungs(kind, n - 1) + [];
      } else {
        assert Rungs(kind, n) == Rungs(kind, n - 1) + [Degraded(kind, n)];
      }
    }
  }

  // The rungs passed by length n are the steps up to n, each once, ascending.
  lemma RungsAreTheSteps(kind: FailureClass, n: nat)
    ensures forall a :: a in Rungs(kind, n) <==>
      a.Degraded? && a.kind == kind && a.streak in {3, 10, 30, 100, 300, 1000} && a.streak <= n
    ensures forall i, j :: 0 <= i < j < |Rungs(kind, n)| ==> Rungs(kind, n)[i].streak < Rungs(kind, n)[j].streak
  {
    forall a ensures a in Rungs(kind, n) <==> a.Degraded? && a.kind == kind && IsStep(a.streak) && a.streak <= n {
      InRungs(kind, n, a);
    }
    RungsAscend(kind, n);
  }

  // A recovery is told exactly for a block that has announced something, and
  // says of what kind and how long it was.
  lemma RecoveryFollowsAnAlert(h: seq<Seen>, s: Seen)
    requires !s.sample.failed
    ensures Rungs(LastClass(h), Streak(h)) == [] ==> NextAlert(h, s) == []
    ensures Rungs(LastClass(h), Streak(h)) != [] ==>
      Streak(h) > 0 && NextAlert(h, s) == [Recovered(LastClass(h), Streak(h), s.at - BlockStart(h))]
  {
    RungsStartAtThree(LastClass(h), Streak(h));
    ToldOnRecovery(h, s);
  }

  lemma ToldOnRecovery(h: seq<Seen>, s: Seen)
    requires !s.sample.failed
    ensures Streak(h) < 3 ==> NextAlert(h, s) == []
    ensures Streak(h) >= 3 ==> NextAlert(h, s) == [Recovered(LastClass(h), Streak(h), s.at - BlockStart(h))]
  {
    assert Classify(s.sample) == Healthy;
  }

  lemma {:induction false} RungsStartAtThree(kind: FailureClass, n: nat)
    ensures Rungs(kind, n) != [] <==> n >= 3
  {
    if n > 0 {
      RungsStartAtThree(kind, n - 1);
    }
  }

  lemma JudgedSnoc(history: seq<Seen>, s: Seen)
    ensures Judged(history + [s]) == if AbandonedAfterAnswer(s.sample) then Judged(history) else Judged(history) + [s]
  {
    assert (history + [s])[..|history|] == history;
  }

  // ---------- the tracker ----------

  ghost predicate Tracks(h: seq<Seen>, streak: nat, kind: FailureClass, since: int, alerted: bool) {
    && streak == Streak(h)
    && kind == LastClass(h)
    && (streak > 0 ==> since == BlockStart(h))
    && (alerted <==> Streak(h) >= 3)
  }

  // One more judged sample moves the tracker and makes its alert.
  lemma TracksNext(h: seq<Seen>, s: Seen, streak: nat, kind: FailureClass, since: int, alerted: bool)
    requires Tracks(h, streak, kind, since, alerted) && Classify(s.sample) != Healthy
    ensures var k := Classify(s.sample); var n := if k == kind then streak + 1 else 1;
      && Tracks(h + [s], n, k, if k == kind then since else s.at, n >= 3)
      && NextAlert(h, s) == Rung(k, n)
  {
    StreakSnoc(h, s);
  }

  lemma TracksRecovery(h: seq<Seen>, s: Seen, streak: nat, kind: FailureClass, since: int, alerted: bool)
    requires Tracks(h, streak, kind, since, alerted) && Classify(s.sample) == Healthy
    ensures Tracks(h + [s], 0, Healthy, since, false)
    ensures NextAlert(h, s) == if alerted then [Recovered(kind, streak, s.at - since)] else []
  {
    StreakSnoc(h, s);
  }

  class Tracker {
    var streak: nat
    var kind: FailureClass
    var since: int
    var alerted: bool

    ghost var history: seq<Seen>
    ghost var told: seq<Alert>

    ghost predicate Valid()
      reads this
    {
      Tracks(Judged(history), streak, kind, since, alerted) && told == Alerts(Judged(history))
    }

    constructor ()
      ensures Valid() && history == []
    {
      streak, kind, since, alerted := 0, Healthy, 0, false;
      history, told := [], [];
    }

    method Observe(s: Sample, now: int)
      requires Valid()
      modifies this
      ensures Valid() && history == old(history) + [Seen(s, now)]
    {
      ghost var seen := Seen(s, now);
      JudgedSnoc(history, seen);
      history := history + [seen];
      if AbandonedAfterAnswer(s) {
        return;
      }
      var fire := Fold(Judged(old(history)), s, now);
      AlertsSnoc(Judged(old(history)), seen);
      told := told + fire;
    }

    method Fold(ghost h: seq<Seen>, s: Sample, now: int) returns (fire: seq<Alert>)
      requires Tracks(h, streak, kind, since, alerted)
      modifies this`streak, this`kind, this`since, this`alerted
      ensures Tracks(h + [Seen(s, now)], streak, kind, since, alerted)
      ensures fire == NextAlert(h, Seen(s, now))
    {
      if Classify(s) == Healthy {
        TracksRecovery(h, Seen(s, now), streak, kind, since, alerted);
      } else {
        TracksNext(h, Seen(s, now), streak, kind, since, alerted);
      }
      var class' := Classify(s);
      fire := [];
      if class' == Healthy {
        if alerted {
          fire := [Recovered(kind, streak, now - since)];
        }
        streak, kind, alerted := 0, Healthy, false;
      } else if class' != kind {
        streak, kind, since, alerted := 1, class', now, false;
      } else {
        streak := streak + 1;
      }
      var step := IsAlertStep(streak);
      if class' != Healthy && step {
        fire := [Degraded(kind, streak)];
        alerted := true;
      }
    }

    method State() returns (degraded: bool, class': FailureClass, n: nat, from: int)
      requires Valid()
      ensures var h := Judged(history);
        && (degraded <==> Streak(h) >= 3) && class' == LastClass(h) && n == Streak(h)
        && (n > 0 ==> from == BlockStart(h))
    {
      return alerted, kind, streak, since;
    }
  }
}
