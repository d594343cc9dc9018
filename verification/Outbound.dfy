// The outbound relay's cached verdict on whether to go through the proxy.
module Outbound {

  type Reason = string

  // Milliseconds on a clock that never goes back.
  type Time = nat

  datatype Options = Options(
    probeTtl: int, probeTimeout: int, dialTimeout: int, handshakeTimeout: int, handshakeBackoff: int)
  {
    predicate Usable() {
      probeTtl > 0 && probeTimeout > 0 && dialTimeout > 0 && handshakeTimeout > 0 && handshakeBackoff > 0
    }

    // Every setting that can be used is kept, and one that cannot is replaced
    // by one that can; so doing it twice changes nothing.
    function WithDefaults(): (o: Options)
      ensures o.Usable()
      ensures Usable() ==> o == this
      ensures probeTtl > 0 ==> o.probeTtl == probeTtl
      ensures probeTimeout > 0 ==> o.probeTimeout == probeTimeout
      ensures dialTimeout > 0 ==> o.dialTimeout == dialTimeout
      ensures handshakeTimeout > 0 ==> o.handshakeTimeout == handshakeTimeout
      ensures handshakeBackoff > 0 ==> o.handshakeBackoff == handshakeBackoff
      ensures probeTtl <= 0 ==> o.probeTtl == 2_000
      ensures probeTimeout <= 0 ==> o.probeTimeout == 250
      ensures dialTimeout <= 0 ==> o.dialTimeout == 15_000
      ensures handshakeTimeout <= 0 ==> o.handshakeTimeout == 5_000
      ensures handshakeBackoff <= 0 ==> o.handshakeBackoff == 30_000
    {
      Options(if probeTtl <= 0 then 2_000 else probeTtl,
              if probeTimeout <= 0 then 250 else probeTimeout,
              if dialTimeout <= 0 then 15_000 else dialTimeout,
              if handshakeTimeout <= 0 then 5_000 else handshakeTimeout,
              if handshakeBackoff <= 0 then 30_000 else handshakeBackoff)
    }
  }

  type Settings = o: Options | o.Usable() witness Options(2_000, 250, 15_000, 5_000, 30_000)

  // What the relay has seen of the proxy. `asked` is when the step began and
  // `at` when its result was recorded.
  datatype Witness =
    | Probed(asked: Time, at: Time, listening: bool, reason: Reason)
    | DialFailed(asked: Time, at: Time, reason: Reason)
    | HandshakeFailed(asked: Time, at: Time, reason: Reason)

  predicate Good(w: Witness) { w.Probed? && w.listening }

  const NO_REASON: Reason := ""

  function Why(w: Witness): Reason { if Good(w) then NO_REASON else w.reason }

  function Last(seen: seq<Witness>): Witness
    requires seen != []
  {
    seen[|seen| - 1]
  }

  predicate Verdict(seen: seq<Witness>) { seen != [] && Good(Last(seen)) }

  // The end of the latest backoff.
  function HeldUntil(seen: seq<Witness>, o: Settings): Time {
    if seen == [] then 0
    else if Last(seen).HandshakeFailed? then Last(seen).asked + o.handshakeBackoff
    else HeldUntil(seen[..|seen| - 1], o)
  }

  function ClockOf(seen: seq<Witness>): Time { if seen == [] then 0 else Last(seen).at }

  predicate Cached(seen: seq<Witness>, now: Time, o: Settings) {
    seen != [] && now - Last(seen).at < o.probeTtl
  }

  // Connections may report a failure at any time, but the proxy is probed only
  // outside a backoff and once the cached verdict has expired.
  predicate Allowed(seen: seq<Witness>, w: Witness, o: Settings) {
    && ClockOf(seen) <= w.asked <= w.at
    && (w.Probed? ==> HeldUntil(seen, o) <= w.asked && !Cached(seen, w.asked, o))
  }

  predicate Lawful(seen: seq<Witness>, o: Settings) {
    seen == [] || (Lawful(seen[..|seen| - 1], o) && Allowed(seen[..|seen| - 1], Last(seen), o))
  }

  datatype Flip = Flip(via: bool, at: Time, reason: Reason)

  // The changes of verdict, the first one included.
  function Flips(seen: seq<Witness>): seq<Flip> {
    if seen == [] then []
    else
      var before := seen[..|seen| - 1];
      var w := Last(seen);
      if before == [] || Verdict(before) != Good(w) then Flips(before) + [Flip(Good(w), w.at, Why(w))]
      else Flips(before)
  }

  lemma Grown(seen: seq<Witness>, w: Witness, o: Settings)
    ensures Last(seen + [w]) == w && (seen + [w])[..|seen|] == seen
    ensures Lawful(seen + [w], o) <==> Lawful(seen, o) && Allowed(seen, w, o)
    ensures HeldUntil(seen + [w], o) == if w.HandshakeFailed? then w.asked + o.handshakeBackoff else HeldUntil(seen, o)
    ensures Flips(seen + [w]) ==
            Flips(seen) + if seen == [] || Verdict(seen) != Good(w) then [Flip(Good(w), w.at, Why(w))] else []
  {
    assert (seen + [w])[..|seen|] == seen;
  }

  // ---------- what every lawful history shows ----------

  lemma {:induction false} TimeRuns(seen: seq<Witness>, o: Settings, i: nat)
    requires Lawful(seen, o) && i < |seen|
    ensures seen[i].at <= Last(seen).asked || i == |seen| - 1
    ensures seen[i].asked <= seen[i].at <= Last(seen).at
    ensures seen[i].HandshakeFailed? ==> seen[i].asked + o.handshakeBackoff <= HeldUntil(seen, o)
  {
    var n := |seen| - 1;
    if i < n {
      TimeRuns(seen[..n], o, i);
      assert seen[..n][i] == seen[i];
    }
  }

  // After any failure the proxy is not taken up again for a whole cache
  // lifetime, and after a broken handshake for the whole backoff as well,
  // whatever other connections see in between.
  lemma {:induction false} FailureKeepsTheProxyAway(seen: seq<Witness>, o: Settings, i: nat, j: nat)
    requires Lawful(seen, o) && i < j < |seen|
    requires !Good(seen[i]) && Good(seen[j])
    ensures seen[j].asked >= seen[i].at + o.probeTtl
    ensures seen[i].HandshakeFailed? ==> seen[j].asked >= seen[i].asked + o.handshakeBackoff
  {
    var n := |seen| - 1;
    if j < n {
      FailureKeepsTheProxyAway(seen[..n], o, i, j);
    } else {
      var before := seen[..n];
      TimeRuns(before, o, i);
      assert before[i] == seen[i];
    }
  }

  lemma {:induction false} FlipsAlternate(seen: seq<Witness>)
    ensures Flips(seen) == [] <==> seen == []
    ensures forall i :: 0 < i < |Flips(seen)| ==> Flips(seen)[i].via != Flips(seen)[i - 1].via
    ensures seen != [] ==> Flips(seen)[|Flips(seen)| - 1].via == Verdict(seen)
    ensures forall i :: 0 <= i < |Flips(seen)| ==> (Flips(seen)[i].via ==> Flips(seen)[i].reason == NO_REASON)
  {
    if seen != [] {
      FlipsAlternate(seen[..|seen| - 1]);
    }
  }

  // A backoff is that of the latest broken handshake, and of nothing else.
  lemma {:induction false} HoldIsTheLatest(seen: seq<Witness>, o: Settings) returns (k: nat)
    ensures k <= |seen| && forall i :: k <= i < |seen| ==> !seen[i].HandshakeFailed?
    ensures k > 0 ==> seen[k - 1].HandshakeFailed? && HeldUntil(seen, o) == seen[k - 1].asked + o.handshakeBackoff
    ensures k == 0 ==> HeldUntil(seen, o) == 0
  {
    k := |seen|;
    if seen != [] && !Last(seen).HandshakeFailed? {
      k := HoldIsTheLatest(seen[..|seen| - 1], o);
    }
  }

  // Each flip tells of one thing seen: a probe that found the proxy listening,
  // without a reason, or whatever else happened, with its own.
  lemma {:induction false} FlipIsItsWitness(seen: seq<Witness>, i: nat) returns (k: nat)
    requires i < |Flips(seen)|
    ensures k < |seen| && Flips(seen)[i].at == seen[k].at
    ensures Flips(seen)[i].via <==> seen[k].Probed? && seen[k].listening
    ensures Flips(seen)[i].reason == if Flips(seen)[i].via then "" else seen[k].reason
  {
    var before := seen[..|seen| - 1];
    if i < |Flips(before)| {
      k := FlipIsItsWitness(before, i);
    } else {
      k := |seen| - 1;
    }
  }

  lemma {:induction false} FlipsAreNotLater(seen: seq<Witness>, o: Settings, i: nat)
    requires Lawful(seen, o) && i < |Flips(seen)|
    ensures Flips(seen)[i].at <= ClockOf(seen)
  {
    var before := seen[..|seen| - 1];
    if i < |Flips(before)| {
      FlipsAreNotLater(before, o, i);
    }
  }

  // Two switches to the proxy lie at least a cache lifetime apart.
  lemma {:induction false} SwitchesAreSpaced(seen: seq<Witness>, o: Settings, i: nat, j: nat)
    requires Lawful(seen, o) && i < j < |Flips(seen)|
    requires Flips(seen)[i].via && Flips(seen)[j].via
    ensures Flips(seen)[j].at >= Flips(seen)[i].at + o.probeTtl
  {
    var before := seen[..|seen| - 1];
    if j < |Flips(before)| {
      SwitchesAreSpaced(before, o, i, j);
    } else {
      FlipsAreNotLater(before, o, i); // the cached failure is later still
    }
  }

  lemma {:induction false} LawfulPrefix(seen: seq<Witness>, o: Settings, n: nat)
    requires Lawful(seen, o) && n <= |seen|
    ensures Lawful(seen[..n], o)
  {
    if n < |seen| {
      LawfulPrefix(seen[..|seen| - 1], o, n);
      assert seen[..|seen| - 1][..n] == seen[..n];
    } else {
      assert seen[..n] == seen;
    }
  }

  // ---------- the relay ----------

  // How a chained CONNECT ended.
  datatype Chained =
    | NoDial(reason: Reason)
    | NoWrite(reason: Reason)
    | NoAnswer(reason: Reason)
    | Answered(status: int)

  class Relay {
    const opt: Settings
    var probed: bool
    var up: bool
    var lastProbe: Time
    var brokenUntil: Time
    var closed: bool
    var told: seq<Flip> // the calls of OnFlip

    ghost var seen: seq<Witness>
    ghost var atClose: nat // how much had been seen when the relay closed

    ghost predicate Valid()
      reads this
    {
      && Lawful(seen, opt)
      && probed == (seen != [])
      && up == Verdict(seen)
      && lastProbe == ClockOf(seen)
      && brokenUntil == HeldUntil(seen, opt)
      && atClose <= |seen| && (!closed ==> atClose == |seen|)
      && told == Flips(seen[..atClose])
    }

    constructor (o: Options)
      ensures Valid() && seen == [] && !closed
      ensures opt == o.WithDefaults()
    {
      opt := o.WithDefaults();
      probed, up, lastProbe, brokenUntil, closed, told := false, false, 0, 0, false, [];
      seen, atClose := [], 0;
    }

    // `w` is the witness behind the verdict; markBroken has moved the hold
    // before it gets here.
    method Record(verdict: bool, reason: Reason, now: Time, ghost w: Witness)
      requires Lawful(seen, opt) && probed == (seen != []) && up == Verdict(seen)
      requires atClose <= |seen| && (!closed ==> atClose == |seen|) && told == Flips(seen[..atClose])
      requires Allowed(seen, w, opt) && w.at == now && verdict == Good(w) && reason == Why(w)
      requires brokenUntil == HeldUntil(seen + [w], opt)
      modifies this`probed, this`up, this`lastProbe, this`told, this`seen, this`atClose
      ensures Valid() && seen == old(seen) + [w]
    {
      Grown(seen, w, opt);
      assert seen[..|seen|] == seen;
      var flip := !probed || verdict != up;
      probed, up, lastProbe := true, verdict, now;
      if flip && !closed {
        told := told + [Flip(verdict, now, reason)];
      }
      seen := seen + [w];
      if !closed {
        atClose := |seen|;
        assert seen[..atClose] == seen;
      } else {
        assert seen[..atClose] == old(seen)[..atClose];
      }
    }

    // `listening` is what a probe would find and `done` when it would be over.
    method ViaProxy(now: Time, listening: bool, reason: Reason, done: Time) returns (via: bool)
      requires Valid() && ClockOf(seen) <= now <= done
      modifies this`probed, this`up, this`lastProbe, this`told, this`seen, this`atClose
      ensures Valid() && via == (HeldUntil(seen, opt) <= now && Verdict(seen))
      ensures var was := old(seen);
              seen == if now < HeldUntil(was, opt) || (was != [] && now < Last(was).at + opt.probeTtl) then was
                      else was + [Probed(now, done, listening, reason)]
      // The answer rests on the latest thing seen, a probe that is still fresh.
      ensures via ==> seen != [] && Last(seen).Probed? && Last(seen).listening
      ensures via ==> now - Last(seen).at < opt.probeTtl
    {
      if now < brokenUntil {
        return false;
      }
      if probed && now - lastProbe < opt.probeTtl {
        return up;
      }
      ghost var w := Probed(now, done, listening, reason);
      Grown(seen, w, opt);
      if !listening {
        Record(false, reason, done, w);
      } else {
        Record(true, NO_REASON, done, w);
      }
      return up;
    }

    method MarkDown(reason: Reason, now: Time)
      requires Valid() && ClockOf(seen) <= now
      modifies this`probed, this`up, this`lastProbe, this`told, this`seen, this`atClose
      ensures Valid() && seen == old(seen) + [DialFailed(now, now, reason)]
    {
      ghost var w := DialFailed(now, now, reason);
      Grown(seen, w, opt);
      Record(false, reason, now, w);
    }

    method MarkBroken(reason: Reason, now: Time, done: Time)
      requires Valid() && ClockOf(seen) <= now <= done
      modifies this`probed, this`up, this`lastProbe, this`brokenUntil, this`told, this`seen, this`atClose
      ensures Valid() && seen == old(seen) + [HandshakeFailed(now, done, reason)]
    {
      ghost var w := HandshakeFailed(now, done, reason);
      Grown(seen, w, opt);
      brokenUntil := now + opt.handshakeBackoff;
      Record(false, reason, done, w);
    }

    // Whatever the proxy answers is the answer; any failure before that sends
    // the connection direct and tells the cache.
    method Chain(end: Chained, now: Time, done: Time) returns (answered: bool)
      requires Valid() && ClockOf(seen) <= now <= done
      modifies this`probed, this`up, this`lastProbe, this`brokenUntil, this`told, this`seen, this`atClose
      ensures Valid() && answered == end.Answered?
      ensures seen == match end
                      case Answered(_) => old(seen)
                      case NoDial(reason) => old(seen) + [DialFailed(now, now, reason)]
                      case NoWrite(reason) => old(seen) + [HandshakeFailed(now, done, reason)]
                      case NoAnswer(reason) => old(seen) + [HandshakeFailed(now, done, reason)]
    {
      match end {
        case NoDial(reason) =>
          MarkDown(reason, now);
          return false;
        case NoWrite(reason) =>
          MarkBroken(reason, now, done);
          return false;
        case NoAnswer(reason) =>
          MarkBroken(reason, now, done);
          return false;
        case Answered(_) =>
          return true;
      }
    }

    method Close()
      requires Valid()
      modifies this`closed
      ensures Valid() && closed
    {
      closed := true;
    }

    // What whoever listens to the flips can rely on.
    lemma ToldIsTheVerdict()
      requires Valid()
      ensures forall i :: 0 < i < |told| ==> told[i].via != told[i - 1].via
      ensures !closed && probed ==> told != [] && told[|told| - 1].via == up
      ensures forall i, j :: 0 <= i < j < |told| && told[i].via && told[j].via ==> told[j].at >= told[i].at + opt.probeTtl
      ensures up ==> brokenUntil <= lastProbe
    {
      FlipsAlternate(seen[..atClose]);
      assert !closed ==> seen[..atClose] == seen;
      LawfulPrefix(seen, opt, atClose);
      forall i, j | 0 <= i < j < |told| && told[i].via && told[j].via
        ensures told[j].at >= told[i].at + opt.probeTtl
      {
        SwitchesAreSpaced(seen[..atClose], opt, i, j);
      }
    }
  }
}
