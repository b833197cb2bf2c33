/** The sliding one-hour window per company link (modules/inter_company/service.py, _enforce_rate). */
module LinkWindow {
  const HOUR := 3600.0

  /** The timestamps kept when the window is looked at: expired ones go from the front. */
  function Pruned(window: seq<real>, now: real): seq<real> {
    if window != [] && window[0] < now - HOUR then Pruned(window[1..], now) else window
  }

  predicate Accepts(window: seq<real>, cap: int, now: real) {
    cap <= 0 || |Pruned(window, now)| < cap
  }

  /** A non-positive cap means unlimited, and nothing is recorded. */
  function Enforced(window: seq<real>, cap: int, now: real): seq<real> {
    if cap <= 0 then window
    else if |Pruned(window, now)| >= cap then Pruned(window, now)
    else Pruned(window, now) + [now]
  }

  /** One link's window together with every timestamp accepted on it so far. */
  datatype History = History(window: seq<real>, accepted: seq<real>)

  function Attempt(h: History, cap: int, now: real): History {
    History(Enforced(h.window, cap, now), if Accepts(h.window, cap, now) then h.accepted + [now] else h.accepted)
  }

  function AttemptAll(h: History, cap: int, times: seq<real>): History {
    if times == [] then h else Attempt(AttemptAll(h, cap, times[..|times| - 1]), cap, times[|times| - 1])
  }

  ghost predicate NonDecreasing(times: seq<real>) {
    forall i, j :: 0 <= i <= j < |times| ==> times[i] <= times[j]
  }

  /** The window is the part of the accepted timestamps less than an hour older than `now`, and no more. */
  ghost predicate Recent(h: History, now: real) {
    var dropped := |h.accepted| - |h.window|;
    && 0 <= dropped
    && h.window == h.accepted[dropped..]
    && NonDecreasing(h.accepted)
    && (forall i :: 0 <= i < |h.accepted| ==> h.accepted[i] <= now)
    && (forall i :: 0 <= i < dropped ==> h.accepted[i] < now - HOUR)
    && (forall i :: dropped <= i < |h.accepted| ==> h.accepted[i] >= now - HOUR)
  }

  /** Accepted messages `cap` apart are more than an hour apart. */
  ghost predicate SpacedBy(accepted: seq<real>, cap: int) {
    cap >= 0 && forall i: nat, j: nat :: i + cap == j < |accepted| ==> accepted[j] - accepted[i] > 3600.0
  }

  lemma {:induction false} PrunedIs(window: seq<real>, now: real) returns (k: nat)
    ensures k <= |window| && Pruned(window, now) == window[k..]
    ensures forall i :: 0 <= i < k ==> window[i] < now - HOUR
    ensures k < |window| ==> window[k] >= now - HOUR
    decreases |window|
  {
    k := 0;
    if window != [] && window[0] < now - HOUR {
      var rest := PrunedIs(window[1..], now);
      k := rest + 1;
    }
  }

  /** Looking at the window later drops exactly what has expired meanwhile. */
  lemma PruneKeepsRecent(h: History, was: real, now: real)
    requires was <= now && Recent(h, was)
    ensures Recent(h.(window := Pruned(h.window, now)), now)
  {
    var k := PrunedIs(h.window, now);
    var dropped := |h.accepted| - |h.window|;
    forall i | dropped <= i < |h.accepted|
      ensures i < dropped + k ==> h.accepted[i] < now - HOUR
      ensures i >= dropped + k ==> h.accepted[i] >= now - HOUR
    {
      assert h.window[i - dropped] == h.accepted[i];
      if i >= dropped + k {
        assert h.window[k] == h.accepted[dropped + k];
      }
    }
    assert h.window[k..] == h.accepted[dropped + k..];
  }

  lemma AcceptKeepsRecent(h: History, cap: int, now: real)
    requires cap >= 1 && Recent(h, now) && |h.window| < cap && SpacedBy(h.accepted, cap)
    ensures
      var h' := History(h.window + [now], h.accepted + [now]);
      Recent(h', now) && SpacedBy(h'.accepted, cap)
  {
    AppendKeepsRecent(h, now);
  }

  lemma AttemptKeeps(h: History, cap: int, was: real, now: real)
    requires cap >= 1 && was <= now && Recent(h, was) && SpacedBy(h.accepted, cap)
    ensures Recent(Attempt(h, cap, now), now) && SpacedBy(Attempt(h, cap, now).accepted, cap)
  {
    PruneKeepsRecent(h, was, now);
    if Accepts(h.window, cap, now) {
      AcceptKeepsRecent(h.(window := Pruned(h.window, now)), cap, now);
    }
  }

  /**
   Over any run of attempts at non-decreasing times under one positive cap: the window holds exactly the
   accepted timestamps of the last hour, and accepted message i + cap comes more than 3600 s after
   message i, so that no hour sees more than cap of them.
   */
  lemma {:induction false} LinkRateHolds(cap: int, times: seq<real>)
    requires cap >= 1 && NonDecreasing(times)
    ensures SpacedBy(AttemptAll(History([], []), cap, times).accepted, cap)
    ensures times != [] ==> Recent(AttemptAll(History([], []), cap, times), times[|times| - 1])
  {
    if times != [] {
      var n := |times| - 1;
      LinkRateHolds(cap, times[..n]);
      var h := AttemptAll(History([], []), cap, times[..n]);
      if n == 0 {
        AttemptKeeps(h, cap, times[0], times[0]);
      } else {
        assert times[..n][n - 1] == times[n - 1];
        AttemptKeeps(h, cap, times[n - 1], times[n]);
      }
    }
  }

  // ------------------------------------------------------------ what is accepted

  /** One attempt to send over the link, under the cap the link has at that time. */
  datatype Try = Try(cap: int, now: real)

  /** The window after any attempts, together with every timestamp recorded; unlimited sends are not recorded. */
  function AfterTries(tries: seq<Try>): History {
    if tries == [] then History([], [])
    else
      var h, t := AfterTries(tries[..|tries| - 1]), tries[|tries| - 1];
      if t.cap <= 0 then h.(window := Enforced(h.window, t.cap, t.now)) else Attempt(h, t.cap, t.now)
  }

  /** How many of the timestamps are not before `from`. */
  function Since(times: seq<real>, from: real): nat {
    if times == [] then 0 else Since(times[..|times| - 1], from) + (if times[|times| - 1] >= from then 1 else 0)
  }

  ghost predicate TimesAscend(tries: seq<Try>) {
    forall i, j :: 0 <= i <= j < |tries| ==> tries[i].now <= tries[j].now
  }

  /**
   Whatever was attempted before, and whatever caps the link had then: the next attempt goes through iff the
   link is unlimited or fewer than `cap` messages were accepted in the 3600 s up to it.
   */
  lemma AcceptedIff(tries: seq<Try>, cap: int, now: real)
    requires TimesAscend(tries) && (tries != [] ==> tries[|tries| - 1].now <= now)
    ensures Accepts(AfterTries(tries).window, cap, now) <==> cap <= 0 || Since(AfterTries(tries).accepted, now - 3600.0) < cap
  {
    var h := AfterTries(tries);
    var was := TriesKeepRecent(tries, now);
    PruneKeepsRecent(h, was, now);
    SinceIs(h.accepted, |h.accepted| - |Pruned(h.window, now)|, now - HOUR);
  }

  /** The window is exact as of the last time it was looked at. */
  lemma {:induction false} TriesKeepRecent(tries: seq<Try>, now: real) returns (was: real)
    requires TimesAscend(tries) && (tries != [] ==> tries[|tries| - 1].now <= now)
    ensures was <= now && Recent(AfterTries(tries), was)
  {
    if tries == [] {
      was := now;
    } else {
      var front, t := tries[..|tries| - 1], tries[|tries| - 1];
      was := TriesKeepRecent(front, t.now);
      if t.cap > 0 {
        var h := AfterTries(front);
        PruneKeepsRecent(h, was, t.now);
        was := t.now;
        if Accepts(h.window, t.cap, t.now) {
          AppendKeepsRecent(h.(window := Pruned(h.window, t.now)), t.now);
        }
      }
    }
  }

  lemma AppendKeepsRecent(h: History, now: real)
    requires Recent(h, now)
    ensures Recent(History(h.window + [now], h.accepted + [now]), now)
  {
    assert (h.accepted + [now])[|h.accepted| - |h.window|..] == h.window + [now];
  }

  lemma {:induction false} SinceIs(times: seq<real>, dropped: nat, from: real)
    requires dropped <= |times|
    requires forall i :: 0 <= i < dropped ==> times[i] < from
    requires forall i :: dropped <= i < |times| ==> times[i] >= from
    ensures Since(times, from) == |times| - dropped
  {
    if times != [] {
      SinceIs(times[..|times| - 1], if dropped == |times| then dropped - 1 else dropped, from);
    }
  }

  class LinkRates {
    var windows: map<string, seq<real>>

    constructor ()
      ensures windows == map[]
    {
      windows := map[];
    }

    function WindowOf(link: string): seq<real>
      reads this
    {
      if link in windows then windows[link] else []
    }

    /** False where the source raises CrossRateLimited. Other links are not looked at. */
    method EnforceRate(link: string, cap: int, now: real) returns (ok: bool)
      modifies this
      ensures ok == Accepts(old(WindowOf(link)), cap, now)
      ensures WindowOf(link) == Enforced(old(WindowOf(link)), cap, now)
      ensures forall other :: other != link ==> WindowOf(other) == old(WindowOf(other))
    {
      if cap <= 0 {
        return true;
      }
      var window := WindowOf(link);
      while window != [] && window[0] < now - HOUR
        invariant Pruned(window, now) == Pruned(old(WindowOf(link)), now)
        decreases |window|
      {
        window := window[1..];
      }
      if |window| >= cap {
        windows := windows[link := window];
        return false;
      }
      windows := windows[link := window + [now]];
      ok := true;
    }
  }
}
