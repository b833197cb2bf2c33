/**
 The pausable, restartable company clock (modules/clock/clock.py). Times are seconds as reals; each step
 is given the wall reading it makes. The company clock runs `factor` times as fast as the wall.
 */
module Clocks {
  import opened Common

  const DAY := 86400.0

  datatype Phase = RUNNING | PAUSING | PAUSED

  /** The row that outlives the process. */
  datatype Kept = Kept(
    phase: Phase, epochReal: real, epochCompany: real, pausedTotal: real, pauseStart: Option<real>, lastDay: int)

  /** One process's clock: the row, the last time it showed, and the DAY_TICK events so far. */
  datatype State = State(kept: Kept, lastTime: Option<real>, ticks: seq<int>)

  /** The first start of all. */
  function Fresh(wall: real): State {
    State(Kept(RUNNING, wall, wall, 0.0, None, 0), None, [])
  }

  function Max(a: real, b: real): real {
    if a < b then b else a
  }

  function Elapsed(k: Kept, wall: real): real {
    var anchor := if k.phase != RUNNING && k.pauseStart.Some? then k.pauseStart.value else wall;
    Max(0.0, anchor - k.epochReal - k.pausedTotal)
  }

  /** How far the company clock runs in that much wall time. */
  function CompanySeconds(elapsed: real, factor: real): real {
    elapsed * factor
  }

  /** The company time worked out from the row, before the clamp. */
  function Computed(k: Kept, factor: real, wall: real): real {
    k.epochCompany + CompanySeconds(Elapsed(k, wall), factor)
  }

  /** What now_company shows: never less than what it showed before. */
  function Shown(s: State, factor: real, wall: real): real {
    var value := Computed(s.kept, factor, wall);
    if s.lastTime.Some? then Max(s.lastTime.value, value) else value
  }

  function AfterNow(s: State, factor: real, wall: real): State {
    s.(lastTime := Some(Shown(s, factor, wall)))
  }

  function Settle(s: State, idle: bool): State {
    if s.kept.phase == PAUSING && idle then s.(kept := s.kept.(phase := PAUSED)) else s
  }

  function AfterPause(s: State, wall: real, idle: bool): State {
    if s.kept.phase != RUNNING then s
    else Settle(s.(kept := s.kept.(phase := PAUSING, pauseStart := Some(wall))), idle)
  }

  function AfterResume(s: State, wall: real): State {
    var k := s.kept;
    if k.phase == RUNNING then s
    else if k.pauseStart.None? then s.(kept := k.(phase := RUNNING))
    else s.(kept := k.(phase := RUNNING, pausedTotal := k.pausedTotal + Max(0.0, wall - k.pauseStart.value), pauseStart := None))
  }

  /** A new process: the row survives, and a gap in a pause counts as paused. */
  function Restart(s: State, wall: real): State {
    var k := s.kept;
    var k' :=
      if k.phase != RUNNING && k.pauseStart.Some? then
        k.(pausedTotal := k.pausedTotal + Max(0.0, wall - k.pauseStart.value), pauseStart := Some(wall))
      else k;
    State(k', None, s.ticks)
  }

  /** lo, lo + 1, .., hi */
  function Days(lo: int, hi: int): (days: seq<int>)
    ensures |days| == if hi < lo then 0 else hi - lo + 1
    decreases hi - lo
  {
    if hi < lo then [] else Days(lo, hi - 1) + [hi]
  }

  function DayOf(k: Kept, time: real): int {
    ((time - k.epochCompany) / DAY).Floor
  }

  function AfterDayTicks(s: State, factor: real, wall: real): State {
    var day, s1 := DayOf(s.kept, Shown(s, factor, wall)), AfterNow(s, factor, wall);
    if day <= s.kept.lastDay then s1
    else s1.(kept := s1.kept.(lastDay := day), ticks := s.ticks + Days(s.kept.lastDay + 1, day))
  }

  /** Counting whole days of 86400 seconds rounds down. */
  lemma FloorIs(x: real, d: int)
    ensures d <= (x / 86400.0).Floor <==> d as real * 86400.0 <= x
  {
    var q := x / 86400.0;
    assert q * 86400.0 == x;
    assert d as real <= q <==> d as real * 86400.0 <= q * 86400.0;
    assert q.Floor as real <= q < q.Floor as real + 1.0;
  }

  /** The days announced are those after the row's last one that have come by the time shown. */
  lemma NewDaysHaveCome(s: State, factor: real, wall: real, d: int)
    ensures s.ticks <= AfterDayTicks(s, factor, wall).ticks
    ensures
      d in AfterDayTicks(s, factor, wall).ticks[|s.ticks|..] <==>
      s.kept.lastDay < d && s.kept.epochCompany + d as real * 86400.0 <= Shown(s, factor, wall)
  {
    var day := DayOf(s.kept, Shown(s, factor, wall));
    FloorIs(Shown(s, factor, wall) - s.kept.epochCompany, d);
    DaysHold(s.kept.lastDay + 1, day, d);
    if day > s.kept.lastDay {
      assert AfterDayTicks(s, factor, wall).ticks[|s.ticks|..] == Days(s.kept.lastDay + 1, day);
    }
  }

  lemma {:induction false} DaysHold(lo: int, hi: int, d: int)
    ensures d in Days(lo, hi) <==> lo <= d <= hi
    decreases hi - lo
  {
    if lo <= hi {
      DaysHold(lo, hi - 1, d);
    }
  }

  function AfterPump(s: State, factor: real, wall: real, idle: bool): State {
    Settle(AfterDayTicks(s, factor, wall), idle)
  }

  /** How many events a pump that dies on its way from appending to persisting leaves unrecorded. */
  function Orphans(s: State, factor: real, wall: real, appended: nat): nat {
    var pending := DayOf(s.kept, Shown(s, factor, wall)) - s.kept.lastDay;
    if pending < 0 then 0 else if appended < pending then appended else pending
  }

  /** A pump that dies after appending that many events, and the next process. */
  function DieInPump(s: State, factor: real, wall: real, appended: nat): State {
    var lost := Orphans(s, factor, wall, appended);
    Restart(s.(ticks := s.ticks + Days(s.kept.lastDay + 1, s.kept.lastDay + lost)), wall)
  }

  // ------------------------------------------------------------ runs

  datatype Op =
    | OpNow(wall: real)
    | OpPause(wall: real, idle: bool)
    | OpResume(wall: real)
    | OpPump(wall: real, idle: bool)
    | OpRestart(wall: real)
    | OpDieInPump(wall: real, appended: nat)

  function Step(s: State, factor: real, op: Op): State {
    match op
    case OpNow(wall) => AfterNow(s, factor, wall)
    case OpPause(wall, idle) => AfterPause(s, wall, idle)
    case OpResume(wall) => AfterResume(s, wall)
    case OpPump(wall, idle) => AfterPump(s, factor, wall, idle)
    case OpRestart(wall) => Restart(s, wall)
    case OpDieInPump(wall, appended) => DieInPump(s, factor, wall, appended)
  }

  function Run(s: State, factor: real, ops: seq<Op>): State
    decreases |ops|
  {
    if ops == [] then s else Run(Step(s, factor, ops[0]), factor, ops[1..])
  }

  // ------------------------------------------------------------ company time is a stopwatch's

  /** A stopwatch that a pause stops and a resume starts again; restarts do not touch it. */
  datatype Stopwatch = Stopwatch(running: real, going: bool, last: real)

  function ReadAt(w: Stopwatch, wall: real): real {
    w.running + if w.going then wall - w.last else 0.0
  }

  function Watched(w: Stopwatch, op: Op): Stopwatch {
    Stopwatch(ReadAt(w, op.wall), (w.going || op.OpResume?) && !op.OpPause?, op.wall)
  }

  function WatchedRun(w: Stopwatch, ops: seq<Op>): Stopwatch
    decreases |ops|
  {
    if ops == [] then w else WatchedRun(Watched(w, ops[0]), ops[1..])
  }

  ghost predicate NonDecreasing(from: real, ops: seq<Op>)
    decreases |ops|
  {
    ops == [] || (from <= ops[0].wall && NonDecreasing(ops[0].wall, ops[1..]))
  }

  /** The clock keeps what the stopwatch shows. */
  ghost predicate Agrees(s: State, factor: real, w: Stopwatch) {
    var k := s.kept;
    && (w.going <==> k.phase == RUNNING)
    && (w.going <==> k.pauseStart.None?)
    && (w.going ==> w.last - k.epochReal - k.pausedTotal == w.running)
    && (!w.going ==> k.pauseStart.value - k.epochReal - k.pausedTotal == w.running && k.pauseStart.value <= w.last)
    && w.running >= 0.0
    && (s.lastTime.Some? ==> s.lastTime.value <= k.epochCompany + CompanySeconds(w.running, factor))
  }

  lemma Scaled(a: real, b: real, factor: real)
    requires a <= b && factor >= 0.0
    ensures CompanySeconds(a, factor) <= CompanySeconds(b, factor)
  {
    assert (b - a) * factor >= 0.0;
  }

  lemma ShownIsWatch(s: State, factor: real, w: Stopwatch, wall: real)
    requires factor > 0.0 && Agrees(s, factor, w) && w.last <= wall
    ensures Shown(s, factor, wall) == s.kept.epochCompany + CompanySeconds(ReadAt(w, wall), factor)
  {
    assert Elapsed(s.kept, wall) == ReadAt(w, wall);
    Scaled(w.running, ReadAt(w, wall), factor);
  }

  lemma StepAgrees(s: State, factor: real, w: Stopwatch, op: Op)
    requires factor > 0.0 && Agrees(s, factor, w) && w.last <= op.wall
    ensures Agrees(Step(s, factor, op), factor, Watched(w, op))
    ensures Step(s, factor, op).kept.epochCompany == s.kept.epochCompany
  {
    ShownIsWatch(s, factor, w, op.wall);
    Scaled(w.running, ReadAt(w, op.wall), factor);
  }

  /**
   For wall readings that never go back and a fixed rate, the company time after any interleaving of
   readings, pauses, resumes, pumps and restarts is the epoch plus factor times the time on the stopwatch.
   */
  lemma CompanyTimeIsRunningTime(s: State, factor: real, w: Stopwatch, ops: seq<Op>, wall: real)
    requires factor > 0.0 && Agrees(s, factor, w)
    requires NonDecreasing(w.last, ops) && WatchedRun(w, ops).last <= wall
    ensures Shown(Run(s, factor, ops), factor, wall)
         == s.kept.epochCompany + CompanySeconds(ReadAt(WatchedRun(w, ops), wall), factor)
  {
    RunAgrees(s, factor, w, ops);
    ShownIsWatch(Run(s, factor, ops), factor, WatchedRun(w, ops), wall);
  }

  lemma {:induction false} RunAgrees(s: State, factor: real, w: Stopwatch, ops: seq<Op>)
    requires factor > 0.0 && Agrees(s, factor, w) && NonDecreasing(w.last, ops)
    ensures Agrees(Run(s, factor, ops), factor, WatchedRun(w, ops))
    ensures Run(s, factor, ops).kept.epochCompany == s.kept.epochCompany
    decreases |ops|
  {
    if ops != [] {
      StepAgrees(s, factor, w, ops[0]);
      RunAgrees(Step(s, factor, ops[0]), factor, Watched(w, ops[0]), ops[1..]);
    }
  }

  /** From the first start on: the wall time of that start, plus factor times the time spent running since. */
  lemma CompanyTimeFromStart(start: real, factor: real, ops: seq<Op>, wall: real)
    requires factor > 0.0 && NonDecreasing(start, ops)
    requires WatchedRun(Stopwatch(0.0, true, start), ops).last <= wall
    ensures Shown(Run(Fresh(start), factor, ops), factor, wall)
         == start + CompanySeconds(ReadAt(WatchedRun(Stopwatch(0.0, true, start), ops), wall), factor)
  {
    CompanyTimeIsRunningTime(Fresh(start), factor, Stopwatch(0.0, true, start), ops, wall);
  }

  // ------------------------------------------------------------ restarts

  predicate InPause(k: Kept) {
    k.phase != RUNNING && k.pauseStart.Some?
  }

  /**
   A restart never moves the company time forward. It keeps the time exactly iff two things hold: it is not
   in a pause that began after the wall now reads, unless nothing had elapsed; and the clamp, which is not
   in the row, was not holding the time up.
   */
  lemma RestartKeepsTime(s: State, factor: real, wall: real, later: real)
    requires factor > 0.0
    ensures Shown(Restart(s, wall), factor, later) <= Shown(s, factor, later)
    ensures Shown(Restart(s, wall), factor, later) == Shown(s, factor, later) <==> (
      && (InPause(s.kept) ==> s.kept.pauseStart.value <= wall || Elapsed(s.kept, later) == 0.0)
      && (s.lastTime.Some? ==> s.lastTime.value <= Computed(s.kept, factor, later)))
  {
    var before, after := Elapsed(s.kept, later), Elapsed(Restart(s, wall).kept, later);
    Scaled(after, before, factor);
    if after < before {
      assert (before - after) * factor > 0.0;
      assert CompanySeconds(before, factor) - CompanySeconds(after, factor) == (before - after) * factor;
    }
  }

  /**
   What a new process first shows: in a pause, the time of the pause's start or of the wall, whichever is
   earlier, else that of the wall. So a restart takes back a time already shown iff this lies below it.
   */
  lemma RestartShows(s: State, factor: real, wall: real)
    requires factor > 0.0
    ensures
      var anchor := if InPause(s.kept) && s.kept.pauseStart.value <= wall then s.kept.pauseStart.value else wall;
      Shown(Restart(s, wall), factor, wall)
        == s.kept.epochCompany + CompanySeconds(Max(0.0, anchor - s.kept.epochReal - s.kept.pausedTotal), factor)
  {
  }

  /** Paused at 10 s, restarted with the wall back at 5 s: half the company time is gone. */
  lemma RestartLosesTime()
    ensures
      var s := AfterPause(Fresh(0.0), 10.0, true);
      Shown(s, 1.0, 20.0) == 10.0 && Shown(Restart(s, 5.0), 1.0, 20.0) == 5.0
  {
    assert CompanySeconds(10.0, 1.0) == 10.0 && CompanySeconds(5.0, 1.0) == 5.0;
  }

  /** Shown 100, the wall set back to 50, then paused: a restart at 60 forgets the clamp and shows 50. */
  lemma RestartForgetsClamp()
    ensures
      var s := AfterPause(AfterNow(Fresh(0.0), 1.0, 100.0), 50.0, true);
      Shown(s, 1.0, 70.0) == 100.0 && Shown(Restart(s, 60.0), 1.0, 70.0) == 50.0
  {
    assert CompanySeconds(100.0, 1.0) == 100.0 && CompanySeconds(50.0, 1.0) == 50.0;
  }

  /** The same without a pause: shown 100, the wall set back to 50, restarted: 50. */
  lemma RunningRestartLosesTime()
    ensures
      var s := AfterNow(Fresh(0.0), 1.0, 100.0);
      Shown(s, 1.0, 50.0) == 100.0 && Shown(Restart(s, 50.0), 1.0, 50.0) == 50.0
  {
    assert CompanySeconds(100.0, 1.0) == 100.0 && CompanySeconds(50.0, 1.0) == 50.0;
  }

  // ------------------------------------------------------------ time never goes back

  predicate SameProcess(op: Op) {
    !op.OpRestart? && !op.OpDieInPump?
  }

  /** Within one process the time shown never falls, whatever the wall readings. */
  lemma {:induction false} TimeNeverFalls(s: State, factor: real, ops: seq<Op>, wall: real)
    requires s.lastTime.Some? && forall op :: op in ops ==> SameProcess(op)
    ensures s.lastTime.value <= Shown(Run(s, factor, ops), factor, wall)
    decreases |ops|
  {
    if ops != [] {
      assert SameProcess(ops[0]) && forall op :: op in ops[1..] ==> op in ops;
      TimeNeverFalls(Step(s, factor, ops[0]), factor, ops[1..], wall);
    }
  }

  // ------------------------------------------------------------ day ticks

  lemma {:induction false} DaysConcat(lo: int, mid: int, hi: int)
    requires lo <= mid + 1 && mid <= hi
    ensures Days(lo, mid) + Days(mid + 1, hi) == Days(lo, hi)
    decreases hi - mid
  {
    if mid < hi {
      DaysConcat(lo, mid, hi - 1);
      ConcatSnoc(Days(lo, mid), Days(mid + 1, hi - 1), hi);
    }
  }

  /** The highest of some days, at least `high`. */
  function Highest(high: int, days: seq<int>): int
    decreases |days|
  {
    if days == [] then high else Highest(if days[0] > high then days[0] else high, days[1..])
  }

  /** Each day is at most one above the highest before it: days may come again, but none is skipped. */
  predicate NoneSkipped(high: int, days: seq<int>)
    decreases |days|
  {
    days == [] || (days[0] <= high + 1 && NoneSkipped(if days[0] > high then days[0] else high, days[1..]))
  }

  lemma {:induction false} NoneSkippedConcat(high: int, a: seq<int>, b: seq<int>)
    ensures Highest(high, a + b) == Highest(Highest(high, a), b)
    ensures NoneSkipped(high, a + b) <==> NoneSkipped(high, a) && NoneSkipped(Highest(high, a), b)
    ensures Highest(high, a) >= high
    decreases |a|
  {
    if a == [] {
      assert a + b == b;
    } else {
      assert (a + b)[1..] == a[1..] + b;
      NoneSkippedConcat(if a[0] > high then a[0] else high, a[1..], b);
    }
  }

  /** Consecutive days from no later than the one after the highest go on without a gap. */
  lemma {:induction false} DaysGoOn(high: int, lo: int, hi: int)
    requires lo <= high + 1
    ensures NoneSkipped(high, Days(lo, hi))
    ensures Highest(high, Days(lo, hi)) == if lo <= hi && high < hi then hi else high
    decreases hi - lo
  {
    if lo <= hi {
      DaysGoOn(high, lo, hi - 1);
      NoneSkippedConcat(high, Days(lo, hi - 1), [hi]);
      assert [hi][1..] == [];
    }
  }

  /** The log so far skips no day, and the row is not ahead of it. */
  ghost predicate TicksInOrder(s: State) {
    0 <= s.kept.lastDay <= Highest(0, s.ticks) && NoneSkipped(0, s.ticks)
  }

  lemma StepSkipsNone(s: State, factor: real, op: Op)
    requires TicksInOrder(s)
    ensures TicksInOrder(Step(s, factor, op))
  {
    var high, last := Highest(0, s.ticks), s.kept.lastDay;
    var upTo :=
      if op.OpPump? then DayOf(s.kept, Shown(s, factor, op.wall))
      else last + OrphansOf(s, factor, op);
    DaysGoOn(high, last + 1, upTo);
    NoneSkippedConcat(0, s.ticks, Days(last + 1, upTo));
  }

  /** Over every run, dying pumps included, the DAY_TICK events skip no day. */
  lemma {:induction false} RunSkipsNone(s: State, factor: real, ops: seq<Op>)
    requires TicksInOrder(s)
    ensures TicksInOrder(Run(s, factor, ops))
    decreases |ops|
  {
    if ops != [] {
      StepSkipsNone(s, factor, ops[0]);
      RunSkipsNone(Step(s, factor, ops[0]), factor, ops[1..]);
    }
  }

  function OrphansOf(s: State, factor: real, op: Op): nat {
    if op.OpDieInPump? then Orphans(s, factor, op.wall, op.appended) else 0
  }

  function OrphansIn(s: State, factor: real, ops: seq<Op>): nat
    decreases |ops|
  {
    if ops == [] then 0 else OrphansOf(s, factor, ops[0]) + OrphansIn(Step(s, factor, ops[0]), factor, ops[1..])
  }

  /**
   Over every run, whatever the wall readings, the DAY_TICK events are exactly the days 1 .. last_day_ticked,
   each once and in order, iff no pump died between appending and persisting; every event such a pump
   appended is one too many.
   */
  lemma TicksAreDays(s: State, factor: real, ops: seq<Op>)
    requires s.ticks == Days(1, s.kept.lastDay) && s.kept.lastDay >= 0
    ensures
      var s' := Run(s, factor, ops);
      && |s'.ticks| == s'.kept.lastDay + OrphansIn(s, factor, ops)
      && s'.kept.lastDay >= s.kept.lastDay
      && (s'.ticks == Days(1, s'.kept.lastDay) <==> OrphansIn(s, factor, ops) == 0)
  {
    RunTicks(s, factor, ops);
  }

  /** A pump that dies after appending day 1, and the next one: day 1 is announced twice. */
  lemma DayAnnouncedTwice()
    ensures Run(Fresh(0.0), 24.0, [OpDieInPump(3600.0, 1), OpPump(3600.0, true)]).ticks == [1, 1]
  {
    var s := Fresh(0.0);
    assert CompanySeconds(3600.0, 24.0) == 86400.0;
    assert DayOf(s.kept, Shown(s, 24.0, 3600.0)) == 1;
    assert Days(1, 1) == [1];
    var s1 := Step(s, 24.0, OpDieInPump(3600.0, 1));
    assert s1 == s.(ticks := [1]);
    var ops := [OpDieInPump(3600.0, 1), OpPump(3600.0, true)];
    assert ops[1..] == [OpPump(3600.0, true)] && ops[1..][1..] == [];
    assert Run(s1, 24.0, ops[1..]) == Step(s1, 24.0, ops[1]);
  }

  lemma {:induction false} RunTicks(s: State, factor: real, ops: seq<Op>)
    requires s.kept.lastDay >= 0
    ensures
      var s' := Run(s, factor, ops);
      && |s'.ticks| - s'.kept.lastDay == |s.ticks| - s.kept.lastDay + OrphansIn(s, factor, ops)
      && s'.kept.lastDay >= s.kept.lastDay
      && (s.ticks == Days(1, s.kept.lastDay) && OrphansIn(s, factor, ops) == 0 ==> s'.ticks == Days(1, s'.kept.lastDay))
    decreases |ops|
  {
    if ops != [] {
      StepTicks(s, factor, ops[0]);
      RunTicks(Step(s, factor, ops[0]), factor, ops[1..]);
    }
  }

  lemma StepTicks(s: State, factor: real, op: Op)
    requires s.kept.lastDay >= 0
    ensures
      var s' := Step(s, factor, op);
      && |s'.ticks| - s'.kept.lastDay == |s.ticks| - s.kept.lastDay + OrphansOf(s, factor, op)
      && s'.kept.lastDay >= s.kept.lastDay
      && (s.ticks == Days(1, s.kept.lastDay) && OrphansOf(s, factor, op) == 0 ==> s'.ticks == Days(1, s'.kept.lastDay))
  {
    if op.OpPump? {
      var day := DayOf(s.kept, Shown(s, factor, op.wall));
      if day > s.kept.lastDay {
        DaysConcat(1, s.kept.lastDay, day);
      }
    }
  }

  // ------------------------------------------------------------ days after a pump that died

  /** The places in the log of the last event of each pump that dies. */
  function LastOfDead(s: State, factor: real, ops: seq<Op>): set<nat>
    decreases |ops|
  {
    if ops == [] then {}
    else
      var s1 := Step(s, factor, ops[0]);
      (if ops[0].OpDieInPump? && |s1.ticks| > |s.ticks| then {|s1.ticks| - 1} else {}) + LastOfDead(s1, factor, ops[1..])
  }

  lemma {:induction false} DaysAt(lo: int, hi: int, p: nat)
    requires p < |Days(lo, hi)|
    ensures Days(lo, hi)[p] == lo + p
    decreases hi - lo
  {
    if p < |Days(lo, hi)| - 1 {
      DaysAt(lo, hi - 1, p);
    }
  }

  /** A step appends days that start after the row's last one; a step that is not a dying pump ends on the new last one. */
  lemma StepAppends(s: State, factor: real, op: Op)
    ensures
      var s' := Step(s, factor, op);
      && s.ticks <= s'.ticks && s'.kept.lastDay >= s.kept.lastDay
      && (|s'.ticks| == |s.ticks| ==> s'.kept.lastDay == s.kept.lastDay)
      && (forall j :: |s.ticks| <= j < |s'.ticks| ==> s'.ticks[j] == s.kept.lastDay + 1 + j - |s.ticks|)
      && (|s'.ticks| > |s.ticks| && op.OpDieInPump? ==> s'.kept.lastDay == s.kept.lastDay)
      && (|s'.ticks| > |s.ticks| && !op.OpDieInPump? ==> s'.ticks[|s'.ticks| - 1] == s'.kept.lastDay)
  {
    var upTo :=
      if op.OpPump? then DayOf(s.kept, Shown(s, factor, op.wall))
      else s.kept.lastDay + OrphansOf(s, factor, op);
    var days := Days(s.kept.lastDay + 1, upTo);
    forall p | 0 <= p < |days|
      ensures days[p] == s.kept.lastDay + 1 + p
    {
      DaysAt(s.kept.lastDay + 1, upTo, p);
    }
  }

  lemma {:induction false} RunAppends(s: State, factor: real, ops: seq<Op>)
    ensures
      var s' := Run(s, factor, ops);
      && s.ticks <= s'.ticks
      && (|s'.ticks| > |s.ticks| ==> s'.ticks[|s.ticks|] == s.kept.lastDay + 1)
      && (forall j :: j in LastOfDead(s, factor, ops) ==> |s.ticks| <= j < |s'.ticks|)
    decreases |ops|
  {
    if ops != [] {
      StepAppends(s, factor, ops[0]);
      RunAppends(Step(s, factor, ops[0]), factor, ops[1..]);
    }
  }

  /** Each day in the log is at most the one after the day before it, and no later than it if that was a dying pump's last. */
  lemma {:induction false} DeadDaysComeAgain(s: State, factor: real, ops: seq<Op>, j: nat)
    requires |s.ticks| <= j && j + 1 < |Run(s, factor, ops).ticks|
    ensures
      var ticks := Run(s, factor, ops).ticks;
      ticks[j + 1] <= ticks[j] + if j in LastOfDead(s, factor, ops) then 0 else 1
    decreases |ops|
  {
    if ops == [] {
      assert false;
    } else {
      var s1 := Step(s, factor, ops[0]);
      StepAppends(s, factor, ops[0]);
      RunAppends(s1, factor, ops[1..]);
      if j >= |s1.ticks| {
        DeadDaysComeAgain(s1, factor, ops[1..], j);
      }
    }
  }

  /** The place in the log of an event that a pump appended which lived to see it persisted. */
  predicate Announced(s: State, factor: real, ops: seq<Op>, day: int, j: nat) {
    var ticks := Run(s, factor, ops).ticks;
    |s.ticks| <= j < |ticks| && j !in LastOfDead(s, factor, ops) && ticks[j] == day
  }

  /** If a run has moved the row's last day at all, a pump that did not die has announced that day. */
  lemma {:induction false} LastDayIsAnnounced(s: State, factor: real, ops: seq<Op>)
    ensures
      var last := Run(s, factor, ops).kept.lastDay;
      last == s.kept.lastDay || exists j: nat :: Announced(s, factor, ops, last, j)
    decreases |ops|
  {
    if ops != [] {
      var s1, s' := Step(s, factor, ops[0]), Run(s, factor, ops);
      StepAppends(s, factor, ops[0]);
      RunAppends(s1, factor, ops[1..]);
      LastDayIsAnnounced(s1, factor, ops[1..]);
      if s'.kept.lastDay != s1.kept.lastDay {
        var j: nat :| Announced(s1, factor, ops[1..], s'.kept.lastDay, j);
        assert Announced(s, factor, ops, s'.kept.lastDay, j);
      } else if s1.kept.lastDay != s.kept.lastDay {
        assert Announced(s, factor, ops, s'.kept.lastDay, |s1.ticks| - 1);
      }
    }
  }

  // ------------------------------------------------------------ the clock itself

  /** What outlives the process: the row and the event store. */
  class ClockStore {
    var row: Option<Kept>
    var ticks: seq<int>

    constructor ()
      ensures row == None && ticks == []
    {
      row, ticks := None, [];
    }
  }

  class Clock {
    const store: ClockStore
    const factor: real
    var phase: Phase
    var epochReal: real
    var epochCompany: real
    var pausedTotal: real
    var pauseStart: Option<real>
    var lastDay: int
    var lastTime: Option<real>

    function Row(): Kept
      reads this
    {
      Kept(phase, epochReal, epochCompany, pausedTotal, pauseStart, lastDay)
    }

    ghost function Contents(): State
      reads this, store
    {
      State(Row(), lastTime, store.ticks)
    }

    /** Between two calls the row is what the process remembers. */
    ghost predicate Valid()
      reads this, store
    {
      store.row == Some(Row()) && factor > 0.0
    }

    /** Starting a process: on the first one ever, a fresh row. */
    constructor (store: ClockStore, factor: real, wall: real)
      requires factor > 0.0
      modifies store
      ensures Valid() && this.store == store && this.factor == factor
      ensures old(store.row).None? ==> Contents() == Fresh(wall).(ticks := old(store.ticks))
      ensures old(store.row).Some? ==> Contents() == Restart(State(old(store.row).value, None, old(store.ticks)), wall)
    {
      this.store, this.factor := store, factor;
      phase, epochReal, epochCompany, pausedTotal, pauseStart, lastDay := RUNNING, wall, wall, 0.0, None, 0;
      lastTime := None;
      new;
      if store.row.None? {
        Persist();
        return;
      }
      var row := store.row.value;
      phase, epochReal, epochCompany := row.phase, row.epochReal, row.epochCompany;
      pausedTotal, pauseStart, lastDay := row.pausedTotal, row.pauseStart, row.lastDay;
      if (phase == PAUSING || phase == PAUSED) && pauseStart.Some? {
        var extra := Max(0.0, wall - pauseStart.value);
        pausedTotal := pausedTotal + extra;
        pauseStart := Some(wall);
        Persist();
      }
    }

    method Persist()
      modifies store`row
      ensures store.row == Some(Row())
    {
      store.row := Some(Row());
    }

    method NowCompany(wall: real) returns (time: real)
      requires Valid()
      modifies this`lastTime
      ensures Valid() && Contents() == AfterNow(old(Contents()), factor, wall)
      ensures time == Shown(old(Contents()), factor, wall)
    {
      var anchor := wall;
      if (phase == PAUSED || phase == PAUSING) && pauseStart.Some? {
        anchor := pauseStart.value;
      }
      var elapsed := anchor - epochReal - pausedTotal;
      if elapsed < 0.0 {
        elapsed := 0.0;
      }
      time := epochCompany + CompanySeconds(elapsed, factor);
      if lastTime.Some? && time < lastTime.value {
        time := lastTime.value;
      }
      lastTime := Some(time);
    }

    method Pause(wall: real, idle: bool)
      requires Valid()
      modifies this`phase, this`pauseStart, store`row
      ensures Valid() && Contents() == AfterPause(old(Contents()), wall, idle)
    {
      if phase == PAUSING || phase == PAUSED {
        return;
      }
      phase, pauseStart := PAUSING, Some(wall);
      Persist();
      MaybeFinalisePause(idle);
    }

    method Resume(wall: real)
      requires Valid()
      modifies this`phase, this`pausedTotal, this`pauseStart, store`row
      ensures Valid() && Contents() == AfterResume(old(Contents()), wall)
    {
      if phase == RUNNING {
        return;
      }
      if pauseStart.Some? {
        pausedTotal := pausedTotal + Max(0.0, wall - pauseStart.value);
        pauseStart := None;
      }
      phase := RUNNING;
      Persist();
    }

    method MaybeFinalisePause(idle: bool)
      requires Valid()
      modifies this`phase, store`row
      ensures Valid() && Contents() == Settle(old(Contents()), idle)
    {
      if phase != PAUSING {
        return;
      }
      if idle {
        phase := PAUSED;
        Persist();
      }
    }

    method PumpOnce(wall: real, idle: bool)
      requires Valid()
      modifies this`lastTime, this`lastDay, this`phase, store
      ensures Valid() && Contents() == AfterPump(old(Contents()), factor, wall, idle)
      ensures lastTime.Some? && old(store.ticks) <= store.ticks
      ensures forall d :: d in store.ticks[|old(store.ticks)|..] <==>
                            old(lastDay) < d && epochCompany + d as real * 86400.0 <= lastTime.value
    {
      EmitDayTicks(wall);
      MaybeFinalisePause(idle);
    }

    method EmitDayTicks(wall: real)
      requires Valid()
      modifies this`lastTime, this`lastDay, store
      ensures Valid() && Contents() == AfterDayTicks(old(Contents()), factor, wall)
      ensures lastTime.Some? && old(store.ticks) <= store.ticks
      ensures forall d :: d in store.ticks[|old(store.ticks)|..] <==>
                            old(lastDay) < d && epochCompany + d as real * 86400.0 <= lastTime.value
    {
      forall d {
        NewDaysHaveCome(Contents(), factor, wall, d);
      }
      var companyNow := NowCompany(wall);
      var currentDay := ((companyNow - epochCompany) / DAY).Floor;
      if currentDay <= lastDay {
        return;
      }
      for day := lastDay + 1 to currentDay + 1
        invariant store.row == old(store.row) && lastDay == old(lastDay) && lastTime == Some(companyNow) && phase == old(phase)
        invariant store.ticks == old(store.ticks) + Days(lastDay + 1, day - 1)
      {
        ConcatSnoc(old(store.ticks), Days(lastDay + 1, day - 1), day);
        assert Days(lastDay + 1, day) == Days(lastDay + 1, day - 1) + [day];
        store.ticks := store.ticks + [day];
      }
      lastDay := currentDay;
      Persist();
    }
  }
}
