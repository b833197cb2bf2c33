/** The clock's day ticks drive the recurring charges (modules/clock/clock.py, modules/cost/subscriptions.py). */
module ClockSchedule {
  import Clocks
  import opened Subscriptions

  /** The days ticked among the steps of a run. */
  function TicksOf(ops: seq<Op>): seq<int>
    decreases |ops|
  {
    if ops == [] then []
    else if ops[0].Tick? then [ops[0].day] + TicksOf(ops[1..])
    else TicksOf(ops[1..])
  }

  /** Counting ticks from number k, only those numbered in `dead` may die. */
  predicate DiesOnlyAt(ops: seq<Op>, dead: set<nat>, k: nat)
    decreases |ops|
  {
    ops == [] || (
      if ops[0].Tick? then (ops[0].stop.After? ==> k in dead) && DiesOnlyAt(ops[1..], dead, k + 1)
      else DiesOnlyAt(ops[1..], dead, k))
  }

  lemma {:induction false} SplitTicks(ops: seq<Op>, m: nat, dead: set<nat>, k: nat)
    requires m <= |ops|
    ensures TicksOf(ops) == TicksOf(ops[..m]) + TicksOf(ops[m..])
    ensures DiesOnlyAt(ops, dead, k) ==> DiesOnlyAt(ops[m..], dead, k + |TicksOf(ops[..m])|)
    decreases |ops|
  {
    if m == 0 {
      assert ops[0..] == ops;
    } else {
      assert ops[..m][1..] == ops[1..][..m - 1] && ops[1..][m - 1..] == ops[m..];
      SplitTicks(ops[1..], m - 1, dead, if ops[0].Tick? then k + 1 else k);
    }
  }

  lemma {:induction false} SplitRun(w: World, ops: seq<Op>, m: nat)
    requires m <= |ops|
    ensures WorldRun(WorldRun(w, ops[..m]), ops[m..]) == WorldRun(w, ops)
    decreases |ops|
  {
    if m == 0 {
      assert ops[0..] == ops;
    } else {
      assert ops[..m][1..] == ops[1..][..m - 1] && ops[1..][m - 1..] == ops[m..];
      SplitRun(WorldStep(w, ops[0]), ops[1..], m - 1);
    }
  }

  /**
   Each tick is of a day at most `next`, which is one above the day of the tick before it, or, if that one
   died, just its day.
   */
  predicate GoesOn(ops: seq<Op>, next: int)
    decreases |ops|
  {
    ops == [] || (
      if ops[0].Tick? then ops[0].day <= next && GoesOn(ops[1..], ops[0].day + if ops[0].stop.After? then 0 else 1)
      else GoesOn(ops[1..], next))
  }

  /** No day in the log is more than one above the day before it, nor above it at all after a place in `dead`. */
  predicate Climbs(ticks: seq<int>, dead: set<nat>) {
    forall j: nat :: j + 1 < |ticks| ==> ticks[j + 1] <= ticks[j] + if j in dead then 0 else 1
  }

  lemma {:induction false} TicksGoOn(ops: seq<Op>, ticks: seq<int>, dead: set<nat>, k: nat, next: int)
    requires k <= |ticks| && TicksOf(ops) == ticks[k..] && DiesOnlyAt(ops, dead, k) && Climbs(ticks, dead)
    requires k < |ticks| ==> ticks[k] <= next
    ensures GoesOn(ops, next)
    decreases |ops|
  {
    if ops != [] {
      if ops[0].Tick? {
        assert TicksOf(ops)[1..] == TicksOf(ops[1..]) && ticks[k..][1..] == ticks[k + 1..];
        TicksGoOn(ops[1..], ticks, dead, k + 1, ops[0].day + if ops[0].stop.After? then 0 else 1);
      } else {
        TicksGoOn(ops[1..], ticks, dead, k, next);
      }
    }
  }

  /** Then a subscription sees no day skipped, though some ticks die before they get to it. */
  lemma {:induction false} SeesEachDay(w: World, ops: seq<Op>, i: nat, high: int, next: int)
    requires GoesOn(ops, next) && next <= high + 1
    ensures NoDaySkipped(w, ops, i, high)
    decreases |ops|
  {
    if ops != [] {
      var op := ops[0];
      var high1 := if Reaches(w, op, i) && op.day > high then op.day else high;
      var next1 := if !op.Tick? then next else op.day + if op.stop.After? then 0 else 1;
      SeesEachDay(WorldStep(w, op), ops[1..], i, high1, next1);
    }
  }

  /** What got to the subscription is among what was ticked, and is all of it if no tick died. */
  lemma {:induction false} DoneIsTicked(w: World, ops: seq<Op>, i: nat, high: int)
    ensures high <= Done(w, ops, i, high)
    ensures forall top: int :: high <= top ==> Done(w, ops, i, high) <= Clocks.Highest(top, TicksOf(ops))
    ensures (forall op :: op in ops && op.Tick? ==> op.stop.Never?) ==>
              Done(w, ops, i, high) == Clocks.Highest(high, TicksOf(ops)) && Unrecorded(w, ops, i) == 0
    decreases |ops|
  {
    if ops != [] {
      assert ops[0] in ops && forall op :: op in ops[1..] ==> op in ops;
      assert ops[0].Tick? ==> TicksOf(ops)[1..] == TicksOf(ops[1..]);
      var high1 := if Reaches(w, ops[0], i) && ops[0].day > high then ops[0].day else high;
      DoneIsTicked(WorldStep(w, ops[0]), ops[1..], i, high1);
    }
  }

  /** A tick that may not die gets to every subscription. */
  lemma {:induction false} DoneCovers(w: World, ops: seq<Op>, i: nat, high: int, dead: set<nat>, k: nat, j: nat)
    requires DiesOnlyAt(ops, dead, k) && k <= j < k + |TicksOf(ops)| && j !in dead
    ensures Done(w, ops, i, high) >= TicksOf(ops)[j - k]
    decreases |ops|
  {
    if ops != [] {
      var high1 := if Reaches(w, ops[0], i) && ops[0].day > high then ops[0].day else high;
      var w1, k1 := WorldStep(w, ops[0]), if ops[0].Tick? then k + 1 else k;
      if ops[0].Tick? && j == k {
        DoneIsTicked(w1, ops[1..], i, high1);
      } else {
        DoneCovers(w1, ops[1..], i, high1, dead, k1, j);
      }
    }
  }

  lemma {:induction false} HighestIsIn(high: int, days: seq<int>, j: nat)
    requires j < |days|
    ensures Clocks.Highest(high, days) >= days[j]
    decreases |days|
  {
    var high1 := if days[0] > high then days[0] else high;
    Clocks.NoneSkippedConcat(high1, days[1..], []);
    if j > 0 {
      HighestIsIn(high1, days[1..], j - 1);
    }
  }

  /** The clock's half: its log from the first start on climbs, and starts no later than day 1. */
  lemma ClockClimbs(wall: real, factor: real, clockOps: seq<Clocks.Op>)
    ensures
      var s, dead := Clocks.Run(Clocks.Fresh(wall), factor, clockOps), Clocks.LastOfDead(Clocks.Fresh(wall), factor, clockOps);
      Climbs(s.ticks, dead) && (s.ticks != [] ==> s.ticks[0] == 1)
  {
    var s0 := Clocks.Fresh(wall);
    Clocks.RunAppends(s0, factor, clockOps);
    var ticks := Clocks.Run(s0, factor, clockOps).ticks;
    forall j: nat | j + 1 < |ticks|
      ensures ticks[j + 1] <= ticks[j] + if j in Clocks.LastOfDead(s0, factor, clockOps) then 0 else 1
    {
      Clocks.DeadDaysComeAgain(s0, factor, clockOps, j);
    }
  }

  /** The deliveries from a point m on skip no day for any subscription. */
  lemma ClockSkipsNone(wall: real, factor: real, clockOps: seq<Clocks.Op>, w: World, ops: seq<Op>, m: nat, i: nat)
    requires m <= |ops|
    requires TicksOf(ops) == Clocks.Run(Clocks.Fresh(wall), factor, clockOps).ticks
    requires DiesOnlyAt(ops, Clocks.LastOfDead(Clocks.Fresh(wall), factor, clockOps), 0)
    ensures NoDaySkipped(w, ops[m..], i, Clocks.Highest(0, TicksOf(ops[..m])))
  {
    var dead := Clocks.LastOfDead(Clocks.Fresh(wall), factor, clockOps);
    var past, high := TicksOf(ops[..m]), Clocks.Highest(0, TicksOf(ops[..m]));
    SplitTicks(ops, m, dead, 0);
    ClockClimbs(wall, factor, clockOps);
    NextTick(past, TicksOf(ops[m..]), dead);
    TicksGoOn(ops[m..], past + TicksOf(ops[m..]), dead, |past|, high + 1);
    SeesEachDay(w, ops[m..], i, high, high + 1);
  }

  /** The first of the coming days is at most one above the highest so far. */
  lemma NextTick(past: seq<int>, coming: seq<int>, dead: set<nat>)
    requires Climbs(past + coming, dead) && (past + coming != [] ==> (past + coming)[0] == 1)
    ensures coming != [] ==> coming[0] <= Clocks.Highest(0, past) + 1
  {
    if past != [] && coming != [] {
      var ticks, j := past + coming, |past| - 1;
      assert ticks[j + 1] == coming[0] && ticks[j] == past[j];
      HighestIsIn(0, past, j);
    }
  }

  /** The highest day that got to the subscription is not below the last day in the clock's row. */
  lemma RowIsCovered(wall: real, factor: real, clockOps: seq<Clocks.Op>, w: World, ops: seq<Op>, m: nat, i: nat)
    requires m <= |ops|
    requires TicksOf(ops) == Clocks.Run(Clocks.Fresh(wall), factor, clockOps).ticks
    requires DiesOnlyAt(ops, Clocks.LastOfDead(Clocks.Fresh(wall), factor, clockOps), 0)
    ensures
      var high := Clocks.Highest(0, TicksOf(ops[..m]));
      Clocks.Run(Clocks.Fresh(wall), factor, clockOps).kept.lastDay <= Done(w, ops[m..], i, high)
  {
    var s0, dead := Clocks.Fresh(wall), Clocks.LastOfDead(Clocks.Fresh(wall), factor, clockOps);
    var last, high := Clocks.Run(s0, factor, clockOps).kept.lastDay, Clocks.Highest(0, TicksOf(ops[..m]));
    Clocks.LastDayIsAnnounced(s0, factor, clockOps);
    Clocks.NoneSkippedConcat(0, TicksOf(ops[..m]), []);
    DoneIsTicked(w, ops[m..], i, high);
    if last != 0 {
      var j: nat :| Clocks.Announced(s0, factor, clockOps, last, j);
      PlaceIsCovered(w, ops, m, i, dead, j);
    }
  }

  lemma PlaceIsCovered(w: World, ops: seq<Op>, m: nat, i: nat, dead: set<nat>, j: nat)
    requires m <= |ops| && DiesOnlyAt(ops, dead, 0) && j < |TicksOf(ops)| && j !in dead
    ensures TicksOf(ops)[j] <= Done(w, ops[m..], i, Clocks.Highest(0, TicksOf(ops[..m])))
  {
    var past, high := TicksOf(ops[..m]), Clocks.Highest(0, TicksOf(ops[..m]));
    SplitTicks(ops, m, dead, 0);
    DoneIsTicked(w, ops[m..], i, high);
    if j < |past| {
      HighestIsIn(0, past, j);
    } else {
      DoneCovers(w, ops[m..], i, high, dead, |past|, j);
    }
  }

  /**
   Driven by the DAY_TICK events of any run of the clock, with anything else in between, a tick's process
   dying only where the pump that appended the event dies: take a subscription that is in the table from some
   point m on, first due on a day d0 not ticked before. If it is not cancelled in the end, it has been charged
   once for d0, once a period after, up to the highest day that got to it, and once more for each charge left
   unrecorded. That day is not below the last day in the clock's row, nor above the highest day ticked, and is
   just that if no tick died: the days that a dying pump makes come again charge nothing by themselves.
   */
  lemma ClockDrivesSchedule(wall: real, factor: real, clockOps: seq<Clocks.Op>, w: World, ops: seq<Op>, m: nat, i: nat)
    requires TicksOf(ops) == Clocks.Run(Clocks.Fresh(wall), factor, clockOps).ticks
    requires DiesOnlyAt(ops, Clocks.LastOfDead(Clocks.Fresh(wall), factor, clockOps), 0)
    requires m <= |ops| && forall op :: op in ops[m..] ==> LeavesSubs(op)
    requires i < |WorldRun(w, ops[..m]).subs| && WorldRun(w, ops[..m]).subs[i].period > 0
    requires Clocks.Highest(0, TicksOf(ops[..m])) < WorldRun(w, ops[..m]).subs[i].nextDay
    ensures i < |WorldRun(w, ops).subs|
    ensures
      var s, w1, w' := Clocks.Run(Clocks.Fresh(wall), factor, clockOps), WorldRun(w, ops[..m]), WorldRun(w, ops);
      var done := Done(w1, ops[m..], i, Clocks.Highest(0, TicksOf(ops[..m])));
      var unrecorded, times := Unrecorded(w1, ops[m..], i), ChargesBy(w1.subs[i].nextDay, w1.subs[i].period, done);
      && s.kept.lastDay <= done <= Clocks.Highest(0, s.ticks)
      && ((forall op :: op in ops[m..] && op.Tick? ==> op.stop.Never?) ==> done == Clocks.Highest(0, s.ticks) && unrecorded == 0)
      && (!w'.subs[i].cancelled ==>
            && TimesCharged(w'.ledger.expenses, i) == TimesCharged(w1.ledger.expenses, i) + times + unrecorded
            && w'.subs[i].nextDay == w1.subs[i].nextDay + times * w1.subs[i].period
            && w'.subs[i].nextDay > done)
  {
    var w1, past, high := WorldRun(w, ops[..m]), TicksOf(ops[..m]), Clocks.Highest(0, TicksOf(ops[..m]));
    SplitRun(w, ops, m);
    ClockSkipsNone(wall, factor, clockOps, w1, ops, m, i);
    ScheduleIsExact(w1, ops[m..], i, high);
    DoneIsTicked(w1, ops[m..], i, high);
    RowIsCovered(wall, factor, clockOps, w1, ops, m, i);
    SplitTicks(ops, m, {}, 0);
    Clocks.NoneSkippedConcat(0, past, TicksOf(ops[m..]));
  }
}
