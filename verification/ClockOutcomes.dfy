/** When the clock announces a day, and what phase it is in, over every run (modules/clock/clock.py). */
module ClockOutcomes {
  import opened Common
  import opened Clocks

  /** Day d has come when d times 24 hours of company time have passed. */
  predicate HasCome(s: State, factor: real, wall: real, d: int) {
    s.kept.epochCompany + d as real * 86400.0 <= Shown(s, factor, wall)
  }

  predicate IsPump(op: Op) { op.OpPump? || op.OpDieInPump? }

  /** The days up to the row's last one are all in the log. */
  predicate LogReaches(s: State) {
    s.kept.lastDay >= 0 && forall d :: 1 <= d <= s.kept.lastDay ==> d in s.ticks
  }

  lemma DayHasCome(s: State, factor: real, wall: real, d: int)
    ensures d <= DayOf(s.kept, Shown(s, factor, wall)) <==> HasCome(s, factor, wall, d)
  {
    FloorIs(Shown(s, factor, wall) - s.kept.epochCompany, d);
  }

  /** A step announces only days that have come, and only a pump announces any. */
  lemma StepAnnouncesDue(s: State, factor: real, op: Op, j: nat)
    requires |s.ticks| <= j < |Step(s, factor, op).ticks|
    ensures IsPump(op) && HasCome(s, factor, op.wall, Step(s, factor, op).ticks[j])
    ensures Step(s, factor, op).ticks[j] > s.kept.lastDay
  {
    StepAppends(s, factor, op);
    DayHasCome(s, factor, op.wall, Step(s, factor, op).ticks[j]);
  }

  /**
   A pump that lives leaves its row at the last day that has come, and no earlier than before; and every day
   from the first on that has come is in the log then.
   */
  lemma PumpAnnouncesAllDue(s: State, factor: real, wall: real, idle: bool, d: int)
    requires LogReaches(s)
    ensures
      var s' := Step(s, factor, OpPump(wall, idle));
      && (d <= s'.kept.lastDay <==> d <= s.kept.lastDay || HasCome(s, factor, wall, d))
      && (d >= 1 && HasCome(s, factor, wall, d) ==> d in s'.ticks)
  {
    DayHasCome(s, factor, wall, d);
    StepAppends(s, factor, OpPump(wall, idle));
    var s' := Step(s, factor, OpPump(wall, idle));
    if s.kept.lastDay < d <= s'.kept.lastDay {
      var j := |s.ticks| + d - s.kept.lastDay - 1;
      assert s'.ticks[j] == d;
    }
  }

  lemma StepReaches(s: State, factor: real, op: Op)
    requires LogReaches(s)
    ensures LogReaches(Step(s, factor, op)) && Step(s, factor, op).kept.epochCompany == s.kept.epochCompany
  {
    var s' := Step(s, factor, op);
    StepAppends(s, factor, op);
    forall d | 1 <= d <= s'.kept.lastDay
      ensures d in s'.ticks
    {
      if d <= s.kept.lastDay {
        assert d in s.ticks;
        var j :| 0 <= j < |s.ticks| && s.ticks[j] == d;
        assert s'.ticks[j] == d;
      } else {
        PumpAnnouncesAllDue(s, factor, op.wall, op.OpPump? && op.idle, d);
      }
    }
  }

  /** Place k of the log was appended by step i of the run, a pump at which that day had come. */
  ghost predicate AnnouncedDue(s: State, factor: real, ops: seq<Op>, i: nat, k: nat)
    requires i < |ops|
  {
    var before, after := Run(s, factor, ops[..i]), Run(s, factor, ops[..i + 1]);
    && |before.ticks| <= k < |after.ticks| && IsPump(ops[i])
    && before.kept.epochCompany == s.kept.epochCompany
    && s.kept.epochCompany + after.ticks[k] as real * 86400.0 <= Shown(before, factor, ops[i].wall)
  }

  ghost predicate SomeAnnouncedDue(s: State, factor: real, ops: seq<Op>, k: nat) {
    exists i: nat :: i < |ops| && AnnouncedDue(s, factor, ops, i, k)
  }

  lemma {:induction false} RunSnoc(s: State, factor: real, ops: seq<Op>, n: nat)
    requires n < |ops|
    ensures Run(s, factor, ops[..n + 1]) == Step(Run(s, factor, ops[..n]), factor, ops[n])
    decreases n
  {
    if n == 0 {
      assert ops[..1] == [ops[0]] && ops[..1][1..] == [] && ops[..0] == [];
    } else {
      assert ops[..n + 1][1..] == ops[1..][..n] && ops[..n][1..] == ops[1..][..n - 1];
      RunSnoc(Step(s, factor, ops[0]), factor, ops[1..], n - 1);
    }
  }

  /**
   Over every run of readings, pauses, resumes, pumps, restarts and pumps that die: each day in the log was
   announced by a pump that showed at least that many times 24 hours since the company's start; no day comes
   early. The days up to the row's last one are all announced.
   */
  lemma {:induction false} DaysComeWhenDue(s: State, factor: real, ops: seq<Op>)
    requires LogReaches(s)
    ensures LogReaches(Run(s, factor, ops)) && Run(s, factor, ops).kept.epochCompany == s.kept.epochCompany
    ensures s.ticks <= Run(s, factor, ops).ticks
    ensures forall k: nat :: |s.ticks| <= k < |Run(s, factor, ops).ticks| ==>
              SomeAnnouncedDue(s, factor, ops, k)
    decreases |ops|
  {
    if ops != [] {
      var n := |ops| - 1;
      var front := ops[..n];
      DaysComeWhenDue(s, factor, front);
      RunSnoc(s, factor, ops, n);
      assert ops[..n + 1] == ops;
      var before, after := Run(s, factor, front), Run(s, factor, ops);
      StepReaches(before, factor, ops[n]);
      StepAppends(before, factor, ops[n]);
      forall k: nat | |s.ticks| <= k < |after.ticks|
        ensures SomeAnnouncedDue(s, factor, ops, k)
      {
        if k < |before.ticks| {
          assert SomeAnnouncedDue(s, factor, front, k) && after.ticks[k] == before.ticks[k];
          var i: nat :| i < n && AnnouncedDue(s, factor, front, i, k);
          assert front[..i] == ops[..i] && front[..i + 1] == ops[..i + 1];
          assert AnnouncedDue(s, factor, ops, i, k);
        } else {
          StepAnnouncesDue(before, factor, ops[n], k);
          assert AnnouncedDue(s, factor, ops, n, k);
        }
      }
    }
  }

  /** From the first start on: a pump that lives has, in the end, announced every day that has come, and its row is at the last. */
  lemma AllDueAnnounced(start: real, factor: real, ops: seq<Op>, wall: real, idle: bool, d: int)
    requires d >= 1
    ensures
      var s := Run(Fresh(start), factor, ops);
      var s' := Step(s, factor, OpPump(wall, idle));
      start + d as real * 86400.0 <= Shown(s, factor, wall) ==> d in s'.ticks && d <= s'.kept.lastDay
  {
    DaysComeWhenDue(Fresh(start), factor, ops);
    PumpAnnouncesAllDue(Run(Fresh(start), factor, ops), factor, wall, idle, d);
  }

  // ------------------------------------------------------------ phases

  /** A pump may die after any number of the days it has to announce: those stay in the log, and the row does not know of them. */
  lemma DiesAnywhere(s: State, factor: real, wall: real, n: nat)
    requires n == 0 || HasCome(s, factor, wall, s.kept.lastDay + n)
    ensures
      var s' := Step(s, factor, OpDieInPump(wall, n));
      && s'.kept.lastDay == s.kept.lastDay && |s'.ticks| == |s.ticks| + n && s.ticks <= s'.ticks
      && forall j :: |s.ticks| <= j < |s'.ticks| ==> s'.ticks[j] == s.kept.lastDay + 1 + j - |s.ticks|
  {
    DayHasCome(s, factor, wall, s.kept.lastDay + n);
    StepAppends(s, factor, OpDieInPump(wall, n));
  }

  /** Only a pause leaves the running phase and only a resume comes back to it; a pause is complete once the agents are idle. */
  lemma PhasesMove(s: State, factor: real, op: Op)
    ensures
      var phase, phase' := s.kept.phase, Step(s, factor, op).kept.phase;
      match op
      case OpPause(_, idle) => phase' == if phase != RUNNING then phase else if idle then PAUSED else PAUSING
      case OpResume(_) => phase' == RUNNING
      case OpPump(_, idle) => phase' == if phase == PAUSING && idle then PAUSED else phase
      case _ => phase' == phase
  {
  }

  /** A pause starts where the wall reads, once, and ends with the resume. */
  lemma PausesAreMarked(s: State, factor: real, op: Op)
    ensures
      var k, k' := s.kept, Step(s, factor, op).kept;
      match op
      case OpPause(wall, _) => k'.pauseStart == if k.phase == RUNNING then Some(wall) else k.pauseStart
      case OpResume(_) => if k.phase == RUNNING then k' == k else k'.pauseStart == None
      case OpRestart(wall) => k'.pauseStart == if k.phase != RUNNING && k.pauseStart.Some? then Some(wall) else k.pauseStart
      case OpDieInPump(wall, _) => k'.pauseStart == if k.phase != RUNNING && k.pauseStart.Some? then Some(wall) else k.pauseStart
      case _ => k'.pauseStart == k.pauseStart
  {
  }
}
