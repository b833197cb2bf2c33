/** Recurring charges on top of the budget (modules/cost/subscriptions.py). */
module Subscriptions {
  import opened Common
  import opened Money
  import opened BudgetService

  /** One row of the subscriptions table. idRank tells where its random id sorts among all ids. */
  datatype Sub = Sub(idRank: int, amount: nat, category: string, nextDay: int, period: nat, cancelled: bool)

  predicate IsDue(s: Sub, day: int) {
    !s.cancelled && s.nextDay <= day
  }

  // ------------------------------------------------------------ the due list

  predicate AllBelow(due: seq<nat>, n: nat) {
    forall p :: 0 <= p < |due| ==> due[p] < n
  }

  predicate Before(subs: seq<Sub>, i: nat, j: nat)
    requires i < |subs| && j < |subs|
  {
    var s, r := subs[i], subs[j];
    if s.nextDay != r.nextDay then s.nextDay < r.nextDay
    else if s.idRank != r.idRank then s.idRank < r.idRank
    else i < j
  }

  ghost predicate IsDueList(subs: seq<Sub>, day: int, upTo: nat, due: seq<nat>)
    requires upTo <= |subs|
  {
    && (forall i: nat :: i in due <==> i < upTo && IsDue(subs[i], day))
    && AllBelow(due, upTo)
    && Ordered(subs, due)
  }

  function InsertDue(subs: seq<Sub>, due: seq<nat>, i: nat): seq<nat>
    requires i < |subs| && AllBelow(due, |subs|)
  {
    if due == [] || Before(subs, due[|due| - 1], i) then due + [i]
    else
      InsertDue(subs, due[..|due| - 1], i) + [due[|due| - 1]]
  }

  /** SELECT ... WHERE cancelled = 0 AND next_charge_company_day <= day ORDER BY next_charge_company_day, id */
  function Due(subs: seq<Sub>, day: int, upTo: nat): (due: seq<nat>)
    requires upTo <= |subs|
    ensures IsDueList(subs, day, upTo, due)
  {
    if upTo == 0 then []
    else
      var front := Due(subs, day, upTo - 1);
      if IsDue(subs[upTo - 1], day) then
        InsertDueIs(subs, front, upTo - 1);
        InsertDue(subs, front, upTo - 1)
      else front
  }

  ghost predicate Ordered(subs: seq<Sub>, due: seq<nat>) {
    AllBelow(due, |subs|) && forall p, q :: 0 <= p < q < |due| ==> Before(subs, due[p], due[q])
  }

  /** Inserting a later row into an ordered list keeps it ordered and adds just that row. */
  lemma {:induction false} InsertDueIs(subs: seq<Sub>, due: seq<nat>, i: nat)
    requires i < |subs| && AllBelow(due, i) && Ordered(subs, due)
    ensures Ordered(subs, InsertDue(subs, due, i)) && AllBelow(InsertDue(subs, due, i), i + 1)
    ensures forall j: nat :: j in InsertDue(subs, due, i) <==> j in due || j == i
  {
    if due != [] && !Before(subs, due[|due| - 1], i) {
      var front, last := due[..|due| - 1], due[|due| - 1];
      InsertDueIs(subs, front, i);
      var r := InsertDue(subs, front, i);
      assert due == front + [last];
      forall p | 0 <= p < |r|
        ensures Before(subs, r[p], last)
      {
        if r[p] != i {
          assert r[p] in front;
          var k :| 0 <= k < |front| && front[k] == r[p];
          assert due[k] == r[p] && due[|due| - 1] == last;
        }
      }
    } else if due != [] {
      forall p | 0 <= p < |due|
        ensures Before(subs, due[p], i)
      {
        if p < |due| - 1 {
          assert Before(subs, due[p], due[|due| - 1]);
        }
      }
    }
  }

  lemma DueDistinct(subs: seq<Sub>, day: int)
    ensures NoDup(Due(subs, day, |subs|))
  {
  }

  // ------------------------------------------------------------ one tick, as a fold

  function SubExpense(s: Sub, i: nat): Expense {
    Expense(s.amount, s.category, ForSubscription(i))
  }

  function TickOver(l: Ledger, subs: seq<Sub>, due: seq<nat>): (Ledger, seq<Sub>)
    requires AllBelow(due, |subs|)
    decreases |due|
  {
    if due == [] then (l, subs)
    else
      var i := due[0];
      var s := subs[i];
      TickOver(
        Charge(l, s.amount, s.category, ForSubscription(i)),
        subs[i := if CanAfford(l, s.amount) then s.(nextDay := s.nextDay + s.period) else s.(cancelled := true)],
        due[1..])
  }

  /** The expenses a prefix of the due list books. */
  function Booked(subs: seq<Sub>, due: seq<nat>): seq<Expense>
    requires AllBelow(due, |subs|)
  {
    seq(|due|, p requires 0 <= p < |due| => assert due[p] in due; SubExpense(subs[due[p]], due[p]))
  }

  function Advanced(s: Sub): Sub { s.(nextDay := s.nextDay + s.period) }

  function Cancelled(s: Sub): Sub { s.(cancelled := true) }

  /** What a tick that charges the first k due subscriptions leaves. */
  ghost predicate ChargedPrefix(l: Ledger, subs: seq<Sub>, due: seq<nat>, k: nat, l': Ledger, subs': seq<Sub>)
    requires k <= |due| && AllBelow(due, |subs|)
  {
    && |subs'| == |subs|
    && (forall i :: 0 <= i < |subs| ==>
          subs'[i] == if i in due[..k] then Advanced(subs[i]) else if i in due[k..] then Cancelled(subs[i]) else subs[i])
    && l'.expenses == l.expenses + Booked(subs, due[..k])
    && l'.reservations == l.reservations && l'.total == l.total
    && (k < |due| ==> l'.blocked)
  }

  /**
   One tick charges a prefix of the due list, each charged subscription moving on by its period, and
   cancels the whole rest with its due days unchanged: the first refusal blocks the budget. It refuses
   from the start iff the first amount is not affordable.
   */
  lemma {:induction false} TickIsPrefix(l: Ledger, subs: seq<Sub>, due: seq<nat>) returns (k: nat)
    requires NoDup(due) && AllBelow(due, |subs|)
    ensures k <= |due|
    ensures ChargedPrefix(l, subs, due, k, TickOver(l, subs, due).0, TickOver(l, subs, due).1)
    ensures due != [] ==> due[0] in due && (k == 0 <==> !CanAfford(l, subs[due[0]].amount))
    decreases |due|
  {
    if due == [] {
      assert l.expenses + Booked(subs, due[..0]) == l.expenses;
      k := 0;
      return;
    }
    var i, rest := due[0], due[1..];
    var s := subs[i];
    var l1 := Charge(l, s.amount, s.category, ForSubscription(i));
    var paid := CanAfford(l, s.amount);
    var subs1 := subs[i := if paid then Advanced(s) else Cancelled(s)];
    var k1 := TickIsPrefix(l1, subs1, rest);
    k := if paid then k1 + 1 else 0;
    assert TickOver(l, subs, due) == TickOver(l1, subs1, rest);
    assert !paid && rest != [] ==> k1 == 0;
    PrefixCons(l, subs, due, paid, subs1, k1, TickOver(l, subs, due).0, TickOver(l, subs, due).1);
  }

  lemma PrefixCons(l: Ledger, subs: seq<Sub>, due: seq<nat>, paid: bool, subs1: seq<Sub>, k1: nat, l': Ledger, subs': seq<Sub>)
    requires due != [] && NoDup(due) && AllBelow(due, |subs|) && |subs1| == |subs| && k1 < |due|
    requires paid == CanAfford(l, subs[due[0]].amount) && (!paid ==> k1 == 0)
    requires subs1 == subs[due[0] := if paid then Advanced(subs[due[0]]) else Cancelled(subs[due[0]])]
    requires
      var first := subs[due[0]];
      ChargedPrefix(Charge(l, first.amount, first.category, ForSubscription(due[0])), subs1, due[1..], k1, l', subs')
    requires !paid ==> l'.blocked
    ensures ChargedPrefix(l, subs, due, if paid then k1 + 1 else 0, l', subs')
  {
    var i, rest, k := due[0], due[1..], if paid then k1 + 1 else 0;
    assert forall j: nat :: j in rest ==> j in due && j != i;
    BookedCons(subs, subs1, due, k1);
    DueSplit(due, k1, paid);
    if paid {
      BooksAssociate(l.expenses, SubExpense(subs[i], i), Booked(subs1, rest[..k1]));
    } else {
      assert l.expenses + Booked(subs1, rest[..0]) == l.expenses + Booked(subs, due[..0]);
    }
  }

  lemma BooksAssociate(a: seq<Expense>, e: Expense, b: seq<Expense>)
    ensures a + [e] + b == a + ([e] + b)
  {
  }

  lemma DueSplit(due: seq<nat>, k1: nat, paid: bool)
    requires due != [] && k1 < |due|
    ensures paid ==> due[..k1 + 1] == [due[0]] + due[1..][..k1] && due[k1 + 1..] == due[1..][k1..]
    ensures !paid && k1 == 0 ==> due[1..][..0] == [] && due[1..][0..] == due[1..] && due[..0] == [] && due[0..] == [due[0]] + due[1..]
  {
  }

  lemma BookedCons(subs: seq<Sub>, subs1: seq<Sub>, due: seq<nat>, k1: nat)
    requires due != [] && |subs1| == |subs| && k1 < |due|
    requires AllBelow(due, |subs|)
    requires forall i :: i in due[1..] ==> i in due && subs1[i] == subs[i]
    ensures Booked(subs, due[..k1 + 1]) == [SubExpense(subs[due[0]], due[0])] + Booked(subs1, due[1..][..k1])
  {
    var rest := due[1..];
    assert due[..k1 + 1] == [due[0]] + rest[..k1];
    assert forall p :: 0 <= p < k1 ==> rest[p] in rest;
  }

  /** Money goes out by exactly the amounts of the charged prefix. */
  lemma {:induction false} PrefixSpends(subs: seq<Sub>, due: seq<nat>, before: seq<Expense>)
    requires AllBelow(due, |subs|)
    ensures SumExpenses(before + Booked(subs, due)) == SumExpenses(before) + SumAmounts(subs, due)
  {
    if due == [] {
      assert before + Booked(subs, due) == before;
    } else {
      var front, last := due[..|due| - 1], due[|due| - 1];
      assert forall i :: i in front ==> i in due;
      assert last in due;
      PrefixSpends(subs, front, before);
      assert before + Booked(subs, due) == before + Booked(subs, front) + [SubExpense(subs[last], last)];
      SumExpensesSnoc(before + Booked(subs, front), SubExpense(subs[last], last));
    }
  }

  function SumAmounts(subs: seq<Sub>, due: seq<nat>): nat
    requires AllBelow(due, |subs|)
  {
    if due == [] then 0
    else
      assert due[|due| - 1] in due && forall i :: i in due[..|due| - 1] ==> i in due;
      SumAmounts(subs, due[..|due| - 1]) + subs[due[|due| - 1]].amount
  }

  // ------------------------------------------------------------ a tick that dies

  /**
   Where a tick stops: never, or with its process after settling that many due subscriptions, and possibly
   after charging the next one, whose row is then not written.
   */
  datatype Stop = Never | After(settled: nat, booked: bool)

  /** How many of the due subscriptions a tick settles. */
  function Settled(due: seq<nat>, stop: Stop): nat {
    if stop.After? && stop.settled < |due| then stop.settled else |due|
  }

  function Book(l: Ledger, s: Sub, i: nat): Ledger {
    Charge(l, s.amount, s.category, ForSubscription(i))
  }

  function DayTicked(w: World, day: int, stop: Stop): World {
    var due := Due(w.subs, day, |w.subs|);
    var n := Settled(due, stop);
    var r := TickOver(w.ledger, w.subs, due[..n]);
    assert n < |due| ==> due[n] in due;
    World(if n < |due| && stop.booked then Book(r.0, w.subs[due[n]], due[n]) else r.0, r.1)
  }

  /** The same about the tick of a day over the whole table, with the money it moved. */
  lemma DayTick(w: World, day: int) returns (k: nat)
    ensures
      var due, w' := Due(w.subs, day, |w.subs|), WorldStep(w, Tick(day, Never));
      && k <= |due| && NoDup(due)
      && ChargedPrefix(w.ledger, w.subs, due, k, w'.ledger, w'.subs)
      && Spent(w'.ledger) == Spent(w.ledger) + SumAmounts(w.subs, due[..k])
      && (due != [] ==> (k == 0 <==> !CanAfford(w.ledger, w.subs[due[0]].amount)))
  {
    var due := Due(w.subs, day, |w.subs|);
    assert due[..|due|] == due;
    DueDistinct(w.subs, day);
    k := TickIsPrefix(w.ledger, w.subs, due);
    PrefixSpends(w.subs, due[..k], w.ledger.expenses);
  }

  // ------------------------------------------------------------ many days

  datatype World = World(ledger: Ledger, subs: seq<Sub>)

  datatype Op =
    | Tick(day: int, stop: Stop)
    | Add(idRank: int, amount: nat, category: string, nextDay: int, period: nat)
    | Remove(id: nat)
    | OnBudget(op: Money.Op)

  function WorldStep(w: World, op: Op): World {
    match op
    case Tick(day, stop) => DayTicked(w, day, stop)
    case Add(idRank, amount, category, nextDay, period) =>
      if period == 0 then w else w.(subs := w.subs + [Sub(idRank, amount, category, nextDay, period, false)])
    case Remove(id) => if id < |w.subs| then w.(subs := w.subs[id := Cancelled(w.subs[id])]) else w
    case OnBudget(op) => w.(ledger := Money.Step(w.ledger, op))
  }

  function WorldRun(w: World, ops: seq<Op>): World
    decreases |ops|
  {
    if ops == [] then w else WorldRun(WorldStep(w, ops[0]), ops[1..])
  }

  /** How many charges fall on the days up to d: one on d0 and one every period after. */
  function ChargesBy(d0: int, period: nat, d: int): nat
    requires period > 0
  {
    if d < d0 then 0 else (d - d0) / period + 1
  }

  /** Expenses booked for subscription i. */
  function TimesCharged(rows: seq<Expense>, i: nat): nat {
    if rows == [] then 0
    else TimesCharged(rows[..|rows| - 1], i) + (if rows[|rows| - 1].memo == ForSubscription(i) then 1 else 0)
  }

  /** Other callers do not book expenses in the name of a subscription. */
  predicate LeavesSubs(op: Op) {
    op.OnBudget? && op.op.OpCharge? ==> !op.op.memo.ForSubscription?
  }

  lemma {:induction false} TimesChargedConcat(a: seq<Expense>, b: seq<Expense>, i: nat)
    ensures TimesCharged(a + b, i) == TimesCharged(a, i) + TimesCharged(b, i)
  {
    if b == [] {
      assert a + b == a;
    } else {
      assert (a + b)[..|a + b| - 1] == a + b[..|b| - 1];
      TimesChargedConcat(a, b[..|b| - 1], i);
    }
  }

  lemma {:induction false} BookedOnce(subs: seq<Sub>, due: seq<nat>, i: nat)
    requires NoDup(due) && AllBelow(due, |subs|)
    ensures TimesCharged(Booked(subs, due), i) == if i in due then 1 else 0
  {
    if due != [] {
      var front, last := due[..|due| - 1], due[|due| - 1];
      BookedOnce(subs, front, i);
      TimesChargedConcat(Booked(subs, front), [SubExpense(subs[last], last)], i);
      assert Booked(subs, due) == Booked(subs, front) + [SubExpense(subs[last], last)];
      assert [SubExpense(subs[last], last)][..0] == [];
      if i in front {
        var p :| 0 <= p < |front| && front[p] == i;
        assert due[p] == i;
      } else if i in due {
        assert i == last;
      }
    }
  }

  // ------------------------------------------------------------ one subscription over many days

  /** The tick gets to subscription i: it does not stop before it, if i is due at all. */
  predicate Reaches(w: World, op: Op, i: nat) {
    op.Tick? &&
    var due := Due(w.subs, op.day, |w.subs|);
    i !in due[Settled(due, op.stop)..]
  }

  /** The tick dies after charging subscription i, before its row is written. */
  predicate LeavesUnrecorded(w: World, op: Op, i: nat) {
    op.Tick? && op.stop.After? && op.stop.booked &&
    var due := Due(w.subs, op.day, |w.subs|);
    var n := Settled(due, op.stop);
    n < |due| && due[n] == i && i < |w.subs| && CanAfford(TickOver(w.ledger, w.subs, due[..n]).0, w.subs[i].amount)
  }

  /** The tick moves the due day of subscription i on. */
  predicate Moves(w: World, op: Op, i: nat)
    requires i < |w.subs|
  {
    Reaches(w, op, i) && IsDue(w.subs[i], op.day) && !CancelledIn(WorldStep(w, op), i)
  }

  predicate CancelledIn(w: World, i: nat) {
    i < |w.subs| ==> w.subs[i].cancelled
  }

  /** One step, seen from one subscription: its due day moves on exactly with a charge, but for a charge left unrecorded. */
  lemma StepOne(w: World, op: Op, i: nat)
    requires i < |w.subs| && LeavesSubs(op)
    ensures
      var w', s := WorldStep(w, op), w.subs[i];
      && i < |w'.subs| && w'.subs[i].period == s.period
      && (s.cancelled ==> w'.subs[i].cancelled)
      && w'.subs[i].nextDay == s.nextDay + (if Moves(w, op, i) then s.period else 0)
      && TimesCharged(w'.ledger.expenses, i) == TimesCharged(w.ledger.expenses, i)
           + (if Moves(w, op, i) then 1 else 0) + (if LeavesUnrecorded(w, op, i) then 1 else 0)
  {
    match op
    case Tick(day, stop) => TickOne(w, day, stop, i);
    case Add(idRank, amount, category, nextDay, period) =>
    case Remove(id) =>
    case OnBudget(bop) =>
      BudgetOpCharges(w.ledger, bop, i);
  }

  lemma TickOne(w: World, day: int, stop: Stop, i: nat)
    requires i < |w.subs|
    ensures
      var op := Tick(day, stop);
      var w', s := WorldStep(w, op), w.subs[i];
      && |w'.subs| == |w.subs| && w'.subs[i].period == s.period
      && (s.cancelled ==> w'.subs[i].cancelled)
      && w'.subs[i].nextDay == s.nextDay + (if Moves(w, op, i) then s.period else 0)
      && TimesCharged(w'.ledger.expenses, i) == TimesCharged(w.ledger.expenses, i)
           + (if Moves(w, op, i) then 1 else 0) + (if LeavesUnrecorded(w, op, i) then 1 else 0)
  {
    var due := Due(w.subs, day, |w.subs|);
    DueDistinct(w.subs, day);
    var n := Settled(due, stop);
    var r := TickOver(w.ledger, w.subs, due[..n]);
    SettledRow(w.ledger, w.subs, due[..n], i);
    InOnePart(due, n, i);
    if n < |due| && stop.booked {
      BookCharges(r.0, w.subs[due[n]], due[n], i);
    }
  }

  lemma InOnePart(due: seq<nat>, n: nat, i: nat)
    requires NoDup(due) && n <= |due|
    ensures i in due[..n] <==> i in due && i !in due[n..]
  {
    assert due == due[..n] + due[n..];
  }

  /** Settling some due subscriptions, seen from one: it is charged once and moves on, or is cancelled. */
  lemma SettledRow(l: Ledger, subs: seq<Sub>, d: seq<nat>, i: nat)
    requires NoDup(d) && AllBelow(d, |subs|) && i < |subs| && (i in d ==> !subs[i].cancelled)
    ensures |TickOver(l, subs, d).1| == |subs|
    ensures
      var r := TickOver(l, subs, d);
      var moved := i in d && !r.1[i].cancelled;
      && r.1[i].period == subs[i].period && (subs[i].cancelled ==> r.1[i].cancelled)
      && r.1[i].nextDay == subs[i].nextDay + (if moved then subs[i].period else 0)
      && TimesCharged(r.0.expenses, i) == TimesCharged(l.expenses, i) + (if moved then 1 else 0)
  {
    var k := TickIsPrefix(l, subs, d);
    InOnePart(d, k, i);
    TimesChargedConcat(l.expenses, Booked(subs, d[..k]), i);
    BookedOnce(subs, d[..k], i);
  }

  lemma BookCharges(l: Ledger, s: Sub, j: nat, i: nat)
    ensures TimesCharged(Book(l, s, j).expenses, i)
         == TimesCharged(l.expenses, i) + (if j == i && CanAfford(l, s.amount) then 1 else 0)
  {
    assert (l.expenses + [SubExpense(s, j)])[..|l.expenses|] == l.expenses;
  }

  lemma BudgetOpCharges(l: Ledger, op: Money.Op, i: nat)
    requires op.OpCharge? ==> !op.memo.ForSubscription?
    ensures TimesCharged(Money.Step(l, op).expenses, i) == TimesCharged(l.expenses, i)
  {
    var l' := Money.Step(l, op);
    if |l'.expenses| == |l.expenses| + 1 {
      assert l'.expenses[..|l.expenses|] == l.expenses;
    }
  }

  lemma {:induction false} CancelledStays(w: World, ops: seq<Op>, i: nat)
    requires i < |w.subs| && w.subs[i].cancelled && forall op :: op in ops ==> LeavesSubs(op)
    ensures i < |WorldRun(w, ops).subs| && WorldRun(w, ops).subs[i].cancelled
    decreases |ops|
  {
    if ops != [] {
      assert ops[0] in ops && forall op :: op in ops[1..] ==> op in ops;
      StepOne(w, ops[0], i);
      CancelledStays(WorldStep(w, ops[0]), ops[1..], i);
    }
  }

  /** How often the due day of subscription i moves on in a run. */
  function Recorded(w: World, ops: seq<Op>, i: nat): nat
    requires i < |w.subs|
    decreases |ops|
  {
    if ops == [] then 0
    else
      StepKeepsSubs(w, ops[0]);
      (if Moves(w, ops[0], i) then 1 else 0) + Recorded(WorldStep(w, ops[0]), ops[1..], i)
  }

  /** How many charges of subscription i a run leaves unrecorded. */
  function Unrecorded(w: World, ops: seq<Op>, i: nat): nat
    decreases |ops|
  {
    if ops == [] then 0
    else (if LeavesUnrecorded(w, ops[0], i) then 1 else 0) + Unrecorded(WorldStep(w, ops[0]), ops[1..], i)
  }

  /** The highest day, at least `high`, of a tick that gets to subscription i. */
  function Done(w: World, ops: seq<Op>, i: nat, high: int): int
    decreases |ops|
  {
    if ops == [] then high
    else Done(WorldStep(w, ops[0]), ops[1..], i, if Reaches(w, ops[0], i) && ops[0].day > high then ops[0].day else high)
  }

  /**
   Each tick that gets to subscription i is of a day at most one above the highest that got to it before: days
   may come again, but none is skipped.
   */
  predicate NoDaySkipped(w: World, ops: seq<Op>, i: nat, high: int)
    decreases |ops|
  {
    ops == [] || (
      && (Reaches(w, ops[0], i) ==> ops[0].day <= high + 1)
      && NoDaySkipped(WorldStep(w, ops[0]), ops[1..], i, if Reaches(w, ops[0], i) && ops[0].day > high then ops[0].day else high))
  }

  lemma StepKeepsSubs(w: World, op: Op)
    ensures |WorldStep(w, op).subs| >= |w.subs|
  {
    if op.Tick? {
      var due := Due(w.subs, op.day, |w.subs|);
      DueDistinct(w.subs, op.day);
      var k := TickIsPrefix(w.ledger, w.subs, due[..Settled(due, op.stop)]);
    }
  }

  /** Over every run, a charge and the next due day go together, but for the charges left unrecorded. */
  lemma {:induction false} ChargesAreRecorded(w: World, ops: seq<Op>, i: nat, high: int)
    requires i < |w.subs| && forall op :: op in ops ==> LeavesSubs(op)
    ensures
      var w', s, r := WorldRun(w, ops), w.subs[i], Recorded(w, ops, i);
      && i < |w'.subs| && w'.subs[i].period == s.period
      && TimesCharged(w'.ledger.expenses, i) == TimesCharged(w.ledger.expenses, i) + r + Unrecorded(w, ops, i)
      && w'.subs[i].nextDay == s.nextDay + r * s.period
      && Done(w, ops, i, high) >= high
      && (r > 0 ==> w'.subs[i].nextDay - s.period <= Done(w, ops, i, high))
    decreases |ops|
  {
    if ops == [] {
      assert 0 * w.subs[i].period == 0;
    } else {
      assert ops[0] in ops && forall op :: op in ops[1..] ==> op in ops;
      StepOne(w, ops[0], i);
      var w1, r1 := WorldStep(w, ops[0]), Recorded(WorldStep(w, ops[0]), ops[1..], i);
      ChargesAreRecorded(w1, ops[1..], i, if Reaches(w, ops[0], i) && ops[0].day > high then ops[0].day else high);
      assert (1 + r1) * w.subs[i].period == w.subs[i].period + r1 * w.subs[i].period;
    }
  }

  /**
   Over every run, whatever else happens in between: a subscription first due on d0 is never charged and
   moved on more often than once on d0 and once a period after, up to the highest day that got to it; that
   often exactly iff it is then due after that day. Each charge left unrecorded comes on top.
   */
  lemma ScheduleIsKeptIff(w: World, ops: seq<Op>, i: nat, high: int)
    requires i < |w.subs| && w.subs[i].period > 0 && forall op :: op in ops ==> LeavesSubs(op)
    ensures i < |WorldRun(w, ops).subs|
    ensures
      var w', r := WorldRun(w, ops), Recorded(w, ops, i);
      var d0, period, done := w.subs[i].nextDay, w.subs[i].period, Done(w, ops, i, high);
      && TimesCharged(w'.ledger.expenses, i) == TimesCharged(w.ledger.expenses, i) + r + Unrecorded(w, ops, i)
      && w'.subs[i].nextDay == d0 + r * period
      && r <= ChargesBy(d0, period, done)
      && (r == ChargesBy(d0, period, done) <==> w'.subs[i].nextDay > done)
  {
    ChargesAreRecorded(w, ops, i, high);
    ChargesCount(w.subs[i].nextDay, w.subs[i].period, Recorded(w, ops, i), Done(w, ops, i, high));
  }

  lemma ChargesCount(d0: int, period: nat, r: nat, d: int)
    requires period > 0 && (r > 0 ==> d0 + r * period - period <= d)
    ensures r <= ChargesBy(d0, period, d)
    ensures r == ChargesBy(d0, period, d) <==> d < d0 + r * period
  {
    Product(r - 1, period);
    assert (r - 1) * period == r * period - period;
    if d >= d0 {
      var q := (d - d0) / period;
      assert q * period <= d - d0 < q * period + period;
      assert (q + 1) * period == q * period + period;
      Smaller(r - 1, q + 1, period);
      if d < d0 + r * period {
        Smaller(q, r, period);
      }
    }
  }

  lemma Smaller(a: int, b: int, period: nat)
    requires a * period < b * period
    ensures a < b
  {
    Product(a - b, period);
    assert (a - b) * period == a * period - b * period;
  }

  lemma Product(a: int, period: nat)
    ensures a >= 0 ==> a * period >= 0
  {
  }

  /**
   With no day skipped from before its due day d0 on, a subscription that is not cancelled in the end is due
   after the highest day that got to it, and has been charged once on d0, once every period after up to that
   day, and once more for each charge left unrecorded: exactly on schedule iff there is none.
   */
  lemma ScheduleIsExact(w: World, ops: seq<Op>, i: nat, high: int)
    requires i < |w.subs| && w.subs[i].period > 0 && forall op :: op in ops ==> LeavesSubs(op)
    requires high < w.subs[i].nextDay && NoDaySkipped(w, ops, i, high)
    ensures i < |WorldRun(w, ops).subs|
    ensures
      var w', s := WorldRun(w, ops), w.subs[i];
      var times := ChargesBy(s.nextDay, s.period, Done(w, ops, i, high));
      !w'.subs[i].cancelled ==>
        && TimesCharged(w'.ledger.expenses, i) == TimesCharged(w.ledger.expenses, i) + times + Unrecorded(w, ops, i)
        && w'.subs[i].nextDay == s.nextDay + times * s.period
        && w'.subs[i].nextDay > Done(w, ops, i, high)
  {
    ScheduleIsKeptIff(w, ops, i, high);
    KeepsUp(w, ops, i, high);
  }

  lemma {:induction false} KeepsUp(w: World, ops: seq<Op>, i: nat, high: int)
    requires i < |w.subs| && w.subs[i].period > 0 && forall op :: op in ops ==> LeavesSubs(op)
    requires high < w.subs[i].nextDay && NoDaySkipped(w, ops, i, high)
    ensures i < |WorldRun(w, ops).subs|
    ensures !WorldRun(w, ops).subs[i].cancelled ==> WorldRun(w, ops).subs[i].nextDay > Done(w, ops, i, high)
    decreases |ops|
  {
    if ops != [] {
      assert ops[0] in ops && forall op :: op in ops[1..] ==> op in ops;
      StepOne(w, ops[0], i);
      var w1 := WorldStep(w, ops[0]);
      if w1.subs[i].cancelled {
        CancelledStays(w1, ops[1..], i);
      } else {
        KeepsUp(w1, ops[1..], i, if Reaches(w, ops[0], i) && ops[0].day > high then ops[0].day else high);
      }
    }
  }

  const ONE_SUB := World(SetTotal(FRESH, 100), [Sub(0, 1, "saas", 1, 30, false)])

  /** A day's tick that dies after booking the charge, and the same day's tick again: charged twice for one day. */
  lemma ChargedTwice()
    ensures
      var w := WorldRun(ONE_SUB, [Tick(1, After(0, true)), Tick(1, Never)]);
      TimesCharged(w.ledger.expenses, 0) == 2 && ChargesBy(1, 30, 1) == 1
  {
    var w, first, again := ONE_SUB, Tick(1, After(0, true)), Tick(1, Never);
    var w1 := WorldStep(w, first);
    DiesOnDayOne();
    SumExpensesSnoc([], SubExpense(w.subs[0], 0));
    BookCharges(w.ledger, w.subs[0], 0, 0);
    BookCharges(w1.ledger, w1.subs[0], 0, 0);
    TwoSteps(w, first, again);
    StepOne(w1, again, 0);
    SecondTickCharges(w1);
  }

  lemma TwoSteps(w: World, a: Op, b: Op)
    ensures WorldRun(w, [a, b]) == WorldStep(WorldStep(w, a), b)
  {
    assert [a, b][1..] == [b] && [b][1..] == [];
    assert WorldRun(WorldStep(w, a), [b]) == WorldRun(WorldStep(WorldStep(w, a), b), []);
  }

  lemma SecondTickCharges(w: World)
    requires w.subs == ONE_SUB.subs && CanAfford(w.ledger, 1)
    ensures Moves(w, Tick(1, Never), 0) && !LeavesUnrecorded(w, Tick(1, Never), 0)
  {
    DiesOnDayOne();
    assert [0 as nat][..1] == [0] && [0 as nat][1..] == [];
  }

  lemma DiesOnDayOne()
    ensures WorldStep(ONE_SUB, Tick(1, After(0, true))) == World(Book(ONE_SUB.ledger, ONE_SUB.subs[0], 0), ONE_SUB.subs)
    ensures Due(ONE_SUB.subs, 1, 1) == [0] && CanAfford(ONE_SUB.ledger, 1)
  {
    assert Due(ONE_SUB.subs, 1, 0) == [];
  }

  // ------------------------------------------------------------ the service

  class SubscriptionLedger {
    const budget: Budget
    var subs: seq<Sub>

    ghost function State(): World
      reads this, budget
    {
      World(budget.Books(), subs)
    }

    constructor (budget: Budget)
      ensures this.budget == budget && subs == []
    {
      this.budget := budget;
      subs := [];
    }

    /** The new subscription's id, or None where the source raises ValueError. */
    method AddSubscription(idRank: int, amount: nat, category: string, nextDay: int, period: int) returns (id: Option<nat>)
      modifies this
      ensures State() == old(if period <= 0 then State() else WorldStep(State(), Add(idRank, amount, category, nextDay, period)))
      ensures id == if period <= 0 then None else Some(|old(subs)|)
    {
      if period <= 0 {
        return None;
      }
      id := Some(|subs|);
      subs := subs + [Sub(idRank, amount, category, nextDay, period, false)];
    }

    method RemoveSubscription(id: nat)
      modifies this
      ensures State() == old(WorldStep(State(), Remove(id)))
    {
      if id < |subs| {
        subs := subs[id := Cancelled(subs[id])];
      }
    }

    /** One day's tick, with the place where its process dies, if it does. */
    method OnDayTick(day: int, stop: Stop)
      requires budget.Valid()
      modifies this, budget
      ensures State() == WorldStep(old(State()), Tick(day, stop)) && budget.Valid()
    {
      var table, due := subs, Due(subs, day, |subs|);
      DueDistinct(subs, day);
      var n := Settled(due, stop);
      SettleAll(due[..n]);
      if n < |due| && stop.booked {
        assert due[n] in due;
        var sub := table[due[n]];
        var _ := budget.Charge(sub.amount, sub.category, ForSubscription(due[n]));
      }
    }

    /** The loop over the due subscriptions. */
    method SettleAll(due: seq<nat>)
      requires budget.Valid() && AllBelow(due, |subs|)
      modifies this, budget
      ensures budget.Valid() && (budget.Books(), subs) == TickOver(old(budget.Books()), old(subs), due)
    {
      ghost var l0, subs0 := budget.Books(), subs;
      for p := 0 to |due|
        invariant budget.Valid() && AllBelow(due[p..], |subs|)
        invariant TickOver(l0, subs0, due) == TickOver(budget.Books(), subs, due[p..])
      {
        assert due[p..][0] == due[p] && due[p..][1..] == due[p + 1..];
        Settle(due[p]);
      }
      assert due[|due|..] == [];
    }

    /** One due subscription: charge it, then write its row. */
    method Settle(id: nat)
      requires budget.Valid() && id < |subs|
      modifies this, budget
      ensures budget.Valid() && budget.Books() == Book(old(budget.Books()), old(subs)[id], id)
      ensures
        var s := old(subs)[id];
        subs == old(subs)[id := if CanAfford(old(budget.Books()), s.amount) then Advanced(s) else Cancelled(s)]
    {
      var sub := subs[id];
      var ok := budget.Charge(sub.amount, sub.category, ForSubscription(id));
      if ok {
        subs := subs[id := sub.(nextDay := sub.nextDay + sub.period)];
      } else {
        subs := subs[id := sub.(cancelled := true)];
      }
    }
  }
}
