/**
 One company's money as a value (modules/cost/budget.py): the expenses and reservations tables, the
 threshold state, the events appended. Amounts are whole units of 0.0001 USD; a row's id is its place
 in its table.
 */
module Money {
  const WARNING_PCT := 80
  const BLOCKED_PCT := 100

  datatype Memo = Note(text: string) | ForSubscription(sub: nat) | ForReservation(ref: string)
  datatype Expense = Expense(amount: nat, category: string, memo: Memo)
  datatype ReservationStatus = OPEN | COMMITTED | RELEASED
  datatype Reservation = Reservation(amount: nat, ref: string, status: ReservationStatus)

  datatype Event =
    | ExpenseCharged(cents: nat)
    | BudgetWarning(usedCents: nat, limitCents: nat)
    | BudgetBlocked(usedCents: nat, limitCents: nat, attemptedCents: nat)

  datatype Ledger = Ledger(
    total: nat, blocked: bool, lastWarn: nat,
    expenses: seq<Expense>, reservations: seq<Reservation>, log: seq<Event>)

  const FRESH := Ledger(0, false, 0, [], [], [])

  // ------------------------------------------------------------ sums

  function SumExpenses(rows: seq<Expense>): nat {
    if rows == [] then 0 else SumExpenses(rows[..|rows| - 1]) + rows[|rows| - 1].amount
  }

  function OpenAmount(r: Reservation): nat {
    if r.status == OPEN then r.amount else 0
  }

  function SumOpen(rows: seq<Reservation>): nat {
    if rows == [] then 0 else SumOpen(rows[..|rows| - 1]) + OpenAmount(rows[|rows| - 1])
  }

  function Spent(l: Ledger): nat { SumExpenses(l.expenses) }

  function Reserved(l: Ledger): nat { SumOpen(l.reservations) }

  function Used(l: Ledger): nat { Spent(l) + Reserved(l) }

  lemma SumExpensesSnoc(rows: seq<Expense>, e: Expense)
    ensures SumExpenses(rows + [e]) == SumExpenses(rows) + e.amount
  {
    assert (rows + [e])[..|rows|] == rows;
  }

  lemma SumOpenSnoc(rows: seq<Reservation>, r: Reservation)
    ensures SumOpen(rows + [r]) == SumOpen(rows) + OpenAmount(r)
  {
    assert (rows + [r])[..|rows|] == rows;
  }

  lemma {:induction false} SumOpenUpdate(rows: seq<Reservation>, i: nat, r: Reservation)
    requires i < |rows|
    ensures SumOpen(rows[i := r]) == SumOpen(rows) - OpenAmount(rows[i]) + OpenAmount(r)
    ensures SumOpen(rows) >= OpenAmount(rows[i])
  {
    var n := |rows| - 1;
    if i == n {
      assert rows[i := r][..n] == rows[..n];
    } else {
      assert rows[i := r][..n] == rows[..n][i := r];
      SumOpenUpdate(rows[..n], i, r);
    }
  }

  // ------------------------------------------------------------ thresholds

  /** Half-up rounding of units to cents. */
  function Cents(units: nat): nat {
    (units + 50) / 100
  }

  /** The highest threshold that usage has reached: 0, 80 or 100 per cent of a positive cap. */
  function Band(used: nat, total: nat): nat {
    if total == 0 then 0
    else if used >= total then BLOCKED_PCT
    else if 100 * used >= WARNING_PCT * total then WARNING_PCT
    else 0
  }

  /** One event on an upward crossing, for the highest threshold crossed; none otherwise. */
  function Crossing(was: nat, used: nat, total: nat): seq<Event> {
    if Band(used, total) <= was then []
    else if Band(used, total) == BLOCKED_PCT then [BudgetBlocked(Cents(used), Cents(total), 0)]
    else [BudgetWarning(Cents(used), Cents(total))]
  }

  /** What re-reading the thresholds leaves behind, `first` being the events that go out before. */
  function Evaluated(l: Ledger, first: seq<Event>): Ledger {
    l.(lastWarn := Band(Used(l), l.total),
       blocked := Band(Used(l), l.total) == BLOCKED_PCT,
       log := l.log + first + Crossing(l.lastWarn, Used(l), l.total))
  }

  // ------------------------------------------------------------ operations

  function Refusal(l: Ledger, attempted: nat): Event {
    BudgetBlocked(Cents(Spent(l)), Cents(l.total), Cents(attempted))
  }

  predicate CanAfford(l: Ledger, amount: nat) {
    !l.blocked && Used(l) + amount <= l.total
  }

  function Charge(l: Ledger, amount: nat, category: string, memo: Memo): Ledger {
    if l.blocked then l.(log := l.log + [Refusal(l, amount)])
    else if Used(l) + amount > l.total then
      l.(blocked := true, lastWarn := BLOCKED_PCT, log := l.log + [Refusal(l, amount)])
    else Evaluated(l.(expenses := l.expenses + [Expense(amount, category, memo)]), [ExpenseCharged(Cents(amount))])
  }

  /** A refused reservation raises OverBudget and changes nothing. */
  function Reserve(l: Ledger, amount: nat, ref: string): Ledger {
    if CanAfford(l, amount)
    then Evaluated(l.(reservations := l.reservations + [Reservation(amount, ref, OPEN)]), [])
    else l
  }

  predicate IsOpen(l: Ledger, rid: nat) {
    rid < |l.reservations| && l.reservations[rid].status == OPEN
  }

  function Close(l: Ledger, rid: nat, status: ReservationStatus): Ledger
    requires rid < |l.reservations|
  {
    l.(reservations := l.reservations[rid := l.reservations[rid].(status := status)])
  }

  function Release(l: Ledger, rid: nat): Ledger {
    if IsOpen(l, rid) then Close(l, rid, RELEASED) else l
  }

  /** The commit of an open reservation goes through iff, with it gone, the actual amount is affordable. */
  predicate CommitAccepted(l: Ledger, rid: nat, actual: nat) {
    IsOpen(l, rid) && CanAfford(Close(l, rid, RELEASED), actual)
  }

  function Commit(l: Ledger, rid: nat, actual: nat): Ledger {
    if !IsOpen(l, rid) then l
    else if CommitAccepted(l, rid, actual) then
      Evaluated(
        Close(l, rid, COMMITTED).(expenses := l.expenses + [Expense(actual, "other", ForReservation(l.reservations[rid].ref))]),
        [ExpenseCharged(Cents(actual))])
    else Close(l, rid, RELEASED).(blocked := true, lastWarn := BLOCKED_PCT, log := l.log + [Refusal(l, actual)])
  }

  function SetTotal(l: Ledger, total: nat): Ledger {
    Evaluated(l.(total := total), [])
  }

  // ------------------------------------------------------------ runs

  datatype Op =
    | OpCharge(amount: nat, category: string, memo: Memo)
    | OpReserve(amount: nat, ref: string)
    | OpRelease(rid: nat)
    | OpCommit(rid: nat, amount: nat)
    | OpSetTotal(total: nat)

  function Step(l: Ledger, op: Op): Ledger {
    match op
    case OpCharge(amount, category, memo) => Charge(l, amount, category, memo)
    case OpReserve(amount, ref) => Reserve(l, amount, ref)
    case OpRelease(rid) => Release(l, rid)
    case OpCommit(rid, actual) => Commit(l, rid, actual)
    case OpSetTotal(total) => SetTotal(l, total)
  }

  function Run(l: Ledger, ops: seq<Op>): Ledger
    decreases |ops|
  {
    if ops == [] then l else Run(Step(l, ops[0]), ops[1..])
  }

  /** The cents announced by the EXPENSE_CHARGED events, in order. */
  function ChargedCents(log: seq<Event>): seq<nat> {
    if log == [] then []
    else
      var last := log[|log| - 1];
      var front := ChargedCents(log[..|log| - 1]);
      if last.ExpenseCharged? then front + [last.cents] else front
  }

  function SumCents(cents: seq<nat>): nat {
    if cents == [] then 0 else SumCents(cents[..|cents| - 1]) + cents[|cents| - 1]
  }

  ghost predicate LedgerOk(l: Ledger) {
    && l.lastWarn in {0, WARNING_PCT, BLOCKED_PCT}
    && (l.blocked <==> l.lastWarn == BLOCKED_PCT)
    && |ChargedCents(l.log)| == |l.expenses|
    && forall i :: 0 <= i < |l.expenses| ==> ChargedCents(l.log)[i] == Cents(l.expenses[i].amount)
  }

  lemma {:induction false} ChargedCentsConcat(a: seq<Event>, b: seq<Event>)
    ensures ChargedCents(a + b) == ChargedCents(a) + ChargedCents(b)
  {
    if b == [] {
      assert a + b == a;
    } else {
      assert (a + b)[..|a + b| - 1] == a + b[..|b| - 1];
      ChargedCentsConcat(a, b[..|b| - 1]);
    }
  }

  lemma EvaluatedOk(l: Ledger, first: seq<Event>)
    requires ChargedCents(l.log) + ChargedCents(first) == CentsOf(l.expenses)
    ensures LedgerOk(Evaluated(l, first))
  {
    var out := Crossing(l.lastWarn, Used(l), l.total);
    assert out != [] ==> out[..0] == [];
    assert ChargedCents(out) == [];
    ChargedCentsConcat(l.log + first, out);
    ChargedCentsConcat(l.log, first);
    assert ChargedCents(l.log + first + out) == CentsOf(l.expenses);
  }

  function CentsOf(rows: seq<Expense>): seq<nat> {
    seq(|rows|, i requires 0 <= i < |rows| => Cents(rows[i].amount))
  }

  lemma OneEvent(e: Event)
    ensures ChargedCents([e]) == if e.ExpenseCharged? then [e.cents] else []
  {
    assert [e][..0] == [];
  }

  lemma StepKeepsOk(l: Ledger, op: Op)
    requires LedgerOk(l)
    ensures LedgerOk(Step(l, op))
  {
    assert ChargedCents(l.log) == CentsOf(l.expenses);
    match op
    case OpCharge(amount, category, memo) =>
      OneEvent(Refusal(l, amount));
      OneEvent(ExpenseCharged(Cents(amount)));
      ChargedCentsConcat(l.log, [Refusal(l, amount)]);
      var rows := l.expenses + [Expense(amount, category, memo)];
      assert CentsOf(rows) == CentsOf(l.expenses) + [Cents(amount)];
      EvaluatedOk(l.(expenses := rows), [ExpenseCharged(Cents(amount))]);
    case OpReserve(amount, ref) =>
      EvaluatedOk(l.(reservations := l.reservations + [Reservation(amount, ref, OPEN)]), []);
    case OpRelease(rid) =>
    case OpCommit(rid, actual) =>
      CommitKeepsOk(l, rid, actual);
    case OpSetTotal(total) =>
      EvaluatedOk(l.(total := total), []);
  }

  lemma CommitKeepsOk(l: Ledger, rid: nat, actual: nat)
    requires LedgerOk(l)
    ensures LedgerOk(Commit(l, rid, actual))
  {
    assert ChargedCents(l.log) == CentsOf(l.expenses);
    if IsOpen(l, rid) {
      OneEvent(Refusal(l, actual));
      OneEvent(ExpenseCharged(Cents(actual)));
      ChargedCentsConcat(l.log, [Refusal(l, actual)]);
      var rows := l.expenses + [Expense(actual, "other", ForReservation(l.reservations[rid].ref))];
      assert CentsOf(rows) == CentsOf(l.expenses) + [Cents(actual)];
      EvaluatedOk(Close(l, rid, COMMITTED).(expenses := rows), [ExpenseCharged(Cents(actual))]);
    }
  }

  /** Over every run, blocked and the 100% mark go together and the log has one charge event per expense. */
  lemma {:induction false} RunKeepsOk(l: Ledger, ops: seq<Op>)
    requires LedgerOk(l)
    ensures LedgerOk(Run(l, ops))
    decreases |ops|
  {
    if ops != [] {
      StepKeepsOk(l, ops[0]);
      RunKeepsOk(Step(l, ops[0]), ops[1..]);
    }
  }

  // ------------------------------------------------------------ solvency

  /** Usage ends within the cap, unless it was above already and did not grow. */
  lemma StepSolvent(l: Ledger, op: Op)
    requires !op.OpSetTotal?
    ensures Used(Step(l, op)) <= l.total || Used(Step(l, op)) <= Used(l)
    ensures Step(l, op).total == l.total
  {
    match op
    case OpCharge(amount, category, memo) =>
      SumExpensesSnoc(l.expenses, Expense(amount, category, memo));
    case OpReserve(amount, ref) =>
      SumOpenSnoc(l.reservations, Reservation(amount, ref, OPEN));
    case OpRelease(rid) =>
      CloseFrees(l, rid, RELEASED);
    case OpCommit(rid, actual) =>
      CloseFrees(l, rid, RELEASED);
      CloseFrees(l, rid, COMMITTED);
      if IsOpen(l, rid) {
        SumExpensesSnoc(l.expenses, Expense(actual, "other", ForReservation(l.reservations[rid].ref)));
      }
    case OpSetTotal(total) =>
  }

  lemma CloseFrees(l: Ledger, rid: nat, status: ReservationStatus)
    requires status != OPEN
    ensures IsOpen(l, rid) ==> Reserved(Close(l, rid, status)) == Reserved(l) - l.reservations[rid].amount
    ensures IsOpen(l, rid) ==> Reserved(l) >= l.reservations[rid].amount
  {
    if IsOpen(l, rid) {
      SumOpenUpdate(l.reservations, rid, l.reservations[rid].(status := status));
    }
  }

  /** Over every run between two changes of the cap, a company within its cap stays within it. */
  lemma {:induction false} RunSolvent(l: Ledger, ops: seq<Op>)
    requires forall op :: op in ops ==> !op.OpSetTotal?
    ensures Run(l, ops).total == l.total
    ensures Used(Run(l, ops)) <= l.total || Used(Run(l, ops)) <= Used(l)
    decreases |ops|
  {
    if ops != [] {
      assert ops[0] in ops;
      StepSolvent(l, ops[0]);
      assert forall op :: op in ops[1..] ==> op in ops;
      RunSolvent(Step(l, ops[0]), ops[1..]);
    }
  }

  ghost predicate OnlyCloses(l: Ledger, l': Ledger) {
    && |l'.reservations| == |l.reservations|
    && forall rid :: IsOpen(l', rid) ==> IsOpen(l, rid)
  }

  /** Once blocked, always blocked until the cap is set anew: nothing is spent, nothing newly reserved. */
  lemma {:induction false} BlockedIsAbsorbing(l: Ledger, ops: seq<Op>)
    requires l.blocked && forall op :: op in ops ==> !op.OpSetTotal?
    ensures Run(l, ops).blocked && Run(l, ops).expenses == l.expenses
    ensures OnlyCloses(l, Run(l, ops))
    decreases |ops|
  {
    if ops != [] {
      assert ops[0] in ops;
      assert forall op :: op in ops[1..] ==> op in ops;
      BlockedIsAbsorbing(Step(l, ops[0]), ops[1..]);
    }
  }

  /**
   Reserving and at once committing the reserved amount: refused exactly when the reservation itself
   brought usage to a positive cap, because that already raised the block.
   */
  lemma ReserveThenCommit(l: Ledger, amount: nat, ref: string)
    requires CanAfford(l, amount)
    ensures
      var l1, rid := Reserve(l, amount, ref), |l.reservations|;
      && IsOpen(l1, rid)
      && (CommitAccepted(l1, rid, amount) <==> !(l.total > 0 && Used(l) + amount == l.total))
  {
    var l1 := Reserve(l, amount, ref);
    SumOpenSnoc(l.reservations, Reservation(amount, ref, OPEN));
    CloseFrees(l1, |l.reservations|, RELEASED);
  }

  /** A company with 100 units that reserves all of them cannot spend its reservation. */
  lemma WholeBudgetReserved()
    ensures
      var l := SetTotal(FRESH, 100);
      CanAfford(l, 100) && !CommitAccepted(Reserve(l, 100, "all"), 0, 100)
  {
    ReserveThenCommit(SetTotal(FRESH, 100), 100, "all");
  }

  /** The announced cents, times 100, miss the money spent by at most 50 units an event. */
  lemma {:induction false} CentsDrift(l: Ledger)
    requires LedgerOk(l)
    ensures -50 * |l.expenses| <= 100 * SumCents(ChargedCents(l.log)) - Spent(l) <= 50 * |l.expenses|
  {
    assert ChargedCents(l.log) == CentsOf(l.expenses);
    SumDrift(l.expenses);
  }

  lemma {:induction false} SumDrift(rows: seq<Expense>)
    ensures -50 * |rows| <= 100 * SumCents(CentsOf(rows)) - SumExpenses(rows) <= 50 * |rows|
  {
    if rows != [] {
      var front := rows[..|rows| - 1];
      SumDrift(front);
      assert CentsOf(rows)[..|rows| - 1] == CentsOf(front);
    }
  }

  /** Remark, read off the definitions: can_afford foretells both charge and reserve. */
  lemma CanAffordForetells(l: Ledger, amount: nat, category: string, memo: Memo, ref: string)
    ensures CanAfford(l, amount) <==> |Charge(l, amount, category, memo).expenses| == |l.expenses| + 1
    ensures CanAfford(l, amount) <==> |Reserve(l, amount, ref).reservations| == |l.reservations| + 1
  {
  }
}
