/** What each operation on a company's money comes to, in plain numbers (modules/cost/budget.py). */
module MoneyOutcomes {
  import opened Money

  /** Spent and held together. */
  function Usage(l: Ledger): nat {
    SumExpenses(l.expenses) + SumOpen(l.reservations)
  }

  /** There is room for that much in a budget that is not blocked. */
  predicate HasRoom(l: Ledger, amount: nat) {
    !l.blocked && Usage(l) + amount <= l.total
  }

  /** After the thresholds are read: blocked at the full total, the mark at the highest threshold reached. */
  predicate MarksAreRight(l: Ledger) {
    && (l.blocked <==> l.total > 0 && Usage(l) >= l.total)
    && (l.lastWarn == 100 <==> l.total > 0 && Usage(l) >= l.total)
    && (l.lastWarn == 80 <==> l.total > 0 && Usage(l) < l.total && 5 * Usage(l) >= 4 * l.total)
    && (l.lastWarn == 0 <==> l.total == 0 || 5 * Usage(l) < 4 * l.total)
  }

  /** Amounts are told in cents, half a cent rounded up. */
  function InCents(units: nat): nat {
    if units % 100 >= 50 then units / 100 + 1 else units / 100
  }

  /** What reading the thresholds announces: one event if the mark rose, for the threshold it rose to. */
  predicate Announces(l: Ledger, l': Ledger, first: seq<Event>) {
    l'.log == l.log + first + (
      if l'.lastWarn <= l.lastWarn then []
      else if l'.lastWarn == 100 then [BudgetBlocked(InCents(Usage(l')), InCents(l'.total), 0)]
      else [BudgetWarning(InCents(Usage(l')), InCents(l'.total))])
  }

  lemma CentsAre(units: nat)
    ensures Cents(units) == InCents(units)
  {
  }

  lemma ReadingIsRight(l: Ledger, first: seq<Event>)
    ensures
      var l' := Evaluated(l, first);
      && MarksAreRight(l') && Announces(l, l', first)
      && l'.total == l.total && l'.expenses == l.expenses && l'.reservations == l.reservations
  {
    CentsAre(Usage(l));
    CentsAre(l.total);
    assert Used(l) == Usage(l);
  }

  /**
   Setting the total: it stands from then on, nothing is spent or let go of, and the budget is blocked iff the
   total is positive and used up. So one below a positive total is open again.
   */
  lemma SetTotalIs(l: Ledger, total: nat)
    ensures
      var l' := SetTotal(l, total);
      && l'.total == total && l'.expenses == l.expenses && l'.reservations == l.reservations
      && MarksAreRight(l') && Announces(l, l', [])
      && (Usage(l) < total ==> !l'.blocked)
  {
    ReadingIsRight(l.(total := total), []);
  }

  /** A charge is booked iff there is room for it; a refusal blocks the budget, spends nothing and is announced. */
  lemma ChargeIs(l: Ledger, amount: nat, category: string, memo: Memo)
    ensures
      var l' := Charge(l, amount, category, memo);
      && l'.total == l.total && l'.reservations == l.reservations
      && (if HasRoom(l, amount) then
            l'.expenses == l.expenses + [Expense(amount, category, memo)] && MarksAreRight(l')
            && Announces(l, l', [ExpenseCharged(InCents(amount))])
          else
            l'.expenses == l.expenses && l'.blocked && (l.blocked ==> l'.lastWarn == l.lastWarn) && (!l.blocked ==> l'.lastWarn == 100)
            && l'.log == l.log + [BudgetBlocked(InCents(SumExpenses(l.expenses)), InCents(l.total), InCents(amount))])
  {
    CentsAre(amount);
    CentsAre(Spent(l));
    CentsAre(l.total);
    ReadingIsRight(l.(expenses := l.expenses + [Expense(amount, category, memo)]), [ExpenseCharged(Cents(amount))]);
  }

  /** A reservation opens iff there is room for it; a refusal changes nothing. */
  lemma ReserveIs(l: Ledger, amount: nat, ref: string)
    ensures
      var l' := Reserve(l, amount, ref);
      if HasRoom(l, amount) then
        l'.total == l.total && l'.expenses == l.expenses && l'.reservations == l.reservations + [Reservation(amount, ref, OPEN)]
        && MarksAreRight(l') && Announces(l, l', [])
      else l' == l
  {
    ReadingIsRight(l.(reservations := l.reservations + [Reservation(amount, ref, OPEN)]), []);
  }

  predicate Open(l: Ledger, rid: nat) {
    rid < |l.reservations| && l.reservations[rid].status == OPEN
  }

  /** Releasing frees an open reservation; one that is closed or unknown stays as it is. No threshold is read. */
  lemma ReleaseIs(l: Ledger, rid: nat)
    ensures
      var l' := Release(l, rid);
      if Open(l, rid) then
        l' == l.(reservations := l'.reservations) && SumOpen(l'.reservations) == SumOpen(l.reservations) - l.reservations[rid].amount
        && l'.reservations == l.reservations[rid := l.reservations[rid].(status := RELEASED)]
      else l' == l
  {
    CloseFrees(l, rid, RELEASED);
  }

  /**
   Committing an open reservation closes it. With what it held out of the way, the actual amount is booked under its
   reference iff there is room; otherwise nothing is spent, the budget is blocked and that is announced.
   */
  lemma CommitIs(l: Ledger, rid: nat, actual: nat)
    ensures
      var l' := Commit(l, rid, actual);
      if !Open(l, rid) then l' == l
      else
        var held, ref := l.reservations[rid].amount, l.reservations[rid].ref;
        && l'.total == l.total && Usage(l) >= held
        && (if !l.blocked && Usage(l) - held + actual <= l.total then
              l'.expenses == l.expenses + [Expense(actual, "other", ForReservation(ref))] && MarksAreRight(l')
              && l'.reservations == l.reservations[rid := Reservation(held, ref, COMMITTED)]
              && Announces(l, l', [ExpenseCharged(InCents(actual))])
            else
              l'.expenses == l.expenses && l'.blocked && l'.lastWarn == 100
              && l'.reservations == l.reservations[rid := Reservation(held, ref, RELEASED)]
              && l'.log == l.log + [BudgetBlocked(InCents(SumExpenses(l.expenses)), InCents(l.total), InCents(actual))])
  {
    if Open(l, rid) {
      CloseFrees(l, rid, RELEASED);
      CentsAre(actual);
      CentsAre(Spent(l));
      CentsAre(l.total);
      var e := Expense(actual, "other", ForReservation(l.reservations[rid].ref));
      ReadingIsRight(Close(l, rid, COMMITTED).(expenses := l.expenses + [e]), [ExpenseCharged(Cents(actual))]);
    }
  }
}
