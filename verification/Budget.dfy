/** The budget engine (modules/cost/budget.py): each method is one transaction over the three tables. */
module BudgetService {
  import opened Common
  import opened Money

  datatype CloseResult = UnknownReservation | ReservationAlreadyClosed | OverBudget | Done

  class Budget {
    var total: nat
    var blocked: bool
    var lastWarn: nat
    var expenses: seq<Expense>
    var reservations: seq<Reservation>
    var log: seq<Event>

    ghost function Books(): Ledger
      reads this
    {
      Ledger(total, blocked, lastWarn, expenses, reservations, log)
    }

    ghost predicate Valid()
      reads this
    {
      LedgerOk(Books())
    }

    constructor ()
      ensures Books() == FRESH && Valid()
    {
      total, blocked, lastWarn := 0, false, 0;
      expenses, reservations, log := [], [], [];
    }

    method SumExpenses() returns (sum: nat)
      ensures sum == Spent(Books())
    {
      sum := 0;
      for i := 0 to |expenses|
        invariant sum == Money.SumExpenses(expenses[..i])
      {
        assert expenses[..i + 1][..i] == expenses[..i];
        sum := sum + expenses[i].amount;
      }
      assert expenses[..|expenses|] == expenses;
    }

    method SumOpenReservations() returns (sum: nat)
      ensures sum == Reserved(Books())
    {
      sum := 0;
      for i := 0 to |reservations|
        invariant sum == SumOpen(reservations[..i])
      {
        assert reservations[..i + 1][..i] == reservations[..i];
        if reservations[i].status == OPEN {
          sum := sum + reservations[i].amount;
        }
      }
      assert reservations[..|reservations|] == reservations;
    }

    /**
     The two ladders of comparisons, upward and downward, come to one thing: the marks end at the band
     of current usage, and the event is the one for the highest threshold crossed upward.
     */
    method EvaluateThresholds() returns (out: seq<Event>)
      requires lastWarn in {0, WARNING_PCT, BLOCKED_PCT} && (blocked <==> lastWarn == BLOCKED_PCT)
      modifies this`lastWarn, this`blocked
      ensures lastWarn == Band(Used(old(Books())), total)
      ensures blocked <==> lastWarn == BLOCKED_PCT
      ensures out == Crossing(old(lastWarn), Used(old(Books())), total)
    {
      var spent := SumExpenses();
      var reserved := SumOpenReservations();
      var used := spent + reserved;
      var atWarning := total > 0 && 100 * used >= WARNING_PCT * total;
      var atBlocked := total > 0 && 100 * used >= BLOCKED_PCT * total;
      out := [];
      var newLast, newBlocked := lastWarn, blocked;
      if atBlocked && lastWarn < BLOCKED_PCT {
        out := out + [BudgetBlocked(Cents(used), Cents(total), 0)];
        newLast, newBlocked := BLOCKED_PCT, true;
      } else if atWarning && lastWarn < WARNING_PCT {
        out := out + [BudgetWarning(Cents(used), Cents(total))];
        newLast := WARNING_PCT;
      }
      if !atWarning && lastWarn >= WARNING_PCT {
        newLast := 0;
      } else if !atBlocked && lastWarn >= BLOCKED_PCT {
        newLast := WARNING_PCT;
      }
      if !atBlocked && blocked {
        newBlocked := false;
      }
      if newLast != lastWarn || newBlocked != blocked {
        lastWarn, blocked := newLast, newBlocked;
      }
    }

    method SetTotal(newTotal: nat)
      requires Valid()
      modifies this
      ensures Books() == Money.SetTotal(old(Books()), newTotal) && Valid()
    {
      StepKeepsOk(Books(), OpSetTotal(newTotal));
      total := newTotal;
      var post := EvaluateThresholds();
      log := log + post;
      assert old(log) + [] == old(log);
    }

    method Charge(amount: nat, category: string, memo: Memo) returns (ok: bool)
      requires Valid()
      modifies this
      ensures Books() == Money.Charge(old(Books()), amount, category, memo) && Valid()
      ensures ok == CanAfford(old(Books()), amount)
    {
      StepKeepsOk(Books(), OpCharge(amount, category, memo));
      var spent := SumExpenses();
      var reserved := SumOpenReservations();
      var post: seq<Event>;
      if blocked {
        ok := false;
        post := [BudgetBlocked(Cents(spent), Cents(total), Cents(amount))];
      } else if spent + reserved + amount > total {
        ok := false;
        post := [BudgetBlocked(Cents(spent), Cents(total), Cents(amount))];
        blocked, lastWarn := true, BLOCKED_PCT;
      } else {
        ok := true;
        expenses := expenses + [Expense(amount, category, memo)];
        post := EvaluateThresholds();
      }
      if ok {
        log := log + [ExpenseCharged(Cents(amount))];
      }
      log := log + post;
    }

    /** The new reservation's id, or None where the source raises OverBudget. */
    method Reserve(amount: nat, ref: string) returns (rid: Option<nat>)
      requires Valid()
      modifies this
      ensures Books() == Money.Reserve(old(Books()), amount, ref) && Valid()
      ensures rid == if CanAfford(old(Books()), amount) then Some(|old(reservations)|) else None
    {
      StepKeepsOk(Books(), OpReserve(amount, ref));
      var spent := SumExpenses();
      var reserved := SumOpenReservations();
      if blocked || spent + reserved + amount > total {
        return None;
      }
      rid := Some(|reservations|);
      reservations := reservations + [Reservation(amount, ref, OPEN)];
      assert old(log) + [] == old(log);
      var post := EvaluateThresholds();
      log := log + post;
    }

    method Release(rid: nat) returns (r: CloseResult)
      requires Valid()
      modifies this
      ensures Books() == Money.Release(old(Books()), rid) && Valid()
      ensures r.Done? <==> IsOpen(old(Books()), rid)
    {
      StepKeepsOk(Books(), OpRelease(rid));
      if rid >= |reservations| {
        return UnknownReservation;
      }
      if reservations[rid].status != OPEN {
        return ReservationAlreadyClosed;
      }
      reservations := reservations[rid := reservations[rid].(status := RELEASED)];
      r := Done;
    }

    method Commit(rid: nat, actual: nat) returns (r: CloseResult)
      requires Valid()
      modifies this
      ensures Books() == Money.Commit(old(Books()), rid, actual) && Valid()
      ensures r.UnknownReservation? <==> rid >= |old(reservations)|
      ensures r.OverBudget? || r.Done? <==> IsOpen(old(Books()), rid)
      ensures r.Done? <==> CommitAccepted(old(Books()), rid, actual)
    {
      StepKeepsOk(Books(), OpCommit(rid, actual));
      if rid >= |reservations| {
        return UnknownReservation;
      }
      var row := reservations[rid];
      if row.status != OPEN {
        return ReservationAlreadyClosed;
      }
      var spent := SumExpenses();
      var reserved := SumOpenReservations();
      CloseFrees(Books(), rid, RELEASED);
      var otherReserved := reserved - row.amount;
      var post: seq<Event>;
      if blocked || spent + otherReserved + actual > total {
        reservations := reservations[rid := row.(status := RELEASED)];
        blocked, lastWarn := true, BLOCKED_PCT;
        log := log + [BudgetBlocked(Cents(spent), Cents(total), Cents(actual))];
        r := OverBudget;
      } else {
        reservations := reservations[rid := row.(status := COMMITTED)];
        expenses := expenses + [Expense(actual, "other", ForReservation(row.ref))];
        post := EvaluateThresholds();
        log := log + [ExpenseCharged(Cents(actual))];
        log := log + post;
        r := Done;
      }
    }
  }
}
