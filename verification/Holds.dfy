/** What holding money for one call, and then letting go of it or spending it, does to a ledger. */
module Holds {
  import opened Money

  /** The ids of the open reservations. */
  function OpenIds(l: Ledger): set<nat> {
    set rid: nat | rid < |l.reservations| && l.reservations[rid].status == OPEN
  }

  /** After a hold: the open set as before, and the money spent grown by `paid` in at most one expense. */
  ghost predicate Settled(l: Ledger, l': Ledger, cid: string, charged: bool, paid: nat) {
    && OpenIds(l') == OpenIds(l)
    && l'.total == l.total
    && l'.expenses == l.expenses + (if charged then [Expense(paid, "other", ForReservation(cid))] else [])
    && Spent(l') == Spent(l) + (if charged then paid else 0)
    && Reserved(l') == Reserved(l)
  }

  lemma NothingHeld(l: Ledger, cid: string)
    ensures Settled(l, l, cid, false, 0)
  {
  }

  lemma HoldAndRelease(l: Ledger, amount: nat, cid: string)
    requires CanAfford(l, amount)
    ensures Settled(l, Release(Reserve(l, amount, cid), |l.reservations|), cid, false, 0)
  {
    var l1 := Reserve(l, amount, cid);
    SumOpenSnoc(l.reservations, Reservation(amount, cid, OPEN));
    CloseFrees(l1, |l.reservations|, RELEASED);
    SameOpenIds(l, Release(l1, |l.reservations|));
  }

  /** Committing the held amount goes through unless the hold used up a positive cap exactly. */
  lemma HoldAndCommit(l: Ledger, amount: nat, cid: string)
    requires CanAfford(l, amount)
    ensures
      var l1, rid := Reserve(l, amount, cid), |l.reservations|;
      var ok := CommitAccepted(l1, rid, amount);
      && (ok <==> !(l.total > 0 && Used(l) + amount == l.total))
      && Settled(l, Commit(l1, rid, amount), cid, ok, amount)
  {
    var l1, rid := Reserve(l, amount, cid), |l.reservations|;
    ReserveThenCommit(l, amount, cid);
    SumOpenSnoc(l.reservations, Reservation(amount, cid, OPEN));
    CloseFrees(l1, rid, RELEASED);
    CloseFrees(l1, rid, COMMITTED);
    SumExpensesSnoc(l.expenses, Expense(amount, "other", ForReservation(cid)));
    SameOpenIds(l, Commit(l1, rid, amount));
  }

  lemma SameOpenIds(l: Ledger, l': Ledger)
    requires |l'.reservations| == |l.reservations| + 1
    requires l'.reservations[|l.reservations|].status != OPEN
    requires forall i :: 0 <= i < |l.reservations| ==> l'.reservations[i] == l.reservations[i]
    ensures OpenIds(l') == OpenIds(l)
  {
  }

  lemma HoldKeepsOk(l: Ledger, amount: nat, cid: string)
    requires LedgerOk(l)
    ensures LedgerOk(Reserve(l, amount, cid)) && LedgerOk(Commit(Reserve(l, amount, cid), |l.reservations|, amount))
  {
    StepKeepsOk(l, OpReserve(amount, cid));
    assert Step(l, OpReserve(amount, cid)) == Reserve(l, amount, cid);
    CommitKeepsOk(Reserve(l, amount, cid), |l.reservations|, amount);
  }

  /** A process that dies with money held: the reservation stays open, and nothing is spent. */
  lemma HoldAndDie(l: Ledger, amount: nat, cid: string)
    requires CanAfford(l, amount)
    ensures OpenIds(Reserve(l, amount, cid)) == OpenIds(l) + {|l.reservations|}
    ensures Reserve(l, amount, cid).expenses == l.expenses
    ensures Reserved(Reserve(l, amount, cid)) == Reserved(l) + amount
  {
    SumOpenSnoc(l.reservations, Reservation(amount, cid, OPEN));
    MoreOpenIds(l, Reserve(l, amount, cid));
  }

  lemma MoreOpenIds(l: Ledger, l': Ledger)
    requires |l'.reservations| == |l.reservations| + 1
    requires l'.reservations[|l.reservations|].status == OPEN
    requires forall i :: 0 <= i < |l.reservations| ==> l'.reservations[i] == l.reservations[i]
    ensures OpenIds(l') == OpenIds(l) + {|l.reservations|}
  {
  }

  // ------------------------------------------------------------ expenses of one id

  /** How often an id has been charged for. */
  function Charges(rows: seq<Expense>, cid: string): nat {
    if rows == [] then 0
    else Charges(rows[..|rows| - 1], cid) + (if rows[|rows| - 1].memo == ForReservation(cid) then 1 else 0)
  }

  lemma ChargesSnoc(rows: seq<Expense>, e: Expense, cid: string)
    ensures Charges(rows + [e], cid) == Charges(rows, cid) + (if e.memo == ForReservation(cid) then 1 else 0)
  {
    assert (rows + [e])[..|rows|] == rows;
  }

  lemma SettledCharges(l: Ledger, l': Ledger, cid: string, charged: bool, paid: nat, id: string)
    requires Settled(l, l', cid, charged, paid)
    ensures Charges(l'.expenses, id) == Charges(l.expenses, id) + (if charged && cid == id then 1 else 0)
  {
    if charged {
      ChargesSnoc(l.expenses, Expense(paid, "other", ForReservation(cid)), id);
    } else {
      assert l.expenses + [] == l.expenses;
    }
  }

  /** A budget operation that books nothing in the name of the id. */
  predicate LeavesId(l: Ledger, op: Op, cid: string) {
    match op
    case OpCharge(_, _, memo) => memo != ForReservation(cid)
    case OpCommit(rid, _) => rid < |l.reservations| ==> l.reservations[rid].ref != cid
    case _ => true
  }

  lemma BudgetLeavesCharges(l: Ledger, op: Op, cid: string)
    requires LeavesId(l, op, cid)
    ensures Charges(Step(l, op).expenses, cid) == Charges(l.expenses, cid)
  {
    match op
    case OpCharge(amount, category, memo) => ChargesSnoc(l.expenses, Expense(amount, category, memo), cid);
    case OpCommit(rid, actual) =>
      if IsOpen(l, rid) {
        ChargesSnoc(l.expenses, Expense(actual, "other", ForReservation(l.reservations[rid].ref)), cid);
      }
    case _ =>
  }
}
