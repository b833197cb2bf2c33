/** What becomes of each subscription in a tick, in plain terms (modules/cost/subscriptions.py). */
module SubscriptionOutcomes {
  import opened Common
  import opened Money
  import opened MoneyOutcomes
  import opened Subscriptions

  /** Due earlier, or on the same day with an id that sorts no later. */
  predicate Earlier(s: Sub, r: Sub) {
    s.nextDay < r.nextDay || (s.nextDay == r.nextDay && s.idRank <= r.idRank)
  }

  /** The due list holds each subscription due by then that is not cancelled, once, by due day and then id. */
  lemma DueIs(subs: seq<Sub>, day: int)
    ensures
      var due := Due(subs, day, |subs|);
      && NoDup(due)
      && (forall i: nat :: i in due <==> i < |subs| && !subs[i].cancelled && subs[i].nextDay <= day)
      && (forall p, q :: 0 <= p < q < |due| ==> due[p] < |subs| && due[q] < |subs| && Earlier(subs[due[p]], subs[due[q]]))
  {
    DueDistinct(subs, day);
    assert Ordered(subs, Due(subs, day, |subs|));
  }

  /** Adding and removing touch no money and no other subscription; one that is removed keeps its due day and is never due again. */
  lemma AddedAndRemoved(w: World, s: Sub, id: nat, op: Money.Op)
    ensures
      WorldStep(w, Add(s.idRank, s.amount, s.category, s.nextDay, s.period)) ==
      if s.period == 0 then w else World(w.ledger, w.subs + [s.(cancelled := false)])
    ensures
      WorldStep(w, Remove(id)) == if id < |w.subs| then World(w.ledger, w.subs[id := w.subs[id].(cancelled := true)]) else w
    ensures WorldStep(w, OnBudget(op)) == World(Money.Step(w.ledger, op), w.subs)
  {
  }

  /** Settling a list is settling its first part and then the rest. */
  lemma {:induction false} TickOverConcat(l: Ledger, subs: seq<Sub>, a: seq<nat>, b: seq<nat>)
    requires AllBelow(a, |subs|) && AllBelow(b, |subs|)
    ensures AllBelow(a + b, |subs|) && |TickOver(l, subs, a).1| == |subs|
    ensures TickOver(l, subs, a + b) == TickOver(TickOver(l, subs, a).0, TickOver(l, subs, a).1, b)
    decreases |a|
  {
    if a == [] {
      assert a + b == b;
    } else {
      var i := a[0];
      var s := subs[i];
      assert (a + b)[0] == i && (a + b)[1..] == a[1..] + b;
      TickOverConcat(
        Book(l, s, i), subs[i := if CanAfford(l, s.amount) then Advanced(s) else Cancelled(s)], a[1..], b);
    }
  }

  lemma {:induction false} OthersStay(l: Ledger, subs: seq<Sub>, due: seq<nat>, i: nat)
    requires AllBelow(due, |subs|) && i < |subs| && i !in due
    ensures |TickOver(l, subs, due).1| == |subs| && TickOver(l, subs, due).1[i] == subs[i]
    decreases |due|
  {
    if due != [] {
      var s := subs[due[0]];
      assert due[0] in due && forall j :: j in due[1..] ==> j in due;
      OthersStay(
        Book(l, s, due[0]), subs[due[0] := if CanAfford(l, s.amount) then Advanced(s) else Cancelled(s)], due[1..], i);
    }
  }

  /**
   Each due subscription at its turn, with what those before it have left: if there is room for its amount, exactly
   that is booked, in its name and category, and it is next due one period later; otherwise nothing is spent, the
   budget is blocked and the subscription is cancelled with its due day unchanged.
   */
  lemma AtItsTurn(l: Ledger, subs: seq<Sub>, due: seq<nat>, p: nat)
    requires NoDup(due) && AllBelow(due, |subs|) && p < |due|
    ensures AllBelow(due[..p], |subs|) && AllBelow(due[..p + 1], |subs|) && |TickOver(l, subs, due).1| == |subs|
    ensures
      var before, after := TickOver(l, subs, due[..p]).0, TickOver(l, subs, due[..p + 1]).0;
      var s, row := subs[due[p]], TickOver(l, subs, due).1[due[p]];
      if HasRoom(before, s.amount) then
        && after.expenses == before.expenses + [Expense(s.amount, s.category, ForSubscription(due[p]))]
        && row == s.(nextDay := s.nextDay + s.period)
      else
        after.expenses == before.expenses && after.blocked && row == s.(cancelled := true)
  {
    var i := due[p];
    var first, rest := due[..p], due[p + 1..];
    var t, s := TickOver(l, subs, first), subs[i];
    assert due == first + ([i] + rest) && due[..p + 1] == first + [i];
    assert i !in first && i !in rest;
    OthersStay(l, subs, first, i);
    TickOverConcat(l, subs, first, [i]);
    TickOverConcat(l, subs, first, [i] + rest);
    FirstOfRest(t.0, t.1, i, rest);
    ChargeIs(t.0, s.amount, s.category, ForSubscription(i));
  }

  /** The first of a list is charged, and what becomes of it then stays. */
  lemma FirstOfRest(l: Ledger, subs: seq<Sub>, i: nat, rest: seq<nat>)
    requires AllBelow([i] + rest, |subs|) && AllBelow([i], |subs|) && i !in rest
    ensures TickOver(l, subs, [i]).0 == Book(l, subs[i], i)
    ensures
      var r := TickOver(l, subs, [i] + rest);
      |r.1| == |subs| && r.1[i] == if CanAfford(l, subs[i].amount) then Advanced(subs[i]) else Cancelled(subs[i])
  {
    var s := subs[i];
    var l1, subs1 := Book(l, s, i), subs[i := if CanAfford(l, s.amount) then Advanced(s) else Cancelled(s)];
    assert [i][1..] == [] && ([i] + rest)[1..] == rest;
    assert TickOver(l, subs, [i]) == TickOver(l1, subs1, []);
    OthersStay(l1, subs1, rest, i);
  }

  /** A tick that dies leaves what comes after its place alone, but for the charge it may have booked there. */
  lemma DiesThere(w: World, day: int, settled: nat, booked: bool)
    requires settled < |Due(w.subs, day, |w.subs|)|
    ensures
      var due := Due(w.subs, day, |w.subs|);
      var w', done := WorldStep(w, Tick(day, After(settled, booked))), TickOver(w.ledger, w.subs, due[..settled]);
      && due[settled] < |w.subs| && w'.subs == done.1
      && var s := w.subs[due[settled]];
         w'.ledger.expenses == done.0.expenses
           + (if booked && HasRoom(done.0, s.amount) then [Expense(s.amount, s.category, ForSubscription(due[settled]))] else [])
    ensures forall p :: settled <= p < |Due(w.subs, day, |w.subs|)| ==>
              var i := Due(w.subs, day, |w.subs|)[p];
              i < |w.subs| && i < |WorldStep(w, Tick(day, After(settled, booked))).subs|
              && WorldStep(w, Tick(day, After(settled, booked))).subs[i] == w.subs[i]
  {
    var due := Due(w.subs, day, |w.subs|);
    DueIs(w.subs, day);
    assert due[settled] in due;
    var done, s := TickOver(w.ledger, w.subs, due[..settled]), w.subs[due[settled]];
    ChargeIs(done.0, s.amount, s.category, ForSubscription(due[settled]));
    forall p | settled <= p < |due|
      ensures due[p] < |w.subs| && due[p] < |done.1| && done.1[due[p]] == w.subs[due[p]]
    {
      assert due[p] in due && due[p] !in due[..settled];
      OthersStay(w.ledger, w.subs, due[..settled], due[p]);
    }
  }
}
