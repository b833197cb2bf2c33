/**
 How often the gateway tries and charges an id, and where the money goes, over runs in which processes end.
 The result cache is a process's own (modules/connector/connector.py:90-91); expenses, reservations, approvals
 and events outlive it.
 */
module ConnectorOnce {
  import opened Common
  import opened Holds
  import opened Connector
  import opened ConnectorRuns
  import Money
  import A = Approvals

  // ------------------------------------------------------------ how often an id is tried

  /** How often the executor has been started for an id, over all calls. */
  function AttemptsFor(ops: seq<Op>, cid: Cid): nat {
    if ops == [] then 0
    else
      var last := ops[|ops| - 1];
      AttemptsFor(ops[..|ops| - 1], cid) + (if IsCall(last) && last.cid == cid then last.attempts else 0)
  }

  predicate HasResult(w: World, cid: Cid) { cid in w.completed }

  /** A process ends that has a result for the id, or that has started its executor. */
  predicate Forgets(w: World, op: Op, cid: Cid) {
    Ends(op) && (HasResult(w, cid) || (op.DiesInCall? && op.cid == cid && op.attempts > 0))
  }

  /** How often that happens in a run. */
  ghost function Forgotten(ws: seq<World>, ops: seq<Op>, cid: Cid): int
    requires |ws| >= |ops|
  {
    Along(ws, ops, ForgetsOnce(cid))
  }

  function ForgetsOnce(cid: Cid): (World, Op) -> int {
    (w, op) => if Forgets(w, op, cid) then 1 else 0
  }

  /** How many processes have ended. */
  ghost function Ended(ws: seq<World>, ops: seq<Op>): int
    requires |ws| >= |ops|
  {
    Along(ws, ops, EndsOnce())
  }

  function EndsOnce(): (World, Op) -> int {
    (w, op) => if Ends(op) then 1 else 0
  }

  /** A step starts the executor only for an id without a result, at most three times, and leaves one or forgets it. */
  ghost predicate Tried(w: World, op: Op, w': World, id: Cid) {
    var tries := if IsCall(op) && op.cid == id then op.attempts else 0;
    && tries <= RETRYABLE_LIMIT
    && (tries > 0 ==> !HasResult(w, id) && (HasResult(w', id) || Forgets(w, op, id)))
    && (HasResult(w, id) && !Ends(op) ==> HasResult(w', id) && w'.completed[id] == w.completed[id])
  }

  lemma StepTries(w: World, op: Op, w': World, id: Cid)
    requires Steps(w, op, w')
    ensures Tried(w, op, w', id)
  {
    match op
    case CallService(cid, service, action, agent, f, now, day, attempts) =>
      var r :| Called(w, cid, service, action, agent, f, now, day, w', r, attempts);
    case _ =>
  }

  ghost predicate AllTried(ws: seq<World>, ops: seq<Op>, id: Cid) {
    |ws| == |ops| + 1 && forall i :: 0 <= i < |ops| ==> Tried(ws[i], ops[i], ws[i + 1], id)
  }

  lemma StepsTry(ws: seq<World>, ops: seq<Op>, id: Cid)
    requires Trace(ws, ops)
    ensures AllTried(ws, ops, id)
  {
    forall i | 0 <= i < |ops|
      ensures Tried(ws[i], ops[i], ws[i + 1], id)
    {
      StepTries(ws[i], ops[i], ws[i + 1], id);
    }
  }

  /**
   Over every run that starts with no result for an id: its executor is started at most three times, in one
   call, and three times more for every process that ended with its result or after starting it.
   */
  lemma {:induction false} TriedOncePerProcess(ws: seq<World>, ops: seq<Op>, cid: Cid)
    requires Trace(ws, ops) && !HasResult(ws[0], cid)
    ensures AttemptsFor(ops, cid) <= RETRYABLE_LIMIT * (Forgotten(ws, ops, cid) + if HasResult(ws[|ops|], cid) then 1 else 0)
    ensures Forgotten(ws, ops, cid) <= Ended(ws, ops)
  {
    StepsTry(ws, ops, cid);
    TriesAdd(ws, ops, cid);
    AlongMonotone(ws, ops, ForgetsOnce(cid), EndsOnce());
  }

  lemma {:induction false} TriesAdd(ws: seq<World>, ops: seq<Op>, cid: Cid)
    requires AllTried(ws, ops, cid) && !HasResult(ws[0], cid)
    ensures AttemptsFor(ops, cid) <= RETRYABLE_LIMIT * (Forgotten(ws, ops, cid) + if HasResult(ws[|ops|], cid) then 1 else 0)
    decreases |ops|
  {
    if ops != [] {
      var n := |ops| - 1;
      TriesAdd(ws[..|ops|], ops[..n], cid);
      assert ws[..|ops|][n] == ws[n] && Tried(ws[n], ops[n], ws[n + 1], cid);
    }
  }

  /** Within one process results stay, and an id without one has not been tried in it. */
  lemma {:induction false} OneProcess(ws: seq<World>, ops: seq<Op>, cid: Cid)
    requires AllTried(ws, ops, cid) && forall op :: op in ops ==> !Ends(op)
    ensures HasResult(ws[0], cid) ==> HasResult(ws[|ops|], cid) && ws[|ops|].completed[cid] == ws[0].completed[cid]
    ensures !HasResult(ws[|ops|], cid) ==> AttemptsFor(ops, cid) == 0
    decreases |ops|
  {
    if ops != [] {
      var n := |ops| - 1;
      assert forall op :: op in ops[..n] ==> op in ops;
      OneProcess(ws[..|ops|], ops[..n], cid);
      assert ops[n] in ops && ws[..|ops|][n] == ws[n] && Tried(ws[n], ops[n], ws[n + 1], cid);
    }
  }

  /**
   So where a call starts its executor, every earlier attempt for its id was in an earlier process: k is where
   this one began. That the id is not in the cache, which the call looks up first, is the condition.
   */
  lemma EarlierAttemptsAreForgotten(ws: seq<World>, ops: seq<Op>, k: nat, j: nat)
    requires Trace(ws, ops) && k <= j < |ops| && forall op :: op in ops[k..j] ==> !Ends(op)
    requires IsCall(ops[j]) && ops[j].attempts > 0
    ensures AttemptsFor(ops[k..j], ops[j].cid) == 0
  {
    StepsTry(ws, ops, ops[j].cid);
    assert Tried(ws[j], ops[j], ws[j + 1], ops[j].cid);
    OneProcess(ws[k..j + 1], ops[k..j], ops[j].cid);
  }

  /** What the action's estimator says the call costs. */
  function EstimateOf(w: World, op: Op): nat
    requires IsCall(op)
  {
    if Known(w, op.service, op.action) then w.services[op.service].actions[op.action].estimator(op.facts.args) else 0
  }

  /**
   A call that reached its executor once reaches it again, any time later in any run, iff its id is not in
   the cache then, the rate limit lets it through and its estimate is affordable.
   */
  lemma RunsAgainIff(ws: seq<World>, ops: seq<Op>, i: nat, j: nat, now: real)
    requires Trace(ws, ops) && Healthy(ws[0]) && i < j <= |ops|
    requires IsCall(ops[i]) && Executes(ws[i], ops[i].cid, ops[i].service, ops[i].action, ops[i].facts, ops[i].now)
    ensures Executes(ws[j], ops[i].cid, ops[i].service, ops[i].action, ops[i].facts, now) <==> (
      && !HasResult(ws[j], ops[i].cid) && RateAllows(ws[j], ops[i].service, ops[i].action, now)
      && Money.CanAfford(ws[j].ledger, EstimateOf(ws[i], ops[i])))
  {
    KeptBetween(ws, ops, i, j);
  }

  const APPROVED_CALL := Facts("x", true, true, (k: nat) => Returns, true)

  const ANSWERED := ONE_SERVICE.(completed := map["id" := Ok(1)])

  /** An approved call whose result is in the cache: not run, but run again after a restart, at the same cost. */
  lemma RestartRunsAgain()
    ensures !Executes(ANSWERED, "id", "s", "a", APPROVED_CALL, 0.0)
    ensures Executes(Restarted(ANSWERED, 0.0), "id", "s", "a", APPROVED_CALL, 0.0)
    ensures Answer(Restarted(ANSWERED, 0.0), "id", "s", "a", APPROVED_CALL, 0.0) == Ok(1)
  {
    ApprovedForX();
    ServiceRuns(Restarted(ANSWERED, 0.0), APPROVED_CALL);
  }

  // ------------------------------------------------------------ how often an id is charged

  /** The result in the cache is that of a charged call. */
  predicate PaidFor(w: World, cid: Cid) { HasResult(w, cid) && w.completed[cid].Ok? }

  /** A process dies with the expense booked and no result kept. */
  predicate PaysAndDies(w: World, op: Op) {
    op.DiesInCall? && op.stage == PAID && !UsesUp(w.ledger, EstimateOf(w, op))
  }

  /** A process ends that has charged the id. */
  predicate ForgetsCharge(w: World, op: Op, cid: Cid) {
    Ends(op) && (PaidFor(w, cid) || (PaysAndDies(w, op) && op.cid == cid))
  }

  ghost function ChargesForgotten(ws: seq<World>, ops: seq<Op>, cid: Cid): int
    requires |ws| >= |ops|
  {
    Along(ws, ops, ForgetsChargeOnce(cid))
  }

  function ForgetsChargeOnce(cid: Cid): (World, Op) -> int {
    (w, op) => if ForgetsCharge(w, op, cid) then 1 else 0
  }

  /** The expenses of an id that the cache does not account for. */
  function ChargesBesides(w: World, cid: Cid): int {
    Charges(w.ledger.expenses, cid) - if PaidFor(w, cid) then 1 else 0
  }

  predicate LeavesIdAlone(w: World, op: Op, cid: Cid) {
    op.OnBudget? ==> LeavesId(w.ledger, op.budgetOp, cid)
  }

  lemma CallCharges(w: World, cid: Cid, w': World, r: Result, id: Cid)
    requires Settled(w.ledger, w'.ledger, cid, cid !in w.completed && r.Ok?, OkCost(r))
    requires w'.completed == if cid !in w.completed && Cacheable(r) then w.completed[cid := r] else w.completed
    ensures ChargesBesides(w', id) == ChargesBesides(w, id)
  {
    SettledCharges(w.ledger, w'.ledger, cid, cid !in w.completed && r.Ok?, OkCost(r), id);
  }

  lemma DeathCharges(w: World, op: Op, w': World, id: Cid)
    requires op.DiesInCall? && Steps(w, op, w')
    ensures Charges(w'.ledger.expenses, id) == Charges(w.ledger.expenses, id) + (if PaysAndDies(w, op) && op.cid == id then 1 else 0)
  {
    if op.stage == PAID {
      HoldAndCommit(w.ledger, EstimateOf(w, op), op.cid);
      SettledCharges(w.ledger, w'.ledger, op.cid, !UsesUp(w.ledger, EstimateOf(w, op)), EstimateOf(w, op), id);
    }
  }

  /** A step adds an expense of the id only with its paid result, or where it forgets it. */
  ghost predicate ChargeKept(w: World, op: Op, w': World, id: Cid) {
    ChargesBesides(w', id) == ChargesBesides(w, id) + if ForgetsCharge(w, op, id) then 1 else 0
  }

  lemma StepCharges(w: World, op: Op, w': World, id: Cid)
    requires Steps(w, op, w') && LeavesIdAlone(w, op, id)
    ensures ChargeKept(w, op, w', id)
  {
    match op
    case CallService(cid, service, action, agent, f, now, day, attempts) =>
      var r :| Called(w, cid, service, action, agent, f, now, day, w', r, attempts);
      CallCharges(w, cid, w', r, id);
    case DiesInCall(_, _, _, _, _, _, _, _, _, _) => DeathCharges(w, op, w', id);
    case OnBudget(bop) => BudgetLeavesCharges(w.ledger, bop, id);
    case _ =>
  }

  /**
   Over every run in which nobody else books in the name of an id: it is charged exactly once for its
   cached result, if that is a paid one, and once for every process that ended having charged it.
   */
  lemma {:induction false} ChargedOncePerProcess(ws: seq<World>, ops: seq<Op>, cid: Cid)
    requires Trace(ws, ops) && forall i :: 0 <= i < |ops| ==> LeavesIdAlone(ws[i], ops[i], cid)
    ensures ChargesBesides(ws[|ops|], cid) == ChargesBesides(ws[0], cid) + ChargesForgotten(ws, ops, cid)
    ensures ChargesForgotten(ws, ops, cid) <= Ended(ws, ops)
  {
    forall i | 0 <= i < |ops|
      ensures ChargeKept(ws[i], ops[i], ws[i + 1], cid)
    {
      StepCharges(ws[i], ops[i], ws[i + 1], cid);
    }
    AddsUp(ws, ops, (w: World) => ChargesBesides(w, cid), ForgetsChargeOnce(cid));
    AlongMonotone(ws, ops, ForgetsChargeOnce(cid), EndsOnce());
  }

  // ------------------------------------------------------------ money over a run

  function Costs(completed: map<Cid, Result>): map<Cid, nat> {
    map cid | cid in completed :: OkCost(completed[cid])
  }

  /** What the results in the cache have cost. */
  ghost function Cached(w: World): int { Total(Costs(w.completed)) }

  /** What a process that ends here has spent: the costs of its results, and of the call it dies in. */
  ghost function SpentBy(w: World, op: Op): int {
    if !Ends(op) then 0 else Cached(w) + if PaysAndDies(w, op) then EstimateOf(w, op) else 0
  }

  /** The reservation that a process leaves open when it dies in a call with money held. */
  function LeftOpen(w: World, op: Op): set<nat> {
    if op.DiesInCall? && op.stage == HELD then {|w.ledger.reservations|} else {}
  }

  /**
   While only the gateway moves money, what is spent is the sum of the cached costs, each id once, and of what
   the processes that ended had spent; and the open reservations are those there were at the start and one for
   each process that died with money held.
   */
  lemma {:induction false} SpentIsAccounted(ws: seq<World>, ops: seq<Op>)
    requires Trace(ws, ops) && forall op :: op in ops ==> !op.OnBudget?
    ensures Money.Spent(ws[|ops|].ledger) - Cached(ws[|ops|])
         == Money.Spent(ws[0].ledger) - Cached(ws[0]) + Along(ws, ops, SpentBy)
    ensures OpenIds(ws[|ops|].ledger) == OpenIds(ws[0].ledger) + UnionAlong(ws, ops, LeftOpen)
  {
    forall i | 0 <= i < |ops|
      ensures SpendingKept(ws[i], ops[i], ws[i + 1]) && OpenKept(ws[i], ops[i], ws[i + 1])
    {
      assert ops[i] in ops;
      StepConserves(ws[i], ops[i], ws[i + 1]);
    }
    AddsUp(ws, ops, (w: World) => Money.Spent(w.ledger) - Cached(w), SpentBy);
    UnitesUp(ws, ops, (w: World) => OpenIds(w.ledger), LeftOpen);
  }

  /** A step spends what it caches or forgets. */
  ghost predicate SpendingKept(w: World, op: Op, w': World) {
    Money.Spent(w'.ledger) - Cached(w') == Money.Spent(w.ledger) - Cached(w) + SpentBy(w, op)
  }

  /** A step leaves open what it dies holding, and nothing else. */
  ghost predicate OpenKept(w: World, op: Op, w': World) {
    OpenIds(w'.ledger) == OpenIds(w.ledger) + LeftOpen(w, op)
  }

  lemma StepConserves(w: World, op: Op, w': World)
    requires Steps(w, op, w') && !op.OnBudget?
    ensures SpendingKept(w, op, w') && OpenKept(w, op, w')
  {
    match op
    case CallService(cid, service, action, agent, f, now, day, attempts) =>
      var r :| Called(w, cid, service, action, agent, f, now, day, w', r, attempts);
      CallConserves(w, cid, w', r);
    case DiesInCall(_, _, _, _, _, _, _, _, _, _) => DeathConserves(w, op, w');
    case _ =>
  }

  lemma DeathConserves(w: World, op: Op, w': World)
    requires op.DiesInCall? && Steps(w, op, w')
    ensures Money.Spent(w'.ledger) - Cached(w') == Money.Spent(w.ledger) - Cached(w) + SpentBy(w, op)
    ensures OpenIds(w'.ledger) == OpenIds(w.ledger) + LeftOpen(w, op)
  {
    DeathLedger(w, op, w');
    assert Costs(w'.completed) == map[];
  }

  lemma DeathLedger(w: World, op: Op, w': World)
    requires op.DiesInCall? && Steps(w, op, w')
    ensures w'.completed == map[]
    ensures Money.Spent(w'.ledger) == Money.Spent(w.ledger) + if PaysAndDies(w, op) then EstimateOf(w, op) else 0
    ensures OpenIds(w'.ledger) == OpenIds(w.ledger) + LeftOpen(w, op)
  {
    if op.stage != ASKED {
      HoldAndDie(w.ledger, EstimateOf(w, op), op.cid);
      HoldAndCommit(w.ledger, EstimateOf(w, op), op.cid);
    }
  }

  lemma CallConserves(w: World, cid: Cid, w': World, r: Result)
    requires Settled(w.ledger, w'.ledger, cid, cid !in w.completed && r.Ok?, OkCost(r))
    requires w'.completed == if cid !in w.completed && Cacheable(r) then w.completed[cid := r] else w.completed
    ensures Money.Spent(w'.ledger) - Cached(w') == Money.Spent(w.ledger) - Cached(w)
    ensures OpenIds(w'.ledger) == OpenIds(w.ledger)
  {
    if cid !in w.completed {
      CachedCost(w.completed, cid, r);
    }
  }

  lemma CachedCost(completed: map<Cid, Result>, cid: Cid, result: Result)
    requires cid !in completed
    ensures Total(Costs(completed[cid := result])) == Total(Costs(completed)) + OkCost(result)
  {
    TotalUpdate(Costs(completed), cid, OkCost(result));
    assert Costs(completed[cid := result]) == Costs(completed)[cid := OkCost(result)];
  }
}
