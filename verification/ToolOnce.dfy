/**
 How often the tool pipeline runs and charges an id, and where the money goes, over runs in which processes
 end. The result cache is a process's own (modules/tools/service.py:113-114); expenses, reservations,
 approvals and events outlive it.
 */
module ToolOnce {
  import opened Common
  import opened Holds
  import opened Tools
  import opened ToolRuns
  import Money
  import A = Approvals

  // ------------------------------------------------------------ how often an id runs

  /** How often the executor was started for an id. */
  function Runs(log: seq<Event>, cid: Cid): nat {
    if log == [] then 0
    else Runs(log[..|log| - 1], cid) + (if log[|log| - 1].ToolCalled? && log[|log| - 1].cid == cid then 1 else 0)
  }

  lemma RunsSnoc(log: seq<Event>, e: Event, cid: Cid)
    ensures Runs(log + [e], cid) == Runs(log, cid) + (if e.ToolCalled? && e.cid == cid then 1 else 0)
  {
    assert (log + [e])[..|log|] == log;
  }

  lemma RunsSnocTwo(log: seq<Event>, d: Event, e: Event, cid: Cid)
    requires d.ToolCalled? && e.ToolFinished?
    ensures Runs(log + [d, e], cid) == Runs(log, cid) + (if d.cid == cid then 1 else 0)
  {
    RunsSnoc(log, d, cid);
    RunsSnoc(log + [d], e, cid);
    assert log + [d] + [e] == log + [d, e];
  }

  predicate Known(w: World, cid: Cid) { cid in w.completed }

  /** A process ends that has a result for the id, or that has started its executor. */
  predicate Forgets(w: World, op: Op, cid: Cid) {
    Ends(op) && (Known(w, cid) || (op.DiesInCall? && op.cid == cid && (op.stage == STARTED || op.stage == PAID)))
  }

  /** How often that happens in a run. */
  ghost function Forgotten(ws: seq<World>, ops: seq<Op>, cid: Cid): int
    requires |ws| >= |ops|
  {
    Along(ws, ops, ForgetsOnce(cid))
  }

  function ForgetsOnce(cid: Cid): (World, Op) -> int {
    (w, op) => if Forgets(w, op, cid) then 1 else 0
  }

  /** How many processes have ended. */
  ghost function Ended(ws: seq<World>, ops: seq<Op>): int
    requires |ws| >= |ops|
  {
    Along(ws, ops, EndsOnce())
  }

  function EndsOnce(): (World, Op) -> int {
    (w, op) => if Ends(op) then 1 else 0
  }

  /** The runs of an id beyond the one that the cache accounts for. */
  function Extra(w: World, cid: Cid): int {
    Runs(w.log, cid) - if Known(w, cid) then 1 else 0
  }

  /** One uncached call with a result, seen through its events and the cache alone. */
  lemma FreshRun(w: World, cid: Cid, tool: string, args: string, w': World, r: ToolResult, ran: bool, id: Cid)
    requires cid !in w.completed
    requires w'.completed == if r == Failed(PendingApproval) then w.completed else w.completed[cid := r]
    requires w'.log == w.log + (if ran then [ToolCalled(cid, tool, args), ToolFinished(cid, r.Ok?)] else [ToolDenied(cid)])
    requires ran ==> r != Failed(PendingApproval)
    ensures Runs(w.log, id) <= Runs(w'.log, id) && Extra(w', id) <= Extra(w, id)
  {
    if ran {
      RunsSnocTwo(w.log, ToolCalled(cid, tool, args), ToolFinished(cid, r.Ok?), id);
    } else {
      RunsSnoc(w.log, ToolDenied(cid), id);
    }
  }

  lemma InvokeRuns(w: World, cid: Cid, tool: string, agent: string, f: Facts, now: int,
      w': World, r: Option<ToolResult>, id: Cid)
    requires Invoked(w, cid, tool, agent, f, now, w', r)
    ensures Runs(w.log, id) <= Runs(w'.log, id) && Extra(w', id) <= Extra(w, id)
    ensures Known(w, id) ==> Known(w', id) && w'.completed[id] == w.completed[id]
  {
    if cid !in w.completed && r.Some? {
      FreshRun(w, cid, tool, f.args, w', r.value, Executes(w, cid, tool, f), id);
    }
  }

  /** A step adds a run of an id only with its result, or where it forgets it; results stay while the process lives. */
  ghost predicate Counted(w: World, op: Op, w': World, id: Cid) {
    && Runs(w.log, id) <= Runs(w'.log, id)
    && Extra(w', id) <= Extra(w, id) + (if Forgets(w, op, id) then 1 else 0)
    && (!Ends(op) && Known(w, id) ==> Known(w', id) && w'.completed[id] == w.completed[id])
  }

  lemma StepRuns(w: World, op: Op, w': World, id: Cid)
    requires Steps(w, op, w')
    ensures Counted(w, op, w', id)
  {
    match op
    case CallTool(cid, tool, agent, f, now) =>
      var r :| Invoked(w, cid, tool, agent, f, now, w', r);
      InvokeRuns(w, cid, tool, agent, f, now, w', r, id);
    case DiesInCall(cid, tool, agent, f, now, stage) => RunsSnoc(w.log, ToolCalled(cid, tool, f.args), id);
    case _ =>
  }

  ghost predicate AllCounted(ws: seq<World>, ops: seq<Op>, id: Cid) {
    |ws| == |ops| + 1 && forall i :: 0 <= i < |ops| ==> Counted(ws[i], ops[i], ws[i + 1], id)
  }

  lemma StepsRun(ws: seq<World>, ops: seq<Op>, id: Cid)
    requires Trace(ws, ops)
    ensures AllCounted(ws, ops, id)
  {
    forall i | 0 <= i < |ops|
      ensures Counted(ws[i], ops[i], ws[i + 1], id)
    {
      StepRuns(ws[i], ops[i], ws[i + 1], id);
    }
  }

  /**
   Over every run that starts with the id not called: its executor runs at most once, and once more for
   every process that ended with its result or after starting it. At most once in all if no process ends.
   */
  lemma {:induction false} RunsOncePerProcess(ws: seq<World>, ops: seq<Op>, cid: Cid)
    requires Trace(ws, ops) && Runs(ws[0].log, cid) == 0
    ensures Runs(ws[|ops|].log, cid) <= Forgotten(ws, ops, cid) + if Known(ws[|ops|], cid) then 1 else 0
    ensures Forgotten(ws, ops, cid) <= Ended(ws, ops)
  {
    StepsRun(ws, ops, cid);
    AddsUp(ws, ops, (w: World) => Extra(w, cid), ForgetsOnce(cid));
    AlongMonotone(ws, ops, ForgetsOnce(cid), EndsOnce());
  }

  /** Within one process results stay, and an id without one has not run in it. */
  lemma {:induction false} OneProcess(ws: seq<World>, ops: seq<Op>, cid: Cid)
    requires AllCounted(ws, ops, cid) && forall op :: op in ops ==> !Ends(op)
    ensures Known(ws[0], cid) ==> Known(ws[|ops|], cid) && ws[|ops|].completed[cid] == ws[0].completed[cid]
    ensures !Known(ws[|ops|], cid) ==> Runs(ws[|ops|].log, cid) == Runs(ws[0].log, cid)
    decreases |ops|
  {
    if ops != [] {
      var n := |ops| - 1;
      assert forall op :: op in ops[..n] ==> op in ops;
      OneProcess(ws[..|ops|], ops[..n], cid);
      assert ops[n] in ops && ws[..|ops|][n] == ws[n] && Counted(ws[n], ops[n], ws[n + 1], cid);
    }
  }

  /**
   So where a call runs, every earlier run of its id was in an earlier process: k is where this one began.
   That the id is not in the cache, which the call looks up first, is the condition.
   */
  lemma EarlierRunsAreForgotten(ws: seq<World>, ops: seq<Op>, k: nat, j: nat)
    requires Trace(ws, ops) && k <= j < |ops| && forall op :: op in ops[k..j] ==> !Ends(op)
    requires IsCall(ops[j]) && Executes(ws[j], ops[j].cid, ops[j].tool, ops[j].facts)
    ensures Runs(ws[j].log, ops[j].cid) == Runs(ws[k].log, ops[j].cid)
  {
    StepsRun(ws[k..j + 1], ops[k..j], ops[j].cid);
    OneProcess(ws[k..j + 1], ops[k..j], ops[j].cid);
  }

  // ------------------------------------------------------------ how often an id is charged

  /** The result in the cache is that of a charged execution. */
  predicate PaidFor(w: World, cid: Cid) { Known(w, cid) && w.completed[cid].Ok? }

  /** A process dies with the expense booked and no result kept. */
  predicate PaysAndDies(w: World, op: Op) {
    op.DiesInCall? && op.stage == PAID && !UsesUp(w.ledger, EstimateOf(w.defs, op.tool, op.facts.args))
  }

  /** A process ends that has charged the id. */
  predicate ForgetsCharge(w: World, op: Op, cid: Cid) {
    Ends(op) && (PaidFor(w, cid) || (PaysAndDies(w, op) && op.cid == cid))
  }

  ghost function ChargesForgotten(ws: seq<World>, ops: seq<Op>, cid: Cid): int
    requires |ws| >= |ops|
  {
    Along(ws, ops, ForgetsChargeOnce(cid))
  }

  function ForgetsChargeOnce(cid: Cid): (World, Op) -> int {
    (w, op) => if ForgetsCharge(w, op, cid) then 1 else 0
  }

  /** The expenses of an id that the cache does not account for. */
  function ChargesBesides(w: World, cid: Cid): int {
    Charges(w.ledger.expenses, cid) - if PaidFor(w, cid) then 1 else 0
  }

  predicate LeavesIdAlone(w: World, op: Op, cid: Cid) {
    op.OnBudget? ==> LeavesId(w.ledger, op.budgetOp, cid)
  }

  lemma InvokeCharges(w: World, cid: Cid, w': World, r: Option<ToolResult>, id: Cid)
    requires Settled(w.ledger, w'.ledger, cid, cid !in w.completed && r.Some? && r.value.Ok?, OkCost(r))
    requires cid in w.completed ==> w' == w
    requires w'.completed == (if r.None? || r == Some(Failed(PendingApproval)) then w.completed else w.completed[cid := r.value])
    ensures ChargesBesides(w', id) == ChargesBesides(w, id)
  {
    SettledCharges(w.ledger, w'.ledger, cid, cid !in w.completed && r.Some? && r.value.Ok?, OkCost(r), id);
  }

  lemma DeathCharges(w: World, op: Op, w': World, id: Cid)
    requires op.DiesInCall? && Steps(w, op, w')
    ensures Charges(w'.ledger.expenses, id) == Charges(w.ledger.expenses, id) + (if PaysAndDies(w, op) && op.cid == id then 1 else 0)
  {
    var estimate := EstimateOf(w.defs, op.tool, op.facts.args);
    if op.stage == PAID {
      HoldAndCommit(w.ledger, estimate, op.cid);
      SettledCharges(w.ledger, w'.ledger, op.cid, !UsesUp(w.ledger, estimate), estimate, id);
    }
  }

  /** A step adds an expense of the id only with its paid result, or where it forgets it. */
  ghost predicate ChargeKept(w: World, op: Op, w': World, id: Cid) {
    ChargesBesides(w', id) == ChargesBesides(w, id) + if ForgetsCharge(w, op, id) then 1 else 0
  }

  lemma StepCharges(w: World, op: Op, w': World, id: Cid)
    requires Steps(w, op, w') && LeavesIdAlone(w, op, id)
    ensures ChargeKept(w, op, w', id)
  {
    match op
    case CallTool(cid, tool, agent, f, now) =>
      var r :| Invoked(w, cid, tool, agent, f, now, w', r);
      InvokeCharges(w, cid, w', r, id);
    case DiesInCall(_, _, _, _, _, _) => DeathCharges(w, op, w', id);
    case OnBudget(bop) => BudgetLeavesCharges(w.ledger, bop, id);
    case _ =>
  }

  /**
   Over every run in which nobody else books in the name of an id: it is charged exactly once for its
   cached result, if that is a paid one, and once for every process that ended having charged it.
   */
  lemma {:induction false} ChargedOncePerProcess(ws: seq<World>, ops: seq<Op>, cid: Cid)
    requires Trace(ws, ops) && forall i :: 0 <= i < |ops| ==> LeavesIdAlone(ws[i], ops[i], cid)
    ensures ChargesBesides(ws[|ops|], cid) == ChargesBesides(ws[0], cid) + ChargesForgotten(ws, ops, cid)
    ensures ChargesForgotten(ws, ops, cid) <= Ended(ws, ops)
  {
    forall i | 0 <= i < |ops|
      ensures ChargeKept(ws[i], ops[i], ws[i + 1], cid)
    {
      StepCharges(ws[i], ops[i], ws[i + 1], cid);
    }
    AddsUp(ws, ops, (w: World) => ChargesBesides(w, cid), ForgetsChargeOnce(cid));
    AlongMonotone(ws, ops, ForgetsChargeOnce(cid), EndsOnce());
  }

  // ------------------------------------------------------------ the same call in the next process

  /**
   A call that ran once runs again, any time later in any run, iff its id is not in the cache then and its
   estimate is affordable: registry, gates and approval do not stand in its way again.
   */
  lemma RunsAgainIff(ws: seq<World>, ops: seq<Op>, i: nat, j: nat)
    requires Trace(ws, ops) && Safe(ws[0]) && i < j < |ops|
    requires IsCall(ops[i]) && Executes(ws[i], ops[i].cid, ops[i].tool, ops[i].facts)
    requires IsCall(ops[j]) && ops[j].cid == ops[i].cid && ops[j].tool == ops[i].tool && ops[j].facts == ops[i].facts
    ensures Executes(ws[j], ops[j].cid, ops[j].tool, ops[j].facts) <==> (
      && !Known(ws[j], ops[j].cid)
      && Money.CanAfford(ws[j].ledger, EstimateOf(ws[i].defs, ops[i].tool, ops[i].facts.args)))
  {
    KeptBetween(ws, ops, i, j);
  }

  /** An ungated call that goes through, and what it leaves. */
  lemma GoesThrough(w: World, cid: Cid, tool: string, agent: string, f: Facts, now: int) returns (w': World)
    requires Money.LedgerOk(w.ledger) && A.QueueOk(w.queue) && Succeeds(w, cid, tool, f) && !Gated(w, tool)
    ensures Invoked(w, cid, tool, agent, f, now, w', Some(Ok(EstimateOf(w.defs, tool, f.args))))
    ensures w'.ledger.total == w.ledger.total
    ensures Money.Used(w'.ledger) == Money.Used(w.ledger) + EstimateOf(w.defs, tool, f.args)
    ensures w'.ledger.blocked <==> Money.Band(Money.Used(w'.ledger), w'.ledger.total) == Money.BLOCKED_PCT
  {
    var estimate := EstimateOf(w.defs, tool, f.args);
    HoldAndCommit(w.ledger, estimate, cid);
    HoldKeepsOk(w.ledger, estimate, cid);
    w' := w.(ledger := Money.Commit(Money.Reserve(w.ledger, estimate, cid), |w.ledger.reservations|, estimate),
             completed := w.completed[cid := Ok(estimate)],
             log := w.log + [ToolCalled(cid, tool, f.args), ToolFinished(cid, true)]);
  }

  lemma GoesThroughCounts(w: World, cid: Cid, tool: string, agent: string, f: Facts, now: int, w': World)
    requires Invoked(w, cid, tool, agent, f, now, w', Some(Ok(EstimateOf(w.defs, tool, f.args)))) && Executes(w, cid, tool, f)
    ensures Runs(w'.log, cid) == Runs(w.log, cid) + 1
    ensures Charges(w'.ledger.expenses, cid) == Charges(w.ledger.expenses, cid) + 1
  {
    RunsSnocTwo(w.log, ToolCalled(cid, tool, f.args), ToolFinished(cid, true), cid);
    SettledCharges(w.ledger, w'.ledger, cid, true, EstimateOf(w.defs, tool, f.args), cid);
  }

  lemma TwoCalls(w: World, call: Op, w1: World, w2: World)
    requires Steps(w, call, w1) && Steps(Restarted(w1), call, w2)
    ensures Trace([w, w1, Restarted(w1), w2], [call, Restart, call])
  {
    var ws, ops := [w, w1, Restarted(w1), w2], [call, Restart, call];
    assert Steps(ws[0], ops[0], ws[1]) && Steps(ws[1], ops[1], ws[2]) && Steps(ws[2], ops[2], ws[3]);
  }

  /** An ungated call, a restart and the same call again, where the budget has room for both: run and charged twice. */
  lemma CalledAgain(w: World, cid: Cid, tool: string, agent: string, f: Facts, now: int) returns (ws: seq<World>)
    requires Money.LedgerOk(w.ledger) && A.QueueOk(w.queue) && Executes(w, cid, tool, f) && f.outcome == Returns && !Gated(w, tool)
    requires Money.Used(w.ledger) + 2 * EstimateOf(w.defs, tool, f.args) < w.ledger.total
    ensures
      var call := CallTool(cid, tool, agent, f, now);
      Trace(ws, [call, Restart, call]) && ws[0] == w
    ensures Runs(ws[3].log, cid) == Runs(w.log, cid) + 2
    ensures Charges(ws[3].ledger.expenses, cid) == Charges(w.ledger.expenses, cid) + 2
  {
    var w1 := GoesThrough(w, cid, tool, agent, f, now);
    GoesThroughCounts(w, cid, tool, agent, f, now, w1);
    var w' := Restarted(w1);
    var w2 := GoesThrough(w', cid, tool, agent, f, now);
    GoesThroughCounts(w', cid, tool, agent, f, now, w2);
    TwoCalls(w, CallTool(cid, tool, agent, f, now), w1, w2);
    ws := [w, w1, w', w2];
  }

  const ANY_CALL := Facts("x", true, true, true, true, true, Returns)

  /** 100 units, and a tool that costs 1 and needs no approval. */
  const ONE_TOOL := World(map["a" := ToolDef(NoApproval, args => 1)], map[], [], Money.SetTotal(Money.FRESH, 100), A.NO_APPROVALS)

  lemma OneToolRuns()
    ensures Money.LedgerOk(ONE_TOOL.ledger) && A.QueueOk(ONE_TOOL.queue) && Executes(ONE_TOOL, "id", "a", ANY_CALL)
    ensures ANY_CALL.outcome == Returns && !Gated(ONE_TOOL, "a") && EstimateOf(ONE_TOOL.defs, "a", ANY_CALL.args) == 1
    ensures Money.Used(ONE_TOOL.ledger) == 0 && ONE_TOOL.ledger.total == 100
    ensures Runs(ONE_TOOL.log, "id") == 0 && Charges(ONE_TOOL.ledger.expenses, "id") == 0
  {
    Money.StepKeepsOk(Money.FRESH, Money.OpSetTotal(100));
  }

  /** Called, restarted and called again with the same id: run twice and charged twice. */
  lemma ChargedTwice() returns (ws: seq<World>)
    ensures
      var call := CallTool("id", "a", "agent", ANY_CALL, 0);
      Trace(ws, [call, Restart, call]) && ws[0] == ONE_TOOL
    ensures Runs(ws[3].log, "id") == 2 && Charges(ws[3].ledger.expenses, "id") == 2
  {
    OneToolRuns();
    ws := CalledAgain(ONE_TOOL, "id", "a", "agent", ANY_CALL, 0);
  }

  // ------------------------------------------------------------ money over a run

  function Costs(completed: map<Cid, ToolResult>): map<Cid, nat> {
    map cid | cid in completed :: OkCost(Some(completed[cid]))
  }

  /** What the results in the cache have cost. */
  ghost function Cached(w: World): int { Total(Costs(w.completed)) }

  /** What a process that ends here has spent: the costs of its results, and of the call it dies in. */
  ghost function SpentBy(w: World, op: Op): int {
    if !Ends(op) then 0
    else Cached(w) + if PaysAndDies(w, op) then EstimateOf(w.defs, op.tool, op.facts.args) else 0
  }

  /** The reservation that a process leaves open when it dies in a call before the commit. */
  function LeftOpen(w: World, op: Op): set<nat> {
    if op.DiesInCall? && op.stage != PAID then {|w.ledger.reservations|} else {}
  }

  /**
   While only the pipeline moves money, what is spent is exactly the sum of the costs in the result cache,
   every id counted once, and of what the processes that ended had spent; and the open reservations are those
   there were at the start and one for each process that died in a call before its commit.
   */
  lemma {:induction false} SpentIsAccounted(ws: seq<World>, ops: seq<Op>)
    requires Trace(ws, ops) && forall op :: op in ops ==> !op.OnBudget?
    ensures Money.Spent(ws[|ops|].ledger) - Cached(ws[|ops|])
         == Money.Spent(ws[0].ledger) - Cached(ws[0]) + Along(ws, ops, SpentBy)
    ensures OpenIds(ws[|ops|].ledger) == OpenIds(ws[0].ledger) + UnionAlong(ws, ops, LeftOpen)
  {
    forall i | 0 <= i < |ops|
      ensures SpendingKept(ws[i], ops[i], ws[i + 1]) && OpenKept(ws[i], ops[i], ws[i + 1])
    {
      assert ops[i] in ops;
      StepConserves(ws[i], ops[i], ws[i + 1]);
    }
    AddsUp(ws, ops, (w: World) => Money.Spent(w.ledger) - Cached(w), SpentBy);
    UnitesUp(ws, ops, (w: World) => OpenIds(w.ledger), LeftOpen);
  }

  /** A step spends what it caches or forgets. */
  ghost predicate SpendingKept(w: World, op: Op, w': World) {
    Money.Spent(w'.ledger) - Cached(w') == Money.Spent(w.ledger) - Cached(w) + SpentBy(w, op)
  }

  /** A step leaves open what it dies holding, and nothing else. */
  ghost predicate OpenKept(w: World, op: Op, w': World) {
    OpenIds(w'.ledger) == OpenIds(w.ledger) + LeftOpen(w, op)
  }

  lemma StepConserves(w: World, op: Op, w': World)
    requires Steps(w, op, w') && !op.OnBudget?
    ensures SpendingKept(w, op, w') && OpenKept(w, op, w')
  {
    match op
    case CallTool(cid, tool, agent, f, now) =>
      var r :| Invoked(w, cid, tool, agent, f, now, w', r);
      InvokeConserves(w, cid, w', r);
    case DiesInCall(_, _, _, _, _, _) => DeathConserves(w, op, w');
    case _ =>
  }

  lemma DeathConserves(w: World, op: Op, w': World)
    requires op.DiesInCall? && Steps(w, op, w')
    ensures Money.Spent(w'.ledger) - Cached(w') == Money.Spent(w.ledger) - Cached(w) + SpentBy(w, op)
    ensures OpenIds(w'.ledger) == OpenIds(w.ledger) + LeftOpen(w, op)
  {
    DeathLedger(w, op, w');
    assert Costs(w'.completed) == map[];
  }

  lemma DeathLedger(w: World, op: Op, w': World)
    requires op.DiesInCall? && Steps(w, op, w')
    ensures w'.completed == map[]
    ensures Money.Spent(w'.ledger) == Money.Spent(w.ledger) + if PaysAndDies(w, op) then EstimateOf(w.defs, op.tool, op.facts.args) else 0
    ensures OpenIds(w'.ledger) == OpenIds(w.ledger) + LeftOpen(w, op)
  {
    HoldAndDie(w.ledger, EstimateOf(w.defs, op.tool, op.facts.args), op.cid);
    HoldAndCommit(w.ledger, EstimateOf(w.defs, op.tool, op.facts.args), op.cid);
  }

  lemma InvokeConserves(w: World, cid: Cid, w': World, r: Option<ToolResult>)
    requires Settled(w.ledger, w'.ledger, cid, cid !in w.completed && r.Some? && r.value.Ok?, OkCost(r))
    requires cid in w.completed ==> w' == w
    requires w'.completed == (if r.None? || r == Some(Failed(PendingApproval)) then w.completed else w.completed[cid := r.value])
    ensures Money.Spent(w'.ledger) - Cached(w') == Money.Spent(w.ledger) - Cached(w)
    ensures OpenIds(w'.ledger) == OpenIds(w.ledger)
  {
    if cid !in w.completed && r.Some? {
      CachedCost(w.completed, cid, r.value);
    }
  }

  lemma CachedCost(completed: map<Cid, ToolResult>, cid: Cid, result: ToolResult)
    requires cid !in completed
    ensures Total(Costs(completed[cid := result])) == Total(Costs(completed)) + OkCost(Some(result))
  {
    TotalUpdate(Costs(completed), cid, OkCost(Some(result)));
    assert Costs(completed[cid := result]) == Costs(completed)[cid := OkCost(Some(result))];
  }
}
