/**
 What a tool call comes to, told from registry, budget and approvals alone, and what becomes of refused ids over
 every run (modules/tools/service.py).
 */
module ToolOutcomes {
  import opened Common
  import opened Tools
  import opened ToolRuns
  import Money
  import M = MoneyOutcomes
  import Holds
  import A = Approvals
  import Told = ApprovalOutcomes

  // ------------------------------------------------------------ one call

  predicate NeedsApproval(w: World, tool: string) {
    tool in w.defs && w.defs[tool].need in {NeedsExpense, NeedsExternal}
  }

  /** All gates but the approval are open. */
  predicate GatesOpen(w: World, cid: Cid, tool: string, f: Facts) {
    && cid !in w.completed && tool in w.defs
    && f.agentKnown && f.agentActive && f.roleAllowed && f.argsValid && f.permitted
    && M.HasRoom(w.ledger, w.defs[tool].estimator(f.args))
  }

  /** The executor is reached iff every gate is open and the request, where one is needed, stands approved. */
  lemma ExecutesIff(w: World, cid: Cid, tool: string, f: Facts)
    ensures Executes(w, cid, tool, f) <==> GatesOpen(w, cid, tool, f) && (NeedsApproval(w, tool) ==> Told.Stands(w.queue, cid, A.APPROVED))
  {
  }

  /** Every answer to an uncached call is true: of a failure the gate it names is closed, of a success all were open. */
  lemma AnswerHolds(w: World, cid: Cid, tool: string, f: Facts)
    requires cid !in w.completed
    ensures
      var estimate := if tool in w.defs then w.defs[tool].estimator(f.args) else 0;
      match Answer(w, cid, tool, f)
      case None => tool in w.defs && !f.agentKnown
      case Some(Ok(cost)) =>
        Executes(w, cid, tool, f) && f.outcome == Returns && cost == estimate
        && !(w.ledger.total > 0 && Money.Spent(w.ledger) + Money.Reserved(w.ledger) + estimate == w.ledger.total)
      case Some(Failed(UnknownTool)) => tool !in w.defs
      case Some(Failed(AgentNotActive)) => f.agentKnown && !f.agentActive
      case Some(Failed(RoleNotAllowed)) => !f.roleAllowed
      case Some(Failed(ArgsInvalid)) => !f.argsValid
      case Some(Failed(PermissionDenied)) => !f.permitted
      case Some(Failed(OverBudget)) => !M.HasRoom(w.ledger, estimate)
      case Some(Failed(PendingApproval)) => NeedsApproval(w, tool) && (cid !in w.queue.rows || Told.Stands(w.queue, cid, A.PENDING))
      case Some(Failed(ApprovalDenied)) => NeedsApproval(w, tool) && Told.Refused(w.queue, cid)
      case Some(Failed(ToolFailed)) => Executes(w, cid, tool, f) && f.outcome == RaisesToolError
      case Some(Failed(ExecutorFailed)) => Executes(w, cid, tool, f) && f.outcome in {RaisesOther, ReturnsWrongType}
      case Some(Failed(CommitFailed)) =>
        Executes(w, cid, tool, f) && f.outcome == Returns
        && w.ledger.total > 0 && Money.Spent(w.ledger) + Money.Reserved(w.ledger) + estimate == w.ledger.total
  {
  }

  /** A cached id is answered as before and leaves everything as it is. */
  lemma CachedAnswers(w: World, cid: Cid, tool: string, agent: string, f: Facts, now: int, w': World, r: Option<ToolResult>)
    requires Invoked(w, cid, tool, agent, f, now, w', r) && cid in w.completed
    ensures w' == w && r == Some(w.completed[cid])
  {
  }

  /**
   What an uncached call leaves in cache and log: a run is announced with its arguments and finished as it ended,
   anything else is announced as denied; whatever it answers is cached, but for a pending approval. A success leaves
   one expense of its cost under the id, and no call leaves money held. An unknown agent leaves nothing.
   */
  lemma InvokedLeaves(w: World, cid: Cid, tool: string, agent: string, f: Facts, now: int, w': World, r: Option<ToolResult>)
    requires Invoked(w, cid, tool, agent, f, now, w', r) && cid !in w.completed
    ensures r == None ==> w'.completed == w.completed && w'.log == w.log
    ensures r == Some(Failed(PendingApproval)) ==> w'.completed == w.completed && w'.log == w.log + [ToolDenied(cid)]
    ensures r.Some? && r != Some(Failed(PendingApproval)) ==> w'.completed == w.completed[cid := r.value]
    ensures r.Some? && Executes(w, cid, tool, f) ==>
              w'.log == w.log + [ToolCalled(cid, tool, f.args), ToolFinished(cid, r.value.Ok?)]
    ensures r.Some? && !Executes(w, cid, tool, f) ==> w'.log == w.log + [ToolDenied(cid)]
    ensures
      w'.ledger.expenses == w.ledger.expenses
        + (if r.Some? && r.value.Ok? then [Money.Expense(r.value.cost, "other", Money.ForReservation(cid))] else [])
    ensures Money.Reserved(w'.ledger) == Money.Reserved(w.ledger) && w'.ledger.total == w.ledger.total
  {
  }

  /**
   A call whose gates are open puts a request iff its tool needs one and its id has none: to the board, for the
   agent, with tool and arguments, as an expense or an external action as the tool says. Nothing else is put.
   */
  lemma InvokedAsks(w: World, cid: Cid, tool: string, agent: string, f: Facts, now: int, w': World, r: Option<ToolResult>)
    requires Invoked(w, cid, tool, agent, f, now, w', r)
    ensures w'.queue != w.queue <==> GatesOpen(w, cid, tool, f) && NeedsApproval(w, tool) && cid !in w.queue.rows
    ensures w'.queue != w.queue ==>
              && w'.queue.rows.Keys == w.queue.rows.Keys + {cid} && (forall x :: x in w.queue.rows ==> w'.queue.rows[x] == w.queue.rows[x])
              && w'.queue.log == w.queue.log + [A.ApprovalRequested(cid)]
              && var row := w'.queue.rows[cid];
              && row.kind == (if w.defs[tool].need == NeedsExpense then A.EXPENSE else A.EXTERNAL_ACTION)
              && row.requester == agent && row.subject == A.Subject([tool], f.args) && row.target == A.BOARD
              && row.status == A.PENDING && row.requireSecurity && row.securityDecision == None && row.expiresAt == now + 86400
  {
  }

  /**
   What a process leaves that dies in the middle of a call. The estimate is held, or paid once the executor has
   returned, unless the hold had used up a positive total exactly: then it is let go of. From the approval on the
   request is there, from the start of the executor on the log tells of it. Nothing is cached.
   */
  lemma DeathLeaves(w: World, cid: Cid, tool: string, agent: string, f: Facts, now: int, stage: Stage)
    requires stage in Trail(w, cid, tool, agent, f, now)
    ensures GatesOpen(w, cid, tool, f)
    ensures
      var w', estimate := Trail(w, cid, tool, agent, f, now)[stage], w.defs[tool].estimator(f.args);
      var exhausts := w.ledger.total > 0 && Money.Spent(w.ledger) + Money.Reserved(w.ledger) + estimate == w.ledger.total;
      && w'.defs == w.defs && w'.completed == w.completed && w'.ledger.total == w.ledger.total
      && Money.Reserved(w'.ledger) == Money.Reserved(w.ledger) + (if stage == PAID then 0 else estimate)
      && w'.ledger.expenses == w.ledger.expenses
           + (if stage == PAID && !exhausts then [Money.Expense(estimate, "other", Money.ForReservation(cid))] else [])
      && w'.log == w.log + (if stage in {STARTED, PAID} then [ToolCalled(cid, tool, f.args)] else [])
      && w'.queue.rows.Keys == w.queue.rows.Keys + (if stage != HELD && NeedsApproval(w, tool) then {cid} else {})
  {
    TrailHasStages(w, cid, tool, agent, f, now, stage);
    HeldOrPaid(w.ledger, w.defs[tool].estimator(f.args), cid);
  }

  lemma HeldOrPaid(l: Money.Ledger, estimate: nat, cid: Cid)
    requires M.HasRoom(l, estimate)
    ensures
      var held := Money.Reserve(l, estimate, cid);
      var paid := Money.Commit(held, |l.reservations|, estimate);
      var exhausts := l.total > 0 && Money.Spent(l) + Money.Reserved(l) + estimate == l.total;
      && held.total == l.total && Money.Reserved(held) == Money.Reserved(l) + estimate && held.expenses == l.expenses
      && paid.total == l.total && Money.Reserved(paid) == Money.Reserved(l)
      && paid.expenses == l.expenses + (if exhausts then [] else [Money.Expense(estimate, "other", Money.ForReservation(cid))])
  {
    Holds.HoldAndDie(l, estimate, cid);
    Holds.HoldAndCommit(l, estimate, cid);
  }

  // ------------------------------------------------------------ refused ids over runs

  /** A refusal of the request, or a timeout of it, has been announced. */
  predicate SaysRefused(q: A.Queue, cid: Cid) {
    Told.Says(q.log, cid, A.DENY) || A.ApprovalTimeout(cid) in q.log
  }

  lemma StepTells(w: World, op: Op, w': World)
    requires Steps(w, op, w') && Told.AllTold(w.queue)
    ensures Told.AllTold(w'.queue)
  {
    forall id
      ensures Told.Told(w'.queue, id)
    {
      StepTellsOf(w, op, w', id);
    }
  }

  lemma StepTellsOf(w: World, op: Op, w': World, id: Cid)
    requires Steps(w, op, w') && Told.Told(w.queue, id)
    ensures Told.Told(w'.queue, id)
  {
    match op
    case CallTool(cid, tool, agent, f, now) =>
      var r :| Invoked(w, cid, tool, agent, f, now, w', r);
      QueueAfterTells(w, cid, tool, agent, f, now, id);
    case DiesInCall(cid, tool, agent, f, now, stage) => QueueAfterTells(w, cid, tool, agent, f, now, id);
    case OnQueue(aop) => Told.StepTells(w.queue, aop, id);
    case _ =>
  }

  lemma QueueAfterTells(w: World, cid: Cid, tool: string, agent: string, f: Facts, now: int, id: Cid)
    requires Told.Told(w.queue, id)
    ensures Told.Told(QueueAfter(w, cid, tool, agent, f, now), id)
  {
    if Admitted(w, cid, tool, f) {
      Told.RequestTells(w.queue, cid,
        A.NewRow(KindFor(w.defs[tool].need), agent, A.Subject([tool], f.args), A.BOARD, false, now, None), id);
    }
  }

  lemma {:induction false} RunTells(ws: seq<World>, ops: seq<Op>)
    requires Trace(ws, ops) && Told.AllTold(ws[0].queue)
    ensures Told.AllTold(ws[|ops|].queue)
    decreases |ops|
  {
    if ops != [] {
      var n := |ops| - 1;
      RunTells(ws[..n + 1], ops[..n]);
      assert ws[..n + 1][n] == ws[n] && Steps(ws[n], ops[n], ws[n + 1]);
      StepTells(ws[n], ops[n], ws[n + 1]);
    }
  }

  /**
   Over every run, processes that end included: a gated tool has run for an id only if a decision approving it
   is in the log, and never if a denial, a cancellation or a timeout of its request is.
   */
  lemma RefusedNeverRuns(ws: seq<World>, ops: seq<Op>, cid: Cid, tool: string, args: string)
    requires Trace(ws, ops) && Safe(ws[0]) && Told.AllTold(ws[0].queue)
    requires ToolCalled(cid, tool, args) in ws[|ops|].log && NeedsApproval(ws[|ops|], tool)
    ensures Told.Says(ws[|ops|].queue.log, cid, A.APPROVE) && !SaysRefused(ws[|ops|].queue, cid)
  {
    RunIsSafe(ws, ops);
    RunTells(ws, ops);
    assert GateKept(ws[|ops|], ToolCalled(cid, tool, args));
    assert Told.Told(ws[|ops|].queue, cid);
  }

  /**
   At any time of any run, a gated call whose other gates are open is answered as its request stands: refused
   for good once it was denied, cancelled or timed out; told to wait, and free to come again, while it is pending
   or not put yet; run when it is approved.
   */
  lemma AnsweredAsRequestStands(ws: seq<World>, ops: seq<Op>, j: nat, r: Option<ToolResult>)
    requires Trace(ws, ops) && Safe(ws[0]) && Told.AllTold(ws[0].queue) && j < |ops| && ops[j].CallTool?
    requires Invoked(ws[j], ops[j].cid, ops[j].tool, ops[j].agent, ops[j].facts, ops[j].now, ws[j + 1], r)
    requires GatesOpen(ws[j], ops[j].cid, ops[j].tool, ops[j].facts) && NeedsApproval(ws[j], ops[j].tool)
    ensures
      var q, cid, w' := ws[j].queue, ops[j].cid, ws[j + 1];
      && (SaysRefused(q, cid) <==> r == Some(Failed(ApprovalDenied)))
      && (SaysRefused(q, cid) ==> cid in w'.completed && w'.completed[cid] == Failed(ApprovalDenied))
      && (Told.Says(q.log, cid, A.APPROVE) <==> w'.log == ws[j].log + [ToolCalled(cid, ops[j].tool, ops[j].facts.args), ToolFinished(cid, r.Some? && r.value.Ok?)])
      && (!SaysRefused(q, cid) && !Told.Says(q.log, cid, A.APPROVE) <==> r == Some(Failed(PendingApproval)))
      && (r == Some(Failed(PendingApproval)) ==> w'.completed == ws[j].completed)
  {
    assert ws[..j + 1][0] == ws[0] && ws[..j + 1][j] == ws[j];
    RunTells(ws[..j + 1], ops[..j]);
    assert Told.Told(ws[j].queue, ops[j].cid);
    AsRowStands(ws[j], ops[j].cid, ops[j].tool, ops[j].agent, ops[j].facts, ops[j].now, ws[j + 1], r);
  }

  lemma AsRowStands(w: World, cid: Cid, tool: string, agent: string, f: Facts, now: int, w': World, r: Option<ToolResult>)
    requires Invoked(w, cid, tool, agent, f, now, w', r) && GatesOpen(w, cid, tool, f) && NeedsApproval(w, tool)
    ensures Told.Refused(w.queue, cid) <==> r == Some(Failed(ApprovalDenied))
    ensures Told.Refused(w.queue, cid) ==> w'.completed == w.completed[cid := Failed(ApprovalDenied)]
    ensures cid !in w.queue.rows || Told.Stands(w.queue, cid, A.PENDING) <==> r == Some(Failed(PendingApproval))
    ensures r == Some(Failed(PendingApproval)) ==> w'.completed == w.completed
    ensures if Told.Stands(w.queue, cid, A.APPROVED)
            then w'.log == w.log + [ToolCalled(cid, tool, f.args), ToolFinished(cid, r.Some? && r.value.Ok?)]
            else w'.log == w.log + [ToolDenied(cid)]
  {
    ExecutesIff(w, cid, tool, f);
    InvokedLeaves(w, cid, tool, agent, f, now, w', r);
  }
}
