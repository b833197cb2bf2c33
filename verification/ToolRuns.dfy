/**
 Safety of the tool pipeline over whole runs, with the budget and the approval queue moving in between and
 processes that end, between two calls or in the middle of one.
 */
module ToolRuns {
  import opened Common
  import opened Holds
  import opened Tools
  import Money
  import A = Approvals

  datatype Op =
    | CallTool(cid: Cid, tool: string, agent: string, facts: Facts, now: int)
    | DiesInCall(cid: Cid, tool: string, agent: string, facts: Facts, now: int, stage: Stage)
    | Restart
    | RegisterTool(name: string, def: ToolDef)
    | OnBudget(budgetOp: Money.Op)
    | OnQueue(queueOp: A.Op)

  ghost predicate Steps(w: World, op: Op, w': World) {
    match op
    case CallTool(cid, tool, agent, facts, now) => exists r :: Invoked(w, cid, tool, agent, facts, now, w', r)
    case DiesInCall(cid, tool, agent, facts, now, stage) =>
      Reaches(w, cid, tool, facts, stage) && w' == Restarted(At(w, cid, tool, agent, facts, now, stage))
    case Restart => w' == Restarted(w)
    case RegisterTool(name, def) => w' == w.(defs := if name in w.defs then w.defs else w.defs[name := def])
    case OnBudget(op) => w' == w.(ledger := Money.Step(w.ledger, op))
    case OnQueue(op) => A.Possible(w.queue, op) && w' == w.(queue := A.Step(w.queue, op))
  }

  ghost predicate Trace(ws: seq<World>, ops: seq<Op>) {
    |ws| == |ops| + 1 && forall i :: 0 <= i < |ops| ==> Steps(ws[i], ops[i], ws[i + 1])
  }

  predicate IsCall(op: Op) { op.CallTool? || op.DiesInCall? }

  /** The process ends, and with it what only the process knew. */
  predicate Ends(op: Op) { op.Restart? || op.DiesInCall? }

  // ------------------------------------------------------------ gates

  /** The executions of gated tools all have their approval, with both legs where two are needed. */
  ghost predicate GateKept(w: World, e: Event) {
    e.ToolCalled? ==>
      && e.tool in w.defs
      && (Gated(w, e.tool) ==> A.Approved(w.queue, e.cid))
  }

  ghost predicate Safe(w: World) {
    && Money.LedgerOk(w.ledger) && A.QueueOk(w.queue)
    && (forall e :: e in w.log ==> GateKept(w, e))
  }

  /** What later worlds keep of earlier ones. */
  ghost predicate Keeps(w: World, w': World) {
    && (forall name :: name in w.defs ==> name in w'.defs && w'.defs[name] == w.defs[name])
    && A.Absorbs(w.queue, w'.queue)
  }

  lemma InvokeKeepsGate(w: World, cid: Cid, tool: string, agent: string, f: Facts, now: int,
      w': World, r: Option<ToolResult>, e: Event)
    requires Invoked(w, cid, tool, agent, f, now, w', r) && e in w'.log
    requires e in w.log ==> GateKept(w, e)
    ensures GateKept(w', e)
  {
    if e !in w.log && e.ToolCalled? {
      assert e == ToolCalled(cid, tool, f.args);
    }
  }

  lemma InvokeIsSafe(w: World, cid: Cid, tool: string, agent: string, f: Facts, now: int, w': World, r: Option<ToolResult>)
    requires Safe(w) && Invoked(w, cid, tool, agent, f, now, w', r)
    ensures Safe(w') && Keeps(w, w')
  {
    forall e | e in w'.log
      ensures GateKept(w', e)
    {
      InvokeKeepsGate(w, cid, tool, agent, f, now, w', r, e);
    }
  }

  lemma DeathIsSafe(w: World, cid: Cid, tool: string, agent: string, f: Facts, now: int, stage: Stage)
    requires Safe(w) && Reaches(w, cid, tool, f, stage)
    ensures Safe(Restarted(At(w, cid, tool, agent, f, now, stage)))
    ensures Keeps(w, Restarted(At(w, cid, tool, agent, f, now, stage)))
  {
    var w' := At(w, cid, tool, agent, f, now, stage);
    HoldKeepsOk(w.ledger, EstimateOf(w.defs, tool, f.args), cid);
    AskedKeepsQueue(w.queue, w.defs[tool].need, cid, tool, f.args, agent, now);
    forall e | e in w'.log
      ensures GateKept(w', e)
    {
      DeathKeepsGate(w, cid, tool, agent, f, now, stage, e);
    }
  }

  lemma DeathKeepsGate(w: World, cid: Cid, tool: string, agent: string, f: Facts, now: int, stage: Stage, e: Event)
    requires Reaches(w, cid, tool, f, stage) && e in At(w, cid, tool, agent, f, now, stage).log
    requires e in w.log ==> GateKept(w, e)
    ensures GateKept(At(w, cid, tool, agent, f, now, stage), e)
  {
  }

  lemma StepIsSafe(w: World, op: Op, w': World)
    requires Safe(w) && Steps(w, op, w')
    ensures Safe(w') && Keeps(w, w')
  {
    match op
    case CallTool(cid, tool, agent, f, now) =>
      var r :| Invoked(w, cid, tool, agent, f, now, w', r);
      InvokeIsSafe(w, cid, tool, agent, f, now, w', r);
    case DiesInCall(cid, tool, agent, f, now, stage) => DeathIsSafe(w, cid, tool, agent, f, now, stage);
    case Restart =>
    case RegisterTool(name, def) =>
      assert forall e :: e in w.log && GateKept(w, e) ==> GateKept(w', e);
    case OnBudget(bop) => Money.StepKeepsOk(w.ledger, bop);
    case OnQueue(aop) =>
      A.StepKeepsQueue(w.queue, aop);
      assert forall e :: GateKept(w, e) ==> GateKept(w', e);
  }

  /**
   In every run, processes that end included: whenever a gated tool has run for an id, the approval of that
   id stands approved, by security too if the pipeline itself created it.
   */
  lemma RunIsSafe(ws: seq<World>, ops: seq<Op>)
    requires Trace(ws, ops) && Safe(ws[0])
    ensures Safe(ws[|ops|]) && Keeps(ws[0], ws[|ops|])
    ensures forall e :: e in ws[|ops|].log && e.ToolCalled? && Gated(ws[|ops|], e.tool) ==>
              A.BothLegsApproved(ws[|ops|].queue, e.cid)
  {
    RunStaysSafe(ws, ops);
    forall e | e in ws[|ops|].log && e.ToolCalled? && Gated(ws[|ops|], e.tool)
      ensures A.BothLegsApproved(ws[|ops|].queue, e.cid)
    {
      assert GateKept(ws[|ops|], e);
    }
  }

  lemma {:induction false} RunStaysSafe(ws: seq<World>, ops: seq<Op>)
    requires Trace(ws, ops) && Safe(ws[0])
    ensures Safe(ws[|ops|]) && Keeps(ws[0], ws[|ops|])
    decreases |ops|
  {
    if ops != [] {
      var n := |ops| - 1;
      RunStaysSafe(ws[..n + 1], ops[..n]);
      assert ws[..n + 1][n] == ws[n] && Steps(ws[n], ops[n], ws[n + 1]);
      StepIsSafe(ws[n], ops[n], ws[n + 1]);
      KeepsTrans(ws[0], ws[n], ws[n + 1]);
    }
  }

  lemma KeepsTrans(a: World, b: World, c: World)
    requires Keeps(a, b) && Keeps(b, c)
    ensures Keeps(a, c)
  {
  }

  lemma KeptBetween(ws: seq<World>, ops: seq<Op>, i: nat, j: nat)
    requires Trace(ws, ops) && Safe(ws[0]) && i <= j <= |ops|
    ensures Keeps(ws[i], ws[j])
  {
    RunStaysSafe(ws[..i + 1], ops[..i]);
    RunStaysSafe(ws[i..j + 1], ops[i..j]);
  }

  // ------------------------------------------------------------ what was asked for is what runs

  /** Somebody else puts a request with this id. */
  predicate Foreign(op: Op, cid: Cid) {
    op.OnQueue? && op.queueOp.OpRequest? && op.queueOp.rid == cid
  }

  datatype Wish = Wish(agent: string, subject: A.Subject)

  /** What an operation that can put a request wants: which agent, which tool, which arguments. */
  function WishOf(op: Op): Wish
    requires IsCall(op) || (op.OnQueue? && op.queueOp.OpRequest?)
  {
    if IsCall(op) then Wish(op.agent, A.Subject([op.tool], op.facts.args))
    else Wish(op.queueOp.row.requester, op.queueOp.row.subject)
  }

  predicate Puts(op: Op, cid: Cid) {
    (IsCall(op) && op.cid == cid) || Foreign(op, cid)
  }

  /** A request keeps saying what the operation that put it wanted. */
  lemma FirstRequest(w: World, op: Op, w': World, cid: Cid)
    requires Steps(w, op, w') && cid !in w.queue.rows && cid in w'.queue.rows
    ensures Puts(op, cid)
    ensures Wish(w'.queue.rows[cid].requester, w'.queue.rows[cid].subject) == WishOf(op)
  {
    match op
    case CallTool(_, tool, agent, f, now) =>
      var r :| Invoked(w, op.cid, tool, agent, f, now, w', r);
    case _ =>
  }

  /**
   Approvals are looked up by the id alone. Where a gated call runs under the approval of a request that an
   earlier operation put, that the request is for this agent, tool and arguments is the same as that the
   earlier operation wanted these: a call that differs from it in any of them runs all the same.
   */
  lemma RunsWhatWasApprovedIff(ws: seq<World>, ops: seq<Op>, i: nat, j: nat, cid: Cid)
    requires Trace(ws, ops) && Safe(ws[0]) && i < j < |ops|
    requires cid !in ws[i].queue.rows && cid in ws[i + 1].queue.rows
    requires IsCall(ops[j]) && ops[j].cid == cid
    requires Gated(ws[j], ops[j].tool) && Executes(ws[j], cid, ops[j].tool, ops[j].facts)
    ensures Puts(ops[i], cid) && A.Approved(ws[j].queue, cid)
    ensures
      var row := ws[j].queue.rows[cid];
      Wish(row.requester, row.subject) == WishOf(ops[j]) <==> WishOf(ops[i]) == WishOf(ops[j])
  {
    assert Steps(ws[i], ops[i], ws[i + 1]);
    FirstRequest(ws[i], ops[i], ws[i + 1], cid);
    KeptBetween(ws, ops, i + 1, j);
  }

  /** Where all that put or use an id want one tool and arguments, only that runs for it, as approved. */
  lemma {:induction false} ApprovedCallRan(ws: seq<World>, ops: seq<Op>, cid: Cid, tool: string, args: string)
    requires Trace(ws, ops) && cid !in ws[0].queue.rows && (forall t, a :: ToolCalled(cid, t, a) !in ws[0].log)
    requires forall op :: op in ops && Puts(op, cid) ==> WishOf(op).subject == A.Subject([tool], args)
    ensures cid in ws[|ops|].queue.rows ==> ws[|ops|].queue.rows[cid].subject == A.Subject([tool], args)
    ensures forall t, a :: ToolCalled(cid, t, a) in ws[|ops|].log ==> t == tool && a == args
    decreases |ops|
  {
    if ops != [] {
      var n := |ops| - 1;
      assert forall op :: op in ops[..n] ==> op in ops;
      ApprovedCallRan(ws[..n + 1], ops[..n], cid, tool, args);
      assert ops[n] in ops && ws[..n + 1][n] == ws[n] && Steps(ws[n], ops[n], ws[n + 1]);
      OneWishStep(ws[n], ops[n], ws[n + 1], cid, tool, args);
    }
  }

  lemma OneWishStep(w: World, op: Op, w': World, cid: Cid, tool: string, args: string)
    requires Steps(w, op, w') && (Puts(op, cid) ==> WishOf(op).subject == A.Subject([tool], args))
    requires cid in w.queue.rows ==> w.queue.rows[cid].subject == A.Subject([tool], args)
    requires forall t, a :: ToolCalled(cid, t, a) in w.log ==> t == tool && a == args
    ensures cid in w'.queue.rows ==> w'.queue.rows[cid].subject == A.Subject([tool], args)
    ensures forall t, a :: ToolCalled(cid, t, a) in w'.log ==> t == tool && a == args
  {
    if cid in w'.queue.rows && cid !in w.queue.rows {
      FirstRequest(w, op, w', cid);
    }
    if op.CallTool? {
      var r :| Invoked(w, op.cid, op.tool, op.agent, op.facts, op.now, w', r);
    }
  }

  /** A queue in which security and the board have approved what a call of tool "a" asked for. */
  function ApprovedFor(args: string): A.Queue {
    var q1 := Asked(A.NO_APPROVALS, NeedsExpense, "id", "a", args, "agent", 0);
    A.Decide(A.Decide(q1, "id", "security", A.APPROVE, None), "id", "board", A.APPROVE, None)
  }

  lemma ApprovedForIs(args: string)
    ensures A.Approved(ApprovedFor(args), "id")
    ensures ApprovedFor(args).rows["id"].subject == A.Subject(["a"], args)
  {
    var q1 := Asked(A.NO_APPROVALS, NeedsExpense, "id", "a", args, "agent", 0);
    var row := q1.rows["id"];
    assert row == A.NewRow(A.EXPENSE, "agent", A.Subject(["a"], args), A.BOARD, false, 0, None);
    var q2 := A.Decide(q1, "id", "security", A.APPROVE, None);
    assert q2.rows["id"] == row.(securityDecision := Some(A.APPROVE));
  }

  const CALL_X := Facts("x", true, true, true, true, true, Returns)
  const CALL_YYY := Facts("yyy", true, true, true, true, true, Returns)

  /** 1000 units, and two gated tools that cost as much as their arguments are long. */
  const TWO_TOOLS :=
    World(map["a" := ToolDef(NeedsExpense, args => |args|), "b" := ToolDef(NeedsExpense, args => |args|)],
          map[], [], Money.SetTotal(Money.FRESH, 1000), ApprovedFor("x"))

  /** With its approval and enough money, a call that nothing else stops runs at the cost of its arguments. */
  lemma ToolRuns(w: World, tool: string, f: Facts)
    requires Gated(w, tool) && "id" !in w.completed && A.Approved(w.queue, "id")
    requires f == Facts(f.args, true, true, true, true, true, Returns)
    requires Money.CanAfford(w.ledger, EstimateOf(w.defs, tool, f.args)) && !UsesUp(w.ledger, EstimateOf(w.defs, tool, f.args))
    ensures Executes(w, "id", tool, f) && Answer(w, "id", tool, f) == Some(Ok(EstimateOf(w.defs, tool, f.args)))
  {
    SuccessNeedsAll(w, "id", tool, f);
  }

  lemma TwoToolsHaveMoney(amount: nat)
    requires amount < 1000
    ensures Money.CanAfford(TWO_TOOLS.ledger, amount) && !UsesUp(TWO_TOOLS.ledger, amount)
  {
  }

  /** The request of tool a approved by both, a call of gated tool b with the same id runs b. */
  lemma OtherToolRuns()
    ensures A.Approved(TWO_TOOLS.queue, "id") && TWO_TOOLS.queue.rows["id"].subject == A.Subject(["a"], "x")
    ensures Executes(TWO_TOOLS, "id", "b", CALL_X) && Answer(TWO_TOOLS, "id", "b", CALL_X) == Some(Ok(1))
  {
    ApprovedForIs("x");
    TwoToolsHaveMoney(1);
    ToolRuns(TWO_TOOLS, "b", CALL_X);
  }

  /** Approved with arguments that cost 1, a call of the same tool with arguments that cost 3 runs, and costs 3. */
  lemma OtherArgumentsRun()
    ensures A.Approved(TWO_TOOLS.queue, "id") && TWO_TOOLS.queue.rows["id"].subject == A.Subject(["a"], "x")
    ensures Executes(TWO_TOOLS, "id", "a", CALL_YYY) && Answer(TWO_TOOLS, "id", "a", CALL_YYY) == Some(Ok(3))
  {
    ApprovedForIs("x");
    TwoToolsHaveMoney(3);
    ToolRuns(TWO_TOOLS, "a", CALL_YYY);
  }

  // ------------------------------------------------------------ both legs

  /**
   Where nobody but the pipeline puts requests with an id, the executor of a gated tool has run for it only
   if that request stands approved by the board and by security.
   */
  lemma BothLegsBeforeRunning(ws: seq<World>, ops: seq<Op>, cid: Cid)
    requires Trace(ws, ops) && Safe(ws[0]) && cid !in ws[0].queue.rows
    requires forall op :: op in ops ==> !Foreign(op, cid)
    ensures forall tool, args :: ToolCalled(cid, tool, args) in ws[|ops|].log && Gated(ws[|ops|], tool) ==>
              A.Approved(ws[|ops|].queue, cid) && ws[|ops|].queue.rows[cid].securityDecision == Some(A.APPROVE)
  {
    RunIsSafe(ws, ops);
    PipelineOwnsRequest(ws, ops, cid);
  }

  lemma {:induction false} PipelineOwnsRequest(ws: seq<World>, ops: seq<Op>, cid: Cid)
    requires Trace(ws, ops) && A.FromPipeline(ws[0].queue, cid)
    requires forall op :: op in ops ==> !Foreign(op, cid)
    ensures A.FromPipeline(ws[|ops|].queue, cid)
    decreases |ops|
  {
    if ops != [] {
      var n := |ops| - 1;
      assert forall op :: op in ops[..n] ==> op in ops;
      PipelineOwnsRequest(ws[..n + 1], ops[..n], cid);
      assert ops[n] in ops && ws[..n + 1][n] == ws[n] && Steps(ws[n], ops[n], ws[n + 1]);
      if ops[n].OnQueue? {
        A.StaysFromPipeline(ws[n].queue, ops[n].queueOp, cid);
      }
    }
  }
}
