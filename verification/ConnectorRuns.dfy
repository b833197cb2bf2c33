/**
 Safety of the gateway over whole runs, with the budget and the approval queue moving in between and
 processes that end, between two calls or in the middle of one.
 */
module ConnectorRuns {
  import opened Common
  import opened Holds
  import opened Connector
  import Money
  import A = Approvals

  datatype Op =
    | CallService(cid: Cid, service: string, action: string, agent: string, facts: Facts, now: real, day: int, attempts: nat)
    | DiesInCall(cid: Cid, service: string, action: string, agent: string, facts: Facts, now: real, day: int, attempts: nat,
                 stage: Stage, later: real)
    | Restart(later: real)
    | OnBudget(budgetOp: Money.Op)
    | OnQueue(queueOp: A.Op)

  ghost predicate Steps(w: World, op: Op, w': World) {
    match op
    case CallService(cid, service, action, agent, facts, now, day, attempts) =>
      exists r :: Called(w, cid, service, action, agent, facts, now, day, w', r, attempts)
    case DiesInCall(cid, service, action, agent, facts, now, day, attempts, stage, later) =>
      && Reaches(w, cid, service, action, facts, now, stage)
      && CanHaveTried(w.services[service].actions[action], stage, attempts)
      && w' == Restarted(At(w, cid, service, action, agent, facts, now, day, stage), later)
    case Restart(later) => w' == Restarted(w, later)
    case OnBudget(op) => w' == w.(ledger := Money.Step(w.ledger, op))
    case OnQueue(op) => A.Possible(w.queue, op) && w' == w.(queue := A.Step(w.queue, op))
  }

  ghost predicate Trace(ws: seq<World>, ops: seq<Op>) {
    |ws| == |ops| + 1 && forall i :: 0 <= i < |ops| ==> Steps(ws[i], ops[i], ws[i + 1])
  }

  predicate IsCall(op: Op) { op.CallService? || op.DiesInCall? }

  /** The process ends, and with it what only the process knew. */
  predicate Ends(op: Op) { op.Restart? || op.DiesInCall? }

  /** The call starts the executor for an action that is not auto-approved. */
  predicate NeedsBoard(w: World, op: Op) {
    IsCall(op) && op.attempts > 0 && Known(w, op.service, op.action)
    && !AutoApproved(w.services[op.service], w.services[op.service].actions[op.action], op.facts.args)
  }

  ghost predicate Healthy(w: World) {
    Money.LedgerOk(w.ledger) && A.QueueOk(w.queue)
  }

  lemma DeathKeepsHealth(w: World, op: Op, w': World)
    requires op.DiesInCall? && Steps(w, op, w') && Healthy(w)
    ensures Healthy(w') && A.Absorbs(w.queue, w'.queue)
  {
    var s, a := w.services[op.service], w.services[op.service].actions[op.action];
    HoldKeepsOk(w.ledger, a.estimator(op.facts.args), op.cid);
    AskedKeepsQueue(w.queue, s, a, [op.service, op.action], op.agent, op.facts.args, op.cid, op.day);
  }

  lemma StepKeepsHealth(w: World, op: Op, w': World)
    requires Steps(w, op, w') && Healthy(w)
    ensures Healthy(w') && A.Absorbs(w.queue, w'.queue) && w'.services == w.services
    ensures NeedsBoard(w, op) ==> A.Approved(w.queue, op.cid)
  {
    match op
    case DiesInCall(_, _, _, _, _, _, _, _, _, _) => DeathKeepsHealth(w, op, w');
    case OnBudget(bop) => Money.StepKeepsOk(w.ledger, bop);
    case OnQueue(aop) => A.StepKeepsQueue(w.queue, aop);
    case _ =>
  }

  /**
   In every run, processes that end included: whenever an action that is not auto-approved has run, its
   approval stands approved, by security too if the gateway itself created it.
   */
  lemma {:induction false} RunIsSafe(ws: seq<World>, ops: seq<Op>)
    requires Trace(ws, ops) && Healthy(ws[0])
    ensures Healthy(ws[|ops|]) && ws[|ops|].services == ws[0].services && A.Absorbs(ws[0].queue, ws[|ops|].queue)
    ensures forall i :: 0 <= i < |ops| && NeedsBoard(ws[0], ops[i]) ==> A.BothLegsApproved(ws[|ops|].queue, ops[i].cid)
    decreases |ops|
  {
    if ops != [] {
      var n := |ops| - 1;
      var w, op, w' := ws[n], ops[n], ws[n + 1];
      RunIsSafe(ws[..n + 1], ops[..n]);
      assert ws[..n + 1][n] == w && ops[..n] + [op] == ops && Steps(w, op, w');
      StepKeepsHealth(w, op, w');
      forall i | 0 <= i < |ops| && NeedsBoard(ws[0], ops[i])
        ensures A.BothLegsApproved(w'.queue, ops[i].cid)
      {
        if i < n {
          assert ops[..n][i] == ops[i] && A.BothLegsApproved(w.queue, ops[i].cid);
        }
        assert A.RowOk(w'.queue.rows[ops[i].cid]);
      }
    }
  }

  lemma KeptBetween(ws: seq<World>, ops: seq<Op>, i: nat, j: nat)
    requires Trace(ws, ops) && Healthy(ws[0]) && i <= j <= |ops|
    ensures A.Absorbs(ws[i].queue, ws[j].queue) && ws[j].services == ws[i].services
  {
    RunIsSafe(ws[..i + 1], ops[..i]);
    RunIsSafe(ws[i..j + 1], ops[i..j]);
  }

  // ------------------------------------------------------------ what was asked for is what runs

  /** Somebody else puts a request with this id. */
  predicate Foreign(op: Op, cid: Cid) {
    op.OnQueue? && op.queueOp.OpRequest? && op.queueOp.rid == cid
  }

  datatype Wish = Wish(agent: string, subject: A.Subject)

  /** What an operation that can put a request wants: which agent, which service and action, which arguments. */
  function WishOf(op: Op): Wish
    requires IsCall(op) || (op.OnQueue? && op.queueOp.OpRequest?)
  {
    if IsCall(op) then Wish(op.agent, A.Subject([op.service, op.action], op.facts.args))
    else Wish(op.queueOp.row.requester, op.queueOp.row.subject)
  }

  predicate Puts(op: Op, cid: Cid) {
    (IsCall(op) && op.cid == cid) || Foreign(op, cid)
  }

  /** A request keeps saying what the operation that put it wanted. */
  lemma FirstRequest(w: World, op: Op, w': World, cid: Cid)
    requires Steps(w, op, w') && cid !in w.queue.rows && cid in w'.queue.rows
    ensures Puts(op, cid)
    ensures Wish(w'.queue.rows[cid].requester, w'.queue.rows[cid].subject) == WishOf(op)
  {
    match op
    case CallService(_, service, action, agent, f, now, day, attempts) =>
      var r :| Called(w, op.cid, service, action, agent, f, now, day, w', r, attempts);
    case _ =>
  }

  /**
   Approvals are looked up by the id alone. Where a call that is not auto-approved runs under the approval of
   a request that an earlier operation put, that the request is for this agent, service, action and arguments
   is the same as that the earlier operation wanted these: a call that differs in any of them runs all the same.
   */
  lemma RunsWhatWasApprovedIff(ws: seq<World>, ops: seq<Op>, i: nat, j: nat, cid: Cid)
    requires Trace(ws, ops) && Healthy(ws[0]) && i < j < |ops|
    requires cid !in ws[i].queue.rows && cid in ws[i + 1].queue.rows
    requires NeedsBoard(ws[j], ops[j]) && ops[j].cid == cid
    ensures Puts(ops[i], cid) && A.Approved(ws[j].queue, cid)
    ensures
      var row := ws[j].queue.rows[cid];
      Wish(row.requester, row.subject) == WishOf(ops[j]) <==> WishOf(ops[i]) == WishOf(ops[j])
  {
    assert Steps(ws[i], ops[i], ws[i + 1]) && Steps(ws[j], ops[j], ws[j + 1]);
    FirstRequest(ws[i], ops[i], ws[i + 1], cid);
    KeptBetween(ws, ops, i + 1, j);
    RunIsSafe(ws[..j + 1], ops[..j]);
    StepKeepsHealth(ws[j], ops[j], ws[j + 1]);
  }

  /** Where all that put or use an id want one thing, what is approved under the id, and what runs for it, is that. */
  lemma {:induction false} ApprovedCallRan(ws: seq<World>, ops: seq<Op>, cid: Cid, subject: A.Subject)
    requires Trace(ws, ops) && cid !in ws[0].queue.rows
    requires forall op :: op in ops && Puts(op, cid) ==> WishOf(op).subject == subject
    ensures cid in ws[|ops|].queue.rows ==> ws[|ops|].queue.rows[cid].subject == subject
    decreases |ops|
  {
    if ops != [] {
      var n := |ops| - 1;
      var w, w' := ws[n], ws[n + 1];
      assert forall op :: op in ops[..n] ==> op in ops;
      ApprovedCallRan(ws[..n + 1], ops[..n], cid, subject);
      assert ops[n] in ops && ws[..n + 1][n] == w && Steps(w, ops[n], w');
      if cid in w'.queue.rows && cid !in w.queue.rows {
        FirstRequest(w, ops[n], w', cid);
      } else {
        StepKeepsSubject(w, ops[n], w', cid);
      }
    }
  }

  lemma StepKeepsSubject(w: World, op: Op, w': World, cid: Cid)
    requires Steps(w, op, w')
    ensures cid in w.queue.rows ==> cid in w'.queue.rows && w'.queue.rows[cid].subject == w.queue.rows[cid].subject
  {
    match op
    case CallService(_, service, action, agent, f, now, day, attempts) =>
      var r :| Called(w, op.cid, service, action, agent, f, now, day, w', r, attempts);
    case _ =>
  }

  /** A queue in which security and the board have approved what a call of service "s", action "a" asked for. */
  const APPROVED_FOR_X :=
    var row := A.NewRow(A.EXTERNAL_ACTION, "agent", A.Subject(["s", "a"], "x"), A.BOARD, false, 0, None);
    A.Decide(A.Decide(A.Request(A.NO_APPROVALS, "id", row), "id", "security", A.APPROVE, None), "id", "board", A.APPROVE, None)

  const ONE_SERVICE :=
    World(map["s" := Service(HIGH, map["a" := Action(None, false, args => |args|)])], map[], [],
          Money.SetTotal(Money.FRESH, 1000), APPROVED_FOR_X, map[], map[])

  /** With its approval and enough money, a call of that action that nothing else stops runs at the cost of its arguments. */
  lemma ServiceRuns(w: World, f: Facts)
    requires w.services == ONE_SERVICE.services && w.limits == map[] && "id" !in w.completed && A.Approved(w.queue, "id")
    requires f.allowed && f.argsValid && f.attempt(0).Returns? && f.sanitized
    requires Money.CanAfford(w.ledger, |f.args|) && !UsesUp(w.ledger, |f.args|)
    ensures Executes(w, "id", "s", "a", f, 0.0) && Answer(w, "id", "s", "a", f, 0.0) == Ok(|f.args|)
  {
    assert FirstDefinite(f, 0);
    SuccessNeedsAll(w, "id", "s", "a", f, 0.0);
  }

  const OTHER_CALL := Facts("yyy", true, true, (k: nat) => Returns, true)

  lemma ApprovedForX()
    ensures A.Approved(ONE_SERVICE.queue, "id") && ONE_SERVICE.queue.rows["id"].subject == A.Subject(["s", "a"], "x")
    ensures Money.Used(ONE_SERVICE.ledger) == 0 && ONE_SERVICE.ledger.total == 1000 && !ONE_SERVICE.ledger.blocked
  {
    var row := A.NewRow(A.EXTERNAL_ACTION, "agent", A.Subject(["s", "a"], "x"), A.BOARD, false, 0, None);
    var q2 := A.Decide(A.Request(A.NO_APPROVALS, "id", row), "id", "security", A.APPROVE, None);
    assert q2.rows["id"] == row.(securityDecision := Some(A.APPROVE));
  }

  /** Approved with arguments that cost 1, a call of the same action with arguments that cost 3 runs, and costs 3. */
  lemma OtherArgumentsRun()
    ensures A.Approved(ONE_SERVICE.queue, "id") && ONE_SERVICE.queue.rows["id"].subject == A.Subject(["s", "a"], "x")
    ensures Executes(ONE_SERVICE, "id", "s", "a", OTHER_CALL, 0.0) && Answer(ONE_SERVICE, "id", "s", "a", OTHER_CALL, 0.0) == Ok(3)
  {
    ApprovedForX();
    ServiceRuns(ONE_SERVICE, OTHER_CALL);
  }

  // ------------------------------------------------------------ both legs

  /**
   Where nobody but the gateway puts requests with an id, an action that is not auto-approved has run for
   it only if that request stands approved by the board and by security.
   */
  lemma BothLegsBeforeRunning(ws: seq<World>, ops: seq<Op>, i: nat)
    requires Trace(ws, ops) && Healthy(ws[0])
    requires i < |ops| && NeedsBoard(ws[0], ops[i]) && ops[i].cid !in ws[0].queue.rows
    requires forall op :: op in ops ==> !Foreign(op, ops[i].cid)
    ensures A.Approved(ws[|ops|].queue, ops[i].cid)
    ensures ws[|ops|].queue.rows[ops[i].cid].securityDecision == Some(A.APPROVE)
  {
    RunIsSafe(ws, ops);
    GatewayOwnsRequest(ws, ops, ops[i].cid);
  }

  lemma {:induction false} GatewayOwnsRequest(ws: seq<World>, ops: seq<Op>, cid: Cid)
    requires Trace(ws, ops) && A.FromPipeline(ws[0].queue, cid)
    requires forall op :: op in ops ==> !Foreign(op, cid)
    ensures A.FromPipeline(ws[|ops|].queue, cid)
    decreases |ops|
  {
    if ops != [] {
      var n := |ops| - 1;
      assert forall op :: op in ops[..n] ==> op in ops;
      GatewayOwnsRequest(ws[..n + 1], ops[..n], cid);
      assert ops[n] in ops && ws[..n + 1][n] == ws[n] && Steps(ws[n], ops[n], ws[n + 1]);
      if ops[n].OnQueue? {
        A.StaysFromPipeline(ws[n].queue, ops[n].queueOp, cid);
      }
    }
  }
}
