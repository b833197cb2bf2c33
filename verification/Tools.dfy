/**
 The tool pipeline (modules/tools/service.py) over the budget and the approval queue: look up, gate,
 hold the estimate, ask for approval, execute, commit.
 */
module Tools {
  import opened Common
  import opened Money
  import opened BudgetService
  import opened Holds
  import A = Approvals
  import opened ApprovalService

  type Cid = string

  datatype Need = NoApproval | NeedsExpense | NeedsExternal

  /** A registered tool, as far as the pipeline's shape depends on it. Arguments are compared as a whole. */
  datatype ToolDef = ToolDef(need: Need, estimator: string -> nat)

  datatype ErrorCode =
    | UnknownTool | AgentNotActive | RoleNotAllowed | ArgsInvalid | PermissionDenied | OverBudget
    | PendingApproval | ApprovalDenied | ToolFailed | ExecutorFailed | CommitFailed

  datatype ToolResult = Ok(cost: nat) | Failed(code: ErrorCode)

  datatype Event = ToolCalled(cid: Cid, tool: string, args: string) | ToolFinished(cid: Cid, ok: bool) | ToolDenied(cid: Cid)

  datatype Verdict = VerdictApproved | VerdictPending | VerdictDenied

  datatype Outcome = Returns | RaisesToolError | RaisesOther | ReturnsWrongType

  /** The arguments, and what the call's collaborators answer: identity, role gate, schema, permission check, executor. */
  datatype Facts = Facts(
    args: string, agentKnown: bool, agentActive: bool, roleAllowed: bool, argsValid: bool, permitted: bool,
    outcome: Outcome)

  /** Registry, result cache, tool events, and the two collaborators' state. */
  datatype World = World(defs: map<string, ToolDef>, completed: map<Cid, ToolResult>, log: seq<Event>, ledger: Ledger, queue: A.Queue)

  function KindFor(need: Need): A.Kind {
    if need == NeedsExpense then A.EXPENSE else A.EXTERNAL_ACTION
  }

  predicate Gated(w: World, tool: string) {
    tool in w.defs && w.defs[tool].need != NoApproval
  }

  /** What the tool's estimator says these arguments cost. */
  function EstimateOf(defs: map<string, ToolDef>, tool: string, args: string): nat {
    if tool in defs then defs[tool].estimator(args) else 0
  }

  /** The gates between lookup and reservation, in order. */
  function GateRefusal(f: Facts): Option<ErrorCode> {
    if !f.agentActive then Some(AgentNotActive)
    else if !f.roleAllowed then Some(RoleNotAllowed)
    else if !f.argsValid then Some(ArgsInvalid)
    else if !f.permitted then Some(PermissionDenied)
    else None
  }

  /** An uncached call gets as far as holding its estimate. */
  predicate Admitted(w: World, cid: Cid, tool: string, f: Facts) {
    && cid !in w.completed && tool in w.defs && f.agentKnown && GateRefusal(f).None?
    && CanAfford(w.ledger, EstimateOf(w.defs, tool, f.args))
  }

  /** The executor is reached. */
  predicate Executes(w: World, cid: Cid, tool: string, f: Facts) {
    Admitted(w, cid, tool, f) && (Gated(w, tool) ==> A.Approved(w.queue, cid))
  }

  /** Everything that must come together for an uncached call to succeed. */
  predicate Succeeds(w: World, cid: Cid, tool: string, f: Facts) {
    && Executes(w, cid, tool, f) && f.outcome == Returns
    && !UsesUp(w.ledger, EstimateOf(w.defs, tool, f.args))
  }

  /** Holding this much brings usage to a positive total exactly. */
  predicate UsesUp(l: Ledger, amount: nat) {
    l.total > 0 && Used(l) + amount == l.total
  }

  function VerdictOf(q: A.Queue, cid: Cid): Verdict {
    if A.Approved(q, cid) then VerdictApproved else if A.Terminal(q, cid) then VerdictDenied else VerdictPending
  }

  /** What an uncached call answers; None is the exception of an unknown agent. */
  function Answer(w: World, cid: Cid, tool: string, f: Facts): Option<ToolResult> {
    if tool !in w.defs then Some(Failed(UnknownTool))
    else if !f.agentKnown then None
    else if GateRefusal(f).Some? then Some(Failed(GateRefusal(f).value))
    else if !CanAfford(w.ledger, EstimateOf(w.defs, tool, f.args)) then Some(Failed(ErrorCode.OverBudget))
    else if Gated(w, tool) && VerdictOf(w.queue, cid) == VerdictPending then Some(Failed(PendingApproval))
    else if Gated(w, tool) && VerdictOf(w.queue, cid) == VerdictDenied then Some(Failed(ApprovalDenied))
    else Some(Ran(w.ledger, EstimateOf(w.defs, tool, f.args), f.outcome))
  }

  /** What an execution with the estimate held comes to. */
  function Ran(before: Ledger, estimate: nat, outcome: Outcome): ToolResult {
    match outcome
    case RaisesToolError => Failed(ToolFailed)
    case RaisesOther => Failed(ExecutorFailed)
    case ReturnsWrongType => Failed(ExecutorFailed)
    case Returns => if UsesUp(before, estimate) then Failed(CommitFailed) else Ok(estimate)
  }

  /** Remark, read off Answer: an uncached call succeeds iff everything comes together, then at the estimated cost. */
  lemma SuccessNeedsAll(w: World, cid: Cid, tool: string, f: Facts)
    requires cid !in w.completed
    ensures
      var r := Answer(w, cid, tool, f);
      && (r.Some? && r.value.Ok? <==> Succeeds(w, cid, tool, f))
      && (r.Some? && r.value.Ok? ==> r.value.cost == EstimateOf(w.defs, tool, f.args))
  {
  }

  /** The approval a call for this agent asks for, unless the id is known to the queue already. */
  function Asked(q: A.Queue, need: Need, cid: Cid, tool: string, args: string, agent: string, now: int): A.Queue {
    if need == NoApproval then q
    else A.Request(q, cid, A.NewRow(KindFor(need), agent, A.Subject([tool], args), A.BOARD, false, now, None))
  }

  function QueueAfter(w: World, cid: Cid, tool: string, agent: string, f: Facts, now: int): A.Queue {
    if Admitted(w, cid, tool, f) then Asked(w.queue, w.defs[tool].need, cid, tool, f.args, agent, now) else w.queue
  }

  function OkCost(r: Option<ToolResult>): nat {
    if r.Some? && r.value.Ok? then r.value.cost else 0
  }

  /** One call of invoke. No result means that identity.get raised. */
  ghost predicate Invoked(w: World, cid: Cid, tool: string, agent: string, f: Facts, now: int, w': World, r: Option<ToolResult>) {
    && w'.defs == w.defs
    // A cached id answers from the cache and touches nothing.
    && (cid in w.completed ==> w' == w && r == Some(w.completed[cid]))
    // Otherwise the first failing gate answers, or what the execution comes to.
    && (cid !in w.completed ==> r == Answer(w, cid, tool, f))
    // Held money is always let go of; what is spent is what a fresh success reports.
    && Settled(w.ledger, w'.ledger, cid, cid !in w.completed && r.Some? && r.value.Ok?, OkCost(r))
    // Results are cached, except a pending approval and an exception.
    && w'.completed == (if r.None? || r == Some(Failed(PendingApproval)) then w.completed else w.completed[cid := r.value])
    && NewEvents(w, cid, tool, f, w', r)
    && w'.queue == QueueAfter(w, cid, tool, agent, f, now)
    && LedgerOk(w'.ledger) && A.QueueOk(w'.queue)
  }

  ghost predicate NewEvents(w: World, cid: Cid, tool: string, f: Facts, w': World, r: Option<ToolResult>) {
    if cid in w.completed || r.None? then w'.log == w.log
    else if Executes(w, cid, tool, f) then
      w'.log == w.log + [ToolCalled(cid, tool, f.args), ToolFinished(cid, r.value.Ok?)] && r != Some(Failed(PendingApproval))
    else w'.log == w.log + [ToolDenied(cid)]
  }

  /** Asking keeps the queue in order and every request in it as it was. */
  lemma AskedKeepsQueue(q: A.Queue, need: Need, cid: Cid, tool: string, args: string, agent: string, now: int)
    requires A.QueueOk(q)
    ensures
      var q' := Asked(q, need, cid, tool, args, agent, now);
      A.QueueOk(q') && A.Absorbs(q, q')
  {
    var row := A.NewRow(KindFor(need), agent, A.Subject([tool], args), A.BOARD, false, now, None);
    assert A.Possible(q, A.OpRequest(cid, row));
    A.StepKeepsQueue(q, A.OpRequest(cid, row));
  }

  // ------------------------------------------------------------ a process that dies

  /** How far a call has come: money held, approval asked for, execution announced, money paid if the commit allows it. */
  datatype Stage = HELD | ASKED | STARTED | PAID

  /** The call comes to this stage. */
  predicate Reaches(w: World, cid: Cid, tool: string, f: Facts, stage: Stage) {
    match stage
    case HELD => Admitted(w, cid, tool, f)
    case ASKED => Admitted(w, cid, tool, f) && Gated(w, tool)
    case STARTED => Executes(w, cid, tool, f)
    case PAID => Executes(w, cid, tool, f) && f.outcome == Returns
  }

  /** What a call has left behind when it comes to a stage. */
  function At(w: World, cid: Cid, tool: string, agent: string, f: Facts, now: int, stage: Stage): World {
    var estimate := EstimateOf(w.defs, tool, f.args);
    var held := Reserve(w.ledger, estimate, cid);
    w.(ledger := if stage == PAID then Commit(held, |w.ledger.reservations|, estimate) else held,
       queue := if stage == HELD then w.queue else QueueAfter(w, cid, tool, agent, f, now),
       log := if stage == STARTED || stage == PAID then w.log + [ToolCalled(cid, tool, f.args)] else w.log)
  }

  /** The worlds at the stages passed: asked if gated, started if the executor ran, paid if it returned. */
  function Stops(gated: bool, ran: bool, returned: bool, held: World, asked: World, started: World, paid: World): map<Stage, World> {
    var m0 := map[HELD := held];
    var m1 := if gated then m0[ASKED := asked] else m0;
    var m2 := if ran then m1[STARTED := started] else m1;
    if ran && returned then m2[PAID := paid] else m2
  }

  /** The stages a call comes to, each with what it has left behind there. */
  function Trail(w: World, cid: Cid, tool: string, agent: string, f: Facts, now: int): map<Stage, World> {
    if !Admitted(w, cid, tool, f) then map[]
    else
      Stops(Gated(w, tool), Executes(w, cid, tool, f), f.outcome == Returns,
            At(w, cid, tool, agent, f, now, HELD), At(w, cid, tool, agent, f, now, ASKED),
            At(w, cid, tool, agent, f, now, STARTED), At(w, cid, tool, agent, f, now, PAID))
  }

  lemma StopsAreTrail(w: World, cid: Cid, tool: string, agent: string, f: Facts, now: int,
      ran: bool, held: World, asked: World, started: World, paid: World)
    requires Admitted(w, cid, tool, f) && (ran <==> Executes(w, cid, tool, f))
    requires held == At(w, cid, tool, agent, f, now, HELD) && asked == At(w, cid, tool, agent, f, now, ASKED)
    requires ran ==> started == At(w, cid, tool, agent, f, now, STARTED)
    requires ran && f.outcome == Returns ==> paid == At(w, cid, tool, agent, f, now, PAID)
    ensures Stops(Gated(w, tool), ran, f.outcome == Returns, held, asked, started, paid) == Trail(w, cid, tool, agent, f, now)
  {
  }

  lemma StopsAt(gated: bool, ran: bool, returned: bool, held: World, asked: World, started: World, paid: World, stage: Stage)
    ensures
      var trail := Stops(gated, ran, returned, held, asked, started, paid);
      && (stage in trail <==> match stage case HELD => true case ASKED => gated case STARTED => ran case PAID => ran && returned)
      && (stage in trail ==> trail[stage] == match stage case HELD => held case ASKED => asked case STARTED => started case PAID => paid)
  {
  }

  /** Those of a trail are exactly the stages the call reaches, with what is left behind there. */
  lemma TrailHasStages(w: World, cid: Cid, tool: string, agent: string, f: Facts, now: int, stage: Stage)
    ensures
      var trail := Trail(w, cid, tool, agent, f, now);
      && (stage in trail <==> Reaches(w, cid, tool, f, stage))
      && (stage in trail ==> trail[stage] == At(w, cid, tool, agent, f, now, stage))
  {
    var held, asked := At(w, cid, tool, agent, f, now, HELD), At(w, cid, tool, agent, f, now, ASKED);
    var started, paid := At(w, cid, tool, agent, f, now, STARTED), At(w, cid, tool, agent, f, now, PAID);
    StopsAt(Gated(w, tool), Executes(w, cid, tool, f), f.outcome == Returns, held, asked, started, paid, stage);
  }

  /** The next process: the tables and the event log are as they were and the same tools registered, the results gone. */
  function Restarted(w: World): World {
    w.(completed := map[])
  }

  class ToolService {
    const cost: Budget
    const approvals: ApprovalQueue
    var defs: map<string, ToolDef>
    var completed: map<Cid, ToolResult>
    var log: seq<Event>

    ghost function State(): World
      reads this, cost, approvals
    {
      World(defs, completed, log, cost.Books(), approvals.Contents())
    }

    /** A new process, over the event log so far: nothing registered, and no results. */
    constructor (cost: Budget, approvals: ApprovalQueue, log: seq<Event>)
      ensures this.cost == cost && this.approvals == approvals
      ensures State() == World(map[], map[], log, cost.Books(), approvals.Contents())
    {
      this.cost, this.approvals, this.log := cost, approvals, log;
      defs, completed := map[], map[];
    }

    method Register(name: string, def: ToolDef) returns (ok: bool)
      modifies this
      ensures ok <==> name !in old(defs)
      ensures defs == if ok then old(defs)[name := def] else old(defs)
      ensures completed == old(completed) && log == old(log)
    {
      ok := name !in defs;
      if ok {
        defs := defs[name := def];
      }
    }

    method Fail(cid: Cid, code: ErrorCode, event: Event) returns (r: Option<ToolResult>)
      modifies this`completed, this`log
      ensures r == Some(Failed(code))
      ensures completed == old(completed)[cid := Failed(code)] && log == old(log) + [event]
    {
      log := log + [event];
      completed := completed[cid := Failed(code)];
      r := Some(Failed(code));
    }

    /** One call, and the worlds it passes through, stage by stage. */
    method Invoke(agent: string, tool: string, cid: Cid, f: Facts, now: int)
      returns (r: Option<ToolResult>, ghost trail: map<Stage, World>)
      requires cost.Valid() && approvals.Valid()
      modifies this, cost, approvals
      ensures Invoked(old(State()), cid, tool, agent, f, now, State(), r)
      ensures trail == Trail(old(State()), cid, tool, agent, f, now)
    {
      ghost var w := State();
      NothingHeld(w.ledger, cid);
      trail := map[];
      if cid in completed {
        return Some(completed[cid]), trail;
      }
      if tool !in defs {
        r := Fail(cid, UnknownTool, ToolDenied(cid));
        return;
      }
      if !f.agentKnown {
        return None, trail;
      }
      var refusal := GateRefusal(f);
      if refusal.Some? {
        r := Fail(cid, refusal.value, ToolDenied(cid));
        return;
      }
      var estimate := EstimateOf(defs, tool, f.args);
      var reservation := cost.Reserve(estimate, cid);
      if reservation.None? {
        r := Fail(cid, ErrorCode.OverBudget, ToolDenied(cid));
        return;
      }
      r, trail := PastHold(agent, tool, cid, f, estimate, reservation.value, now, w);
    }

    /** With the estimate held, w being the world before the call. */
    method PastHold(agent: string, tool: string, cid: Cid, f: Facts, estimate: nat, rid: nat, now: int, ghost w: World)
      returns (r: Option<ToolResult>, ghost trail: map<Stage, World>)
      requires cost.Valid() && approvals.Valid() && Admitted(w, cid, tool, f)
      requires State() == At(w, cid, tool, agent, f, now, HELD)
      requires estimate == EstimateOf(w.defs, tool, f.args) && rid == |w.ledger.reservations|
      modifies this, cost, approvals
      ensures Invoked(w, cid, tool, agent, f, now, State(), r) && trail == Trail(w, cid, tool, agent, f, now)
    {
      ghost var held, asked, ran, started, paid := State(), State(), false, State(), State();
      r, asked, ran, started, paid := Admit(agent, tool, cid, f, estimate, rid, now, w.ledger);
      trail := Stops(Gated(w, tool), ran, f.outcome == Returns, held, asked, started, paid);
      StopsAreTrail(w, cid, tool, agent, f, now, ran, held, asked, started, paid);
    }

    /** With the estimate held: ask for approval if the tool needs it, then execute. */
    method Admit(agent: string, tool: string, cid: Cid, f: Facts, estimate: nat, rid: nat, now: int, ghost before: Ledger)
      returns (r: Option<ToolResult>, ghost asked: World, ghost ran: bool, ghost started: World, ghost paid: World)
      requires cost.Valid() && approvals.Valid() && tool in defs && CanAfford(before, estimate)
      requires cost.Books() == Reserve(before, estimate, cid) && rid == |before.reservations|
      modifies this, cost, approvals
      ensures cost.Valid() && approvals.Valid() && defs == old(defs) && r.Some?
      ensures approvals.Contents() == Asked(old(approvals.Contents()), defs[tool].need, cid, tool, f.args, agent, now)
      ensures
        var verdict := VerdictOf(old(approvals.Contents()), cid);
        && (ran <==> defs[tool].need == NoApproval || verdict == VerdictApproved)
        && r.value == if ran then Ran(before, estimate, f.outcome)
                      else Failed(if verdict == VerdictPending then PendingApproval else ApprovalDenied)
      ensures log == old(log) + if ran then [ToolCalled(cid, tool, f.args), ToolFinished(cid, r.value.Ok?)] else [ToolDenied(cid)]
      ensures ran ==> r != Some(Failed(PendingApproval))
      ensures completed == if r == Some(Failed(PendingApproval)) then old(completed) else old(completed)[cid := r.value]
      ensures Settled(before, cost.Books(), cid, r.value.Ok?, OkCost(r))
      ensures asked == old(State()).(queue := approvals.Contents())
      ensures ran ==> started == asked.(log := old(log) + [ToolCalled(cid, tool, f.args)])
      ensures ran && f.outcome == Returns ==> paid == started.(ledger := Commit(started.ledger, rid, estimate))
    {
      ran := true;
      if defs[tool].need != NoApproval {
        var verdict := HandleApproval(tool, f.args, agent, cid, now);
        if verdict != VerdictApproved {
          asked, ran := State(), false;
          started, paid := asked, asked;
          r := TurnAway(cid, verdict, rid, estimate, before);
          return;
        }
      }
      asked := State();
      r, started, paid := Execute(tool, cid, f, estimate, rid, before);
    }

    /** Not approved: let go of what is held. Only a denial is cached. */
    method TurnAway(cid: Cid, verdict: Verdict, rid: nat, estimate: nat, ghost before: Ledger) returns (r: Option<ToolResult>)
      requires cost.Valid() && CanAfford(before, estimate) && verdict != VerdictApproved
      requires cost.Books() == Reserve(before, estimate, cid) && rid == |before.reservations|
      modifies this`completed, this`log, cost
      ensures cost.Valid() && r == Some(Failed(if verdict == VerdictPending then PendingApproval else ApprovalDenied))
      ensures completed == if verdict == VerdictPending then old(completed) else old(completed)[cid := r.value]
      ensures log == old(log) + [ToolDenied(cid)] && Settled(before, cost.Books(), cid, false, 0)
    {
      HoldAndRelease(before, estimate, cid);
      var _ := cost.Release(rid);
      if verdict == VerdictPending {
        log := log + [ToolDenied(cid)];
        return Some(Failed(PendingApproval));
      }
      r := Fail(cid, ApprovalDenied, ToolDenied(cid));
    }

    method HandleApproval(tool: string, args: string, agent: string, cid: Cid, now: int) returns (v: Verdict)
      requires approvals.Valid() && tool in defs && defs[tool].need != NoApproval
      modifies approvals
      ensures approvals.Valid()
      ensures approvals.Contents() == Asked(old(approvals.Contents()), defs[tool].need, cid, tool, args, agent, now)
      ensures v == VerdictOf(old(approvals.Contents()), cid)
    {
      var subject := A.Subject([tool], args);
      var row := approvals.Request(cid, KindFor(defs[tool].need), agent, subject, A.BOARD, false, now, None);
      if row.status == A.APPROVED {
        return VerdictApproved;
      }
      if row.status == A.PENDING {
        return VerdictPending;
      }
      v := VerdictDenied;
    }

    /** The second half of invoke: announce, execute, and release or commit what is held. */
    method Execute(tool: string, cid: Cid, f: Facts, estimate: nat, rid: nat, ghost before: Ledger)
      returns (r: Option<ToolResult>, ghost started: World, ghost paid: World)
      requires cost.Valid() && CanAfford(before, estimate)
      requires cost.Books() == Reserve(before, estimate, cid) && rid == |before.reservations|
      modifies this, cost
      ensures cost.Valid() && defs == old(defs)
      ensures r.Some? && completed == old(completed)[cid := r.value] && r != Some(Failed(PendingApproval))
      ensures log == old(log) + [ToolCalled(cid, tool, f.args), ToolFinished(cid, r.value.Ok?)]
      ensures r.value == Ran(before, estimate, f.outcome)
      ensures Settled(before, cost.Books(), cid, r.value.Ok?, OkCost(r))
      ensures started == old(State()).(log := old(log) + [ToolCalled(cid, tool, f.args)])
      ensures f.outcome == Returns ==> paid == started.(ledger := Commit(started.ledger, rid, estimate))
    {
      log := log + [ToolCalled(cid, tool, f.args)];
      started := State();
      paid := started;
      match f.outcome
      case RaisesToolError => r := LetGo(cid, ToolFailed, rid, estimate, before);
      case RaisesOther => r := LetGo(cid, ExecutorFailed, rid, estimate, before);
      case ReturnsWrongType => r := LetGo(cid, ExecutorFailed, rid, estimate, before);
      case Returns =>
        HoldAndCommit(before, estimate, cid);
        var charge := cost.Commit(rid, estimate);
        paid := State();
        if !charge.Done? {
          r := Fail(cid, CommitFailed, ToolFinished(cid, false));
        } else {
          log := log + [ToolFinished(cid, true)];
          completed := completed[cid := Ok(estimate)];
          r := Some(Ok(estimate));
        }
    }

    /** A failed execution: release what is held and fail. */
    method LetGo(cid: Cid, code: ErrorCode, rid: nat, estimate: nat, ghost before: Ledger) returns (r: Option<ToolResult>)
      requires cost.Valid() && CanAfford(before, estimate)
      requires cost.Books() == Reserve(before, estimate, cid) && rid == |before.reservations|
      modifies this`completed, this`log, cost
      ensures cost.Valid() && r == Some(Failed(code)) && completed == old(completed)[cid := Failed(code)]
      ensures log == old(log) + [ToolFinished(cid, false)]
      ensures Settled(before, cost.Books(), cid, false, 0)
    {
      HoldAndRelease(before, estimate, cid);
      var _ := cost.Release(rid);
      r := Fail(cid, code, ToolFinished(cid, false));
    }
  }
}
