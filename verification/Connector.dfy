/**
 The gateway to external services (modules/connector/connector.py): rate limit, approval, hold, execute
 with retries, sanitize, commit.
 */
module Connector {
  import opened Common
  import opened Money
  import opened BudgetService
  import opened Holds
  import A = Approvals
  import opened ApprovalService
  import T = TokenBucket

  type Cid = string

  const RETRYABLE_LIMIT := 3

  datatype Risk = LOW | MEDIUM | HIGH | CRITICAL
  /** A registered action. Arguments are compared as a whole. */
  datatype Action = Action(threshold: Option<nat>, idempotent: bool, estimator: string -> nat)
  datatype Service = Service(risk: Risk, actions: map<string, Action>)

  datatype ErrorCode =
    | UnknownService | UnknownAction | NotAllowed | BadArgs | RateLimited | ApprovalDenied
    | NoBudget | ExternalFailure | Malformed | CommitFailed

  datatype Result = Ok(cost: nat) | Pending | Failed(code: ErrorCode)

  datatype Verdict = VerdictApproved | VerdictPending | VerdictDenied

  datatype CallStatus = Issued | Error | Succeeded
  datatype Event = ExternalCall(cid: Cid, status: CallStatus)

  /** What one attempt of the executor comes to. */
  datatype Attempt = Returns | TransientFailure | OtherException

  /** The arguments, and what the call's collaborators answer: allowlist, schema, each executor attempt, sanitizer. */
  datatype Facts = Facts(args: string, allowed: bool, argsValid: bool, attempt: nat -> Attempt, sanitized: bool)

  datatype World = World(
    services: map<string, Service>, completed: map<Cid, Result>, log: seq<Event>,
    ledger: Ledger, queue: A.Queue, limits: map<string, T.Limit>, buckets: map<string, T.Bucket>)

  function Key(service: string, action: string): string {
    service + ":" + action
  }

  predicate Known(w: World, service: string, action: string) {
    service in w.services && action in w.services[service].actions
  }

  /** The checks before anything is consumed, in order. */
  function LookupRefusal(services: map<string, Service>, service: string, action: string, f: Facts): Option<ErrorCode> {
    if service !in services then Some(UnknownService)
    else if action !in services[service].actions then Some(UnknownAction)
    else if !f.allowed then Some(NotAllowed)
    else if !f.argsValid then Some(BadArgs)
    else None
  }

  function MaxAttempts(a: Action): nat {
    if a.idempotent then RETRYABLE_LIMIT else 1
  }

  /** Attempt k is the first that is not a transient failure. */
  predicate FirstDefinite(f: Facts, k: nat) {
    !f.attempt(k).TransientFailure? && forall j: nat :: j < k ==> f.attempt(j).TransientFailure?
  }

  /** Some permitted attempt returns, all earlier ones having failed transiently. */
  ghost predicate ExecutionReturns(a: Action, f: Facts) {
    exists k: nat :: k < MaxAttempts(a) && FirstDefinite(f, k) && f.attempt(k).Returns?
  }

  predicate AutoApproved(s: Service, a: Action, args: string) {
    s.risk == LOW && a.threshold.Some? && a.estimator(args) <= a.threshold.value
  }

  predicate RateAllows(w: World, service: string, action: string, now: real) {
    var key := Key(service, action);
    key in w.limits && key in w.buckets ==> T.Ask(w.buckets[key], w.limits[key], now).Granted?
  }

  /** The call gets as far as its approval. */
  predicate Asks(w: World, cid: Cid, service: string, action: string, f: Facts, now: real) {
    && cid !in w.completed && Known(w, service, action) && f.allowed && f.argsValid
    && RateAllows(w, service, action, now)
  }

  /** The executor is reached. */
  predicate Executes(w: World, cid: Cid, service: string, action: string, f: Facts, now: real) {
    && Asks(w, cid, service, action, f, now)
    && var s, a := w.services[service], w.services[service].actions[action];
    && (AutoApproved(s, a, f.args) || A.Approved(w.queue, cid))
    && CanAfford(w.ledger, a.estimator(f.args))
  }

  /** Everything that must come together for an uncached call to succeed. */
  ghost predicate Succeeds(w: World, cid: Cid, service: string, action: string, f: Facts, now: real) {
    && Executes(w, cid, service, action, f, now)
    && var a := w.services[service].actions[action];
    && ExecutionReturns(a, f) && f.sanitized
    && !UsesUp(w.ledger, a.estimator(f.args))
  }

  /** Holding this much brings usage to a positive total exactly. */
  predicate UsesUp(l: Ledger, amount: nat) {
    l.total > 0 && Used(l) + amount == l.total
  }

  function VerdictOf(q: A.Queue, s: Service, a: Action, args: string, cid: Cid): Verdict {
    if AutoApproved(s, a, args) || A.Approved(q, cid) then VerdictApproved
    else if A.Terminal(q, cid) then VerdictDenied
    else VerdictPending
  }

  /** What an execution with the estimate held comes to. */
  ghost function Ran(before: Ledger, a: Action, f: Facts): Result {
    if !ExecutionReturns(a, f) then Failed(ExternalFailure)
    else if !f.sanitized then Failed(Malformed)
    else if UsesUp(before, a.estimator(f.args)) then Failed(CommitFailed)
    else Ok(a.estimator(f.args))
  }

  /** From the approval on. */
  ghost function Admitted(before: Ledger, q: A.Queue, s: Service, a: Action, cid: Cid, f: Facts): Result {
    var verdict := VerdictOf(q, s, a, f.args, cid);
    if verdict == VerdictPending then Pending
    else if verdict == VerdictDenied then Failed(ApprovalDenied)
    else if !CanAfford(before, a.estimator(f.args)) then Failed(NoBudget)
    else Ran(before, a, f)
  }

  /** What an uncached call answers: the first failing gate, or what the execution comes to. */
  ghost function Answer(w: World, cid: Cid, service: string, action: string, f: Facts, now: real): Result {
    var refusal := LookupRefusal(w.services, service, action, f);
    if refusal.Some? then Failed(refusal.value)
    else if !RateAllows(w, service, action, now) then Failed(RateLimited)
    else Admitted(w.ledger, w.queue, w.services[service], w.services[service].actions[action], cid, f)
  }

  /** Remark, read off Answer: an uncached call succeeds iff everything comes together, then at the estimated cost. */
  lemma SuccessNeedsAll(w: World, cid: Cid, service: string, action: string, f: Facts, now: real)
    requires cid !in w.completed
    ensures Answer(w, cid, service, action, f, now).Ok? <==> Succeeds(w, cid, service, action, f, now)
    ensures Answer(w, cid, service, action, f, now).Ok? ==>
              Answer(w, cid, service, action, f, now).cost == w.services[service].actions[action].estimator(f.args)
  {
  }

  /** The approval a call asks for, unless it approves itself or the id is known to the queue already. */
  function Asked(q: A.Queue, s: Service, a: Action, names: seq<string>, agent: string, args: string, cid: Cid, day: int): A.Queue {
    if AutoApproved(s, a, args) then q
    else A.Request(q, cid, A.NewRow(A.EXTERNAL_ACTION, agent, A.Subject(names, args), A.BOARD, s.risk == CRITICAL, day, None))
  }

  /** Asking keeps the queue in order and every request in it as it was. */
  lemma AskedKeepsQueue(q: A.Queue, s: Service, a: Action, names: seq<string>, agent: string, args: string, cid: Cid, day: int)
    requires A.QueueOk(q)
    ensures
      var q' := Asked(q, s, a, names, agent, args, cid, day);
      A.QueueOk(q') && A.Absorbs(q, q')
  {
    var row := A.NewRow(A.EXTERNAL_ACTION, agent, A.Subject(names, args), A.BOARD, s.risk == CRITICAL, day, None);
    assert A.Possible(q, A.OpRequest(cid, row));
    A.StepKeepsQueue(q, A.OpRequest(cid, row));
  }

  function QueueAfter(w: World, cid: Cid, service: string, action: string, agent: string, f: Facts, now: real, day: int): A.Queue {
    if Asks(w, cid, service, action, f, now)
    then Asked(w.queue, w.services[service], w.services[service].actions[action], [service, action], agent, f.args, cid, day)
    else w.queue
  }

  /** A call that gets as far as the rate limiter takes a token, whatever comes of it. */
  function BucketsAfter(w: World, cid: Cid, service: string, action: string, f: Facts, now: real): map<string, T.Bucket> {
    var key := Key(service, action);
    if cid !in w.completed && LookupRefusal(w.services, service, action, f).None? && key in w.limits && key in w.buckets
    then w.buckets[key := T.After(w.buckets[key], w.limits[key], now)]
    else w.buckets
  }

  function OkCost(r: Result): nat {
    if r.Ok? then r.cost else 0
  }

  predicate Cacheable(r: Result) {
    !r.Pending? && r != Failed(RateLimited)
  }

  function StatusOf(r: Result): CallStatus {
    match r
    case Ok(_) => Succeeded
    case Pending => Issued
    case Failed(_) => Error
  }

  /** One call, with the number of times it ran the executor. */
  ghost predicate Called(w: World, cid: Cid, service: string, action: string, agent: string, f: Facts, now: real, day: int,
      w': World, r: Result, attempts: nat)
  {
    && w'.services == w.services && w'.limits == w.limits
    && (cid in w.completed ==> w' == w && r == w.completed[cid] && attempts == 0)
    && (cid !in w.completed ==>
          && r == Answer(w, cid, service, action, f, now)
          && w'.log == w.log + [ExternalCall(cid, StatusOf(r))])
    && Settled(w.ledger, w'.ledger, cid, cid !in w.completed && r.Ok?, OkCost(r))
    && w'.completed == (if cid !in w.completed && Cacheable(r) then w.completed[cid := r] else w.completed)
    && (attempts > 0 <==> Executes(w, cid, service, action, f, now))
    && (attempts > 0 ==> attempts <= MaxAttempts(w.services[service].actions[action]) && Cacheable(r))
    && w'.buckets == BucketsAfter(w, cid, service, action, f, now)
    && w'.queue == QueueAfter(w, cid, service, action, agent, f, now, day)
    && LedgerOk(w'.ledger) && A.QueueOk(w'.queue)
  }

  // ------------------------------------------------------------ a process that dies

  /** How far a call has come: approval asked for, money held, money paid if the commit allows it. */
  datatype Stage = ASKED | HELD | PAID

  /** The call comes to this stage. */
  ghost predicate Reaches(w: World, cid: Cid, service: string, action: string, f: Facts, now: real, stage: Stage) {
    && Asks(w, cid, service, action, f, now)
    && var s, a := w.services[service], w.services[service].actions[action];
    match stage
    case ASKED => !AutoApproved(s, a, f.args)
    case HELD => Executes(w, cid, service, action, f, now)
    case PAID => Executes(w, cid, service, action, f, now) && ExecutionReturns(a, f) && f.sanitized
  }

  /** What a call has left behind when it comes to a stage. */
  function At(w: World, cid: Cid, service: string, action: string, agent: string, f: Facts, now: real, day: int, stage: Stage): World
    requires Known(w, service, action)
  {
    var estimate := w.services[service].actions[action].estimator(f.args);
    var held := Reserve(w.ledger, estimate, cid);
    w.(ledger := match stage case ASKED => w.ledger case HELD => held case PAID => Commit(held, |w.ledger.reservations|, estimate),
       queue := QueueAfter(w, cid, service, action, agent, f, now, day),
       buckets := BucketsAfter(w, cid, service, action, f, now))
  }

  /** The worlds at the stages passed: asked unless auto-approved, held if the executor ran, paid if it returned well. */
  function Stops(auto: bool, ran: bool, returned: bool, asked: World, held: World, paid: World): map<Stage, World> {
    var m0 := if auto then map[] else map[ASKED := asked];
    var m1 := if ran then m0[HELD := held] else m0;
    if ran && returned then m1[PAID := paid] else m1
  }

  /** The stages a call comes to, each with what it has left behind there. */
  ghost function Trail(w: World, cid: Cid, service: string, action: string, agent: string, f: Facts, now: real, day: int)
    : map<Stage, World>
  {
    if !Asks(w, cid, service, action, f, now) then map[]
    else
      var s, a := w.services[service], w.services[service].actions[action];
      Stops(AutoApproved(s, a, f.args), Executes(w, cid, service, action, f, now), ExecutionReturns(a, f) && f.sanitized,
            At(w, cid, service, action, agent, f, now, day, ASKED), At(w, cid, service, action, agent, f, now, day, HELD),
            At(w, cid, service, action, agent, f, now, day, PAID))
  }

  lemma StopsAreTrail(w: World, cid: Cid, service: string, action: string, agent: string, f: Facts, now: real, day: int,
      ran: bool, asked: World, held: World, paid: World)
    requires Asks(w, cid, service, action, f, now) && (ran <==> Executes(w, cid, service, action, f, now))
    requires asked == At(w, cid, service, action, agent, f, now, day, ASKED)
    requires ran ==> held == At(w, cid, service, action, agent, f, now, day, HELD)
    requires
      var a := w.services[service].actions[action];
      ran && ExecutionReturns(a, f) && f.sanitized ==> paid == At(w, cid, service, action, agent, f, now, day, PAID)
    ensures
      var s, a := w.services[service], w.services[service].actions[action];
      Stops(AutoApproved(s, a, f.args), ran, ExecutionReturns(a, f) && f.sanitized, asked, held, paid)
        == Trail(w, cid, service, action, agent, f, now, day)
  {
  }

  lemma StopsAt(auto: bool, ran: bool, returned: bool, asked: World, held: World, paid: World, stage: Stage)
    ensures
      var trail := Stops(auto, ran, returned, asked, held, paid);
      && (stage in trail <==> match stage case ASKED => !auto case HELD => ran case PAID => ran && returned)
      && (stage in trail ==> trail[stage] == match stage case ASKED => asked case HELD => held case PAID => paid)
  {
  }

  /** Those of a trail are exactly the stages the call reaches, with what is left behind there. */
  lemma TrailHasStages(w: World, cid: Cid, service: string, action: string, agent: string, f: Facts, now: real, day: int, stage: Stage)
    ensures
      var trail := Trail(w, cid, service, action, agent, f, now, day);
      && (stage in trail <==> Reaches(w, cid, service, action, f, now, stage))
      && (stage in trail ==> trail[stage] == At(w, cid, service, action, agent, f, now, day, stage))
  {
    if Asks(w, cid, service, action, f, now) {
      var s, a := w.services[service], w.services[service].actions[action];
      var asked, held := At(w, cid, service, action, agent, f, now, day, ASKED), At(w, cid, service, action, agent, f, now, day, HELD);
      StopsAt(AutoApproved(s, a, f.args), Executes(w, cid, service, action, f, now), ExecutionReturns(a, f) && f.sanitized,
              asked, held, At(w, cid, service, action, agent, f, now, day, PAID), stage);
    }
  }

  /** How often the executor can have run when a call is at this stage. */
  predicate CanHaveTried(a: Action, stage: Stage, attempts: nat) {
    match stage
    case ASKED => attempts == 0
    case HELD => attempts <= MaxAttempts(a)
    case PAID => 1 <= attempts <= MaxAttempts(a)
  }

  /** The next process: the tables, the event log and the registry are as they were, the results gone, the buckets full. */
  function Restarted(w: World, now: real): World {
    w.(completed := map[], buckets := map key | key in w.limits :: T.Bucket(w.limits[key].capacity as real, now))
  }

  class ConnectorService {
    const cost: Budget
    const approvals: ApprovalQueue
    const rate: T.RateLimiter
    const services: map<string, Service>
    var completed: map<Cid, Result>
    var log: seq<Event>

    ghost function State(): World
      reads this, cost, approvals, rate
    {
      World(services, completed, log, cost.Books(), approvals.Contents(), rate.configs, rate.buckets)
    }

    ghost predicate Valid()
      reads this, cost, approvals, rate
    {
      cost.Valid() && approvals.Valid() && rate.Valid()
    }

    /** A new process, over the event log so far: no results. */
    constructor (cost: Budget, approvals: ApprovalQueue, rate: T.RateLimiter, services: map<string, Service>, log: seq<Event>)
      ensures this.cost == cost && this.approvals == approvals && this.rate == rate
      ensures State() == World(services, map[], log, cost.Books(), approvals.Contents(), rate.configs, rate.buckets)
    {
      this.cost, this.approvals, this.rate, this.services, this.log := cost, approvals, rate, services, log;
      completed := map[];
    }

    /** Failures are cached for good, except a rate limit. */
    method Fail(cid: Cid, code: ErrorCode) returns (r: Result)
      modifies this`completed, this`log
      ensures r == Failed(code)
      ensures completed == if code == RateLimited then old(completed) else old(completed)[cid := Failed(code)]
      ensures log == old(log) + [ExternalCall(cid, Error)]
    {
      r := Failed(code);
      log := log + [ExternalCall(cid, Error)];
      if code != RateLimited {
        completed := completed[cid := r];
      }
    }

    /** One call, with the number of times it ran the executor, and the worlds it passes through, stage by stage. */
    method Call(agent: string, service: string, action: string, cid: Cid, f: Facts, now: real, day: int)
      returns (r: Result, ghost attempts: nat, ghost trail: map<Stage, World>)
      requires Valid()
      modifies this, cost, approvals, rate
      ensures Valid() && Called(old(State()), cid, service, action, agent, f, now, day, State(), r, attempts)
      ensures trail == Trail(old(State()), cid, service, action, agent, f, now, day)
      ensures attempts > 0 ==>
                && service in services && action in services[service].actions
                && var s, a := services[service], services[service].actions[action];
                   (s.risk == LOW && a.threshold.Some? && a.estimator(f.args) <= a.threshold.value)
                   || A.Approved(old(approvals.Contents()), cid)
    {
      ghost var w := State();
      NothingHeld(w.ledger, cid);
      attempts, trail := 0, map[];
      if cid in completed {
        r := completed[cid];
        return;
      }
      var refusal := LookupRefusal(services, service, action, f);
      if refusal.Some? {
        r := Fail(cid, refusal.value);
        return;
      }
      var answer := rate.Acquire(Key(service, action), now);
      if answer.RetryAfter? {
        r := Fail(cid, RateLimited);
        return;
      }
      r, attempts, trail := PastRate(agent, service, action, cid, f, day, w, now);
    }

    /** Past the rate limit, w being the world before the call. */
    method PastRate(agent: string, service: string, action: string, cid: Cid, f: Facts, day: int, ghost w: World, ghost now: real)
      returns (r: Result, ghost attempts: nat, ghost trail: map<Stage, World>)
      requires Valid() && Asks(w, cid, service, action, f, now)
      requires State() == w.(buckets := BucketsAfter(w, cid, service, action, f, now))
      modifies this`completed, this`log, cost, approvals
      ensures Valid() && Called(w, cid, service, action, agent, f, now, day, State(), r, attempts)
      ensures trail == Trail(w, cid, service, action, agent, f, now, day)
    {
      var s, a := services[service], services[service].actions[action];
      ghost var asked, held, paid;
      r, attempts, asked, held, paid := Admit(s, a, [service, action], agent, cid, f, day);
      trail := Stops(AutoApproved(s, a, f.args), attempts > 0, ExecutionReturns(a, f) && f.sanitized, asked, held, paid);
      StopsAreTrail(w, cid, service, action, agent, f, now, day, attempts > 0, asked, held, paid);
    }

    /** From the approval on: hold, execute, commit. */
    method Admit(s: Service, a: Action, names: seq<string>, agent: string, cid: Cid, f: Facts, day: int)
      returns (r: Result, ghost attempts: nat, ghost asked: World, ghost held: World, ghost paid: World)
      requires cost.Valid() && approvals.Valid()
      modifies this`completed, this`log, cost, approvals
      ensures cost.Valid() && approvals.Valid()
      ensures approvals.Contents() == Asked(old(approvals.Contents()), s, a, names, agent, f.args, cid, day)
      ensures r == Admitted(old(cost.Books()), old(approvals.Contents()), s, a, cid, f)
      ensures attempts > 0 <==> CanAfford(old(cost.Books()), a.estimator(f.args))
                                && ((s.risk == LOW && a.threshold.Some? && a.estimator(f.args) <= a.threshold.value)
                                    || A.Approved(old(approvals.Contents()), cid))
      ensures attempts > 0 ==> attempts <= MaxAttempts(a) && Cacheable(r)
      ensures completed == if Cacheable(r) then old(completed)[cid := r] else old(completed)
      ensures log == old(log) + [ExternalCall(cid, StatusOf(r))]
      ensures Settled(old(cost.Books()), cost.Books(), cid, r.Ok?, OkCost(r))
      ensures asked == old(State()).(queue := Asked(old(approvals.Contents()), s, a, names, agent, f.args, cid, day))
      ensures attempts > 0 ==> held == asked.(ledger := Reserve(old(cost.Books()), a.estimator(f.args), cid))
      ensures attempts > 0 && ExecutionReturns(a, f) && f.sanitized ==>
                paid == asked.(ledger := Commit(held.ledger, |old(cost.Books()).reservations|, a.estimator(f.args)))
    {
      NothingHeld(cost.Books(), cid);
      attempts := 0;
      var verdict := EvaluateApproval(s, a, names, agent, f.args, cid, day);
      asked := State();
      held, paid := asked, asked;
      if verdict != VerdictApproved {
        r := TurnAway(cid, verdict);
        return;
      }
      r, attempts, held, paid := Spend(a, cid, f);
    }

    /** Not approved: only a denial is cached. */
    method TurnAway(cid: Cid, verdict: Verdict) returns (r: Result)
      requires verdict != VerdictApproved
      modifies this`completed, this`log
      ensures r == if verdict == VerdictPending then Pending else Failed(ApprovalDenied)
      ensures completed == if Cacheable(r) then old(completed)[cid := r] else old(completed)
      ensures log == old(log) + [ExternalCall(cid, StatusOf(r))]
    {
      if verdict == VerdictPending {
        log := log + [ExternalCall(cid, Issued)];
        return Pending;
      }
      r := Fail(cid, ApprovalDenied);
    }

    /** Approved: hold the estimate, then execute. */
    method Spend(a: Action, cid: Cid, f: Facts) returns (r: Result, ghost attempts: nat, ghost held: World, ghost paid: World)
      requires cost.Valid()
      modifies this`completed, this`log, cost
      ensures cost.Valid()
      ensures
        var l, estimate := old(cost.Books()), a.estimator(f.args);
        && r == (if CanAfford(l, estimate) then Ran(l, a, f) else Failed(NoBudget))
        && (attempts > 0 <==> CanAfford(l, estimate)) && attempts <= MaxAttempts(a)
        && (CanAfford(l, estimate) ==> held == old(State()).(ledger := Reserve(l, estimate, cid)))
        && (CanAfford(l, estimate) && ExecutionReturns(a, f) && f.sanitized ==>
              paid == old(State()).(ledger := Commit(Reserve(l, estimate, cid), |l.reservations|, estimate)))
        && Settled(l, cost.Books(), cid, r.Ok?, OkCost(r))
      ensures Cacheable(r) && completed == old(completed)[cid := r]
      ensures log == old(log) + [ExternalCall(cid, StatusOf(r))]
    {
      ghost var before := cost.Books();
      NothingHeld(before, cid);
      attempts := 0;
      var reservation := cost.Reserve(a.estimator(f.args), cid);
      held := State();
      paid := held;
      if reservation.None? {
        r := Fail(cid, NoBudget);
        return;
      }
      r, attempts, paid := Execute(a, cid, f, reservation.value, before);
    }

    method EvaluateApproval(s: Service, a: Action, names: seq<string>, agent: string, args: string, cid: Cid, day: int) returns (v: Verdict)
      requires approvals.Valid()
      modifies approvals
      ensures approvals.Valid() && approvals.Contents() == Asked(old(approvals.Contents()), s, a, names, agent, args, cid, day)
      ensures v == VerdictOf(old(approvals.Contents()), s, a, args, cid)
      ensures
        s.risk != LOW || a.threshold.None? || a.estimator(args) > a.threshold.value ==>
          && cid in approvals.Contents().rows
          && (v == VerdictApproved <==> A.Approved(old(approvals.Contents()), cid))
    {
      if s.risk == LOW {
        if a.threshold.Some? && a.estimator(args) <= a.threshold.value {
          return VerdictApproved;
        }
      }
      var subject := A.Subject(names, args);
      var row := approvals.Request(cid, A.EXTERNAL_ACTION, agent, subject, A.BOARD, s.risk == CRITICAL, day, None);
      if row.status == A.APPROVED {
        return VerdictApproved;
      }
      if row.status == A.PENDING {
        return VerdictPending;
      }
      v := VerdictDenied;
    }

    /** Only transient failures are retried, and only for idempotent actions. */
    method ExecuteWithRetry(a: Action, f: Facts) returns (ok: bool, attempts: nat)
      ensures 1 <= attempts <= MaxAttempts(a)
      ensures ok <==> ExecutionReturns(a, f)
      ensures forall j: nat :: j < attempts - 1 ==> f.attempt(j).TransientFailure?
      ensures f.attempt(attempts - 1).TransientFailure? ==> attempts == MaxAttempts(a)
    {
      var limit := MaxAttempts(a);
      attempts := 0;
      ok := false;
      while attempts < limit
        invariant attempts <= limit && !ok
        invariant forall j: nat :: j < attempts ==> f.attempt(j).TransientFailure?
      {
        attempts := attempts + 1;
        match f.attempt(attempts - 1)
        case Returns =>
          assert FirstDefinite(f, attempts - 1);
          ok := true;
          return;
        case OtherException =>
          return;
        case TransientFailure =>
      }
    }

    method Execute(a: Action, cid: Cid, f: Facts, rid: nat, ghost before: Ledger)
      returns (r: Result, attempts: nat, ghost paid: World)
      requires cost.Valid() && CanAfford(before, a.estimator(f.args))
      requires cost.Books() == Reserve(before, a.estimator(f.args), cid) && rid == |before.reservations|
      modifies this`completed, this`log, cost
      ensures cost.Valid() && 1 <= attempts <= MaxAttempts(a)
      ensures Cacheable(r) && completed == old(completed)[cid := r]
      ensures log == old(log) + [ExternalCall(cid, StatusOf(r))]
      ensures r == Ran(before, a, f)
      ensures Settled(before, cost.Books(), cid, r.Ok?, OkCost(r))
      ensures
        ExecutionReturns(a, f) && f.sanitized ==>
          paid == old(State()).(ledger := Commit(old(cost.Books()), rid, a.estimator(f.args)))
    {
      paid := State();
      var ok;
      ok, attempts := ExecuteWithRetry(a, f);
      if !ok {
        r := LetGo(cid, ExternalFailure, rid, a.estimator(f.args), before);
        return;
      }
      if !f.sanitized {
        r := LetGo(cid, Malformed, rid, a.estimator(f.args), before);
        return;
      }
      HoldAndCommit(before, a.estimator(f.args), cid);
      var charge := cost.Commit(rid, a.estimator(f.args));
      paid := State();
      if !charge.Done? {
        r := Fail(cid, CommitFailed);
        return;
      }
      r := Ok(a.estimator(f.args));
      log := log + [ExternalCall(cid, Succeeded)];
      completed := completed[cid := r];
    }

    /** A failed execution: release what is held and fail. */
    method LetGo(cid: Cid, code: ErrorCode, rid: nat, estimate: nat, ghost before: Ledger) returns (r: Result)
      requires cost.Valid() && CanAfford(before, estimate) && code != RateLimited
      requires cost.Books() == Reserve(before, estimate, cid) && rid == |before.reservations|
      modifies this`completed, this`log, cost
      ensures cost.Valid() && r == Failed(code) && completed == old(completed)[cid := r]
      ensures log == old(log) + [ExternalCall(cid, Error)] && Settled(before, cost.Books(), cid, false, 0)
    {
      HoldAndRelease(before, estimate, cid);
      var _ := cost.Release(rid);
      r := Fail(cid, code);
    }
  }
}
