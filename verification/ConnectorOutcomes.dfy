/**
 What a call through the gateway comes to, told from the risk of its service and the state of rate, budget and
 approvals, and what the board has seen over every run (modules/connector/connector.py).
 */
module ConnectorOutcomes {
  import opened Common
  import opened Connector
  import opened ConnectorRuns
  import Money
  import M = MoneyOutcomes
  import Holds
  import A = Approvals
  import Told = ApprovalOutcomes
  import T = TokenBucket

  // ------------------------------------------------------------ one call

  /** Holding that much brings usage exactly to a positive total. */
  predicate Exhausts(l: Money.Ledger, amount: nat) {
    l.total > 0 && Money.Spent(l) + Money.Reserved(l) + amount == l.total
  }

  /** The service and action are registered, and this is the action. */
  ghost predicate Offers(w: World, service: string, action: string, s: Service, a: Action) {
    service in w.services && w.services[service] == s && action in s.actions && s.actions[action] == a
  }

  /** Only a service of low risk may do without the board, within the threshold that its action sets. */
  predicate SkipsBoard(s: Service, a: Action, args: string) {
    s.risk == LOW && a.threshold.Some? && a.estimator(args) <= a.threshold.value
  }

  /** The bucket of exactly this service and action has a token, or there is none. */
  predicate RateOpen(w: World, service: string, action: string, now: real) {
    var key := service + ":" + action;
    key in w.limits && key in w.buckets ==> T.Refilled(w.buckets[key], w.limits[key], now) >= 1.0
  }

  /** The executor is reached iff every gate is open and the board was asked where it has to be. */
  lemma ExecutesIff(w: World, cid: Cid, service: string, action: string, f: Facts, now: real, s: Service, a: Action)
    requires Offers(w, service, action, s, a)
    ensures Executes(w, cid, service, action, f, now) <==> (
      && cid !in w.completed && f.allowed && f.argsValid && RateOpen(w, service, action, now)
      && (SkipsBoard(s, a, f.args) || Told.Stands(w.queue, cid, A.APPROVED))
      && M.HasRoom(w.ledger, a.estimator(f.args)))
  {
  }

  /** The first definite attempt among those permitted, three of an idempotent action and one of any other, returns. */
  ghost predicate ReturnsInTime(a: Action, f: Facts) {
    || f.attempt(0).Returns?
    || (a.idempotent && f.attempt(0).TransientFailure? && f.attempt(1).Returns?)
    || (a.idempotent && f.attempt(0).TransientFailure? && f.attempt(1).TransientFailure? && f.attempt(2).Returns?)
  }

  lemma ReturnsIff(a: Action, f: Facts)
    ensures ExecutionReturns(a, f) <==> ReturnsInTime(a, f)
  {
    if ExecutionReturns(a, f) {
      var k: nat :| k < MaxAttempts(a) && FirstDefinite(f, k) && f.attempt(k).Returns?;
      assert k == 0 || k == 1 || k == 2;
    }
    if f.attempt(0).Returns? {
      assert FirstDefinite(f, 0);
    } else if ReturnsInTime(a, f) && f.attempt(1).Returns? {
      assert FirstDefinite(f, 1);
    } else if ReturnsInTime(a, f) {
      assert FirstDefinite(f, 2);
    }
  }

  /** Every answer to an uncached call is true: of a failure the gate it names is closed, of a success all were open. */
  lemma AnswerHolds(w: World, cid: Cid, service: string, action: string, f: Facts, now: real)
    requires cid !in w.completed
    ensures
      var r := Answer(w, cid, service, action, f, now);
      && (r == Failed(UnknownService) <==> service !in w.services)
      && (r == Failed(UnknownAction) <==> service in w.services && action !in w.services[service].actions)
  {
  }

  lemma OfferedAnswerHolds(w: World, cid: Cid, service: string, action: string, f: Facts, now: real, s: Service, a: Action)
    requires cid !in w.completed && Offers(w, service, action, s, a)
    ensures
      var r := Answer(w, cid, service, action, f, now);
      var estimate := a.estimator(f.args);
      && (r == Failed(NotAllowed) <==> !f.allowed)
      && (r == Failed(BadArgs) <==> f.allowed && !f.argsValid)
      && (r == Failed(RateLimited) <==> f.allowed && f.argsValid && !RateOpen(w, service, action, now))
  {
  }

  /** Past the rate limit, the answer depends on the request, the budget and the executor alone. */
  lemma AdmittedAnswerHolds(w: World, cid: Cid, service: string, action: string, f: Facts, now: real, s: Service, a: Action)
    requires cid !in w.completed && Offers(w, service, action, s, a)
    requires f.allowed && f.argsValid && RateOpen(w, service, action, now)
    ensures
      var r, estimate := Answer(w, cid, service, action, f, now), a.estimator(f.args);
      var open := SkipsBoard(s, a, f.args) || Told.Stands(w.queue, cid, A.APPROVED);
      && (r == Failed(ApprovalDenied) <==> !SkipsBoard(s, a, f.args) && Told.Refused(w.queue, cid))
      && (r == Pending <==> !SkipsBoard(s, a, f.args) && (cid !in w.queue.rows || Told.Stands(w.queue, cid, A.PENDING)))
      && (r == Failed(NoBudget) <==> open && !M.HasRoom(w.ledger, estimate))
      && (r == Failed(ExternalFailure) <==> open && M.HasRoom(w.ledger, estimate) && !ReturnsInTime(a, f))
      && (r == Failed(Malformed) <==> open && M.HasRoom(w.ledger, estimate) && ReturnsInTime(a, f) && !f.sanitized)
      && (r == Failed(CommitFailed) <==>
            open && M.HasRoom(w.ledger, estimate) && ReturnsInTime(a, f) && f.sanitized && Exhausts(w.ledger, estimate))
      && (r == Ok(estimate) <==>
            open && M.HasRoom(w.ledger, estimate) && ReturnsInTime(a, f) && f.sanitized && !Exhausts(w.ledger, estimate))
  {
    ReturnsIff(a, f);
  }

  /** A cached id is answered as before and leaves everything as it is. */
  lemma CachedAnswers(w: World, cid: Cid, service: string, action: string, agent: string, f: Facts, now: real, day: int,
      w': World, r: Result, attempts: nat)
    requires Called(w, cid, service, action, agent, f, now, day, w', r, attempts) && cid in w.completed
    ensures w' == w && r == w.completed[cid] && attempts == 0
  {
  }

  /** A token is taken from the bucket of the service and action, if these are limited and there is one; from no other. */
  function TokenTaken(w: World, service: string, action: string, now: real): map<string, T.Bucket> {
    var key := service + ":" + action;
    if key in w.limits && key in w.buckets then
      var tokens := T.Refilled(w.buckets[key], w.limits[key], now);
      w.buckets[key := T.Bucket(if tokens < 1.0 then tokens else tokens - 1.0, now)]
    else w.buckets
  }

  /** What an uncached call leaves: one event that says how it ended, and its result in the cache, but for a pending approval and a rate limit. */
  lemma CalledLeaves(w: World, cid: Cid, service: string, action: string, agent: string, f: Facts, now: real, day: int,
      w': World, r: Result, attempts: nat)
    requires Called(w, cid, service, action, agent, f, now, day, w', r, attempts) && cid !in w.completed
    ensures r == Answer(w, cid, service, action, f, now) && (attempts > 0 <==> Executes(w, cid, service, action, f, now))
    ensures w'.services == w.services && w'.limits == w.limits
    ensures w'.log == w.log + [ExternalCall(cid, match r case Ok(_) => Succeeded case Pending => Issued case Failed(_) => Error)]
    ensures w'.completed == if r == Pending || r == Failed(RateLimited) then w.completed else w.completed[cid := r]
    ensures attempts > 0 ==> attempts <= 3
    ensures attempts > 1 ==> service in w.services && action in w.services[service].actions && w.services[service].actions[action].idempotent
  {
  }

  /** What it spends: one expense of its cost under its id if it has success, nothing otherwise; nothing more is held than before. */
  lemma CalledSpends(w: World, cid: Cid, service: string, action: string, agent: string, f: Facts, now: real, day: int,
      w': World, r: Result, attempts: nat)
    requires Called(w, cid, service, action, agent, f, now, day, w', r, attempts) && cid !in w.completed
    ensures w'.ledger.expenses == w.ledger.expenses + (if r.Ok? then [Money.Expense(r.cost, "other", Money.ForReservation(cid))] else [])
    ensures Money.Reserved(w'.ledger) == Money.Reserved(w.ledger) && w'.ledger.total == w.ledger.total
  {
    SettledSpends(w.ledger, w'.ledger, cid, r);
  }

  lemma SettledSpends(l: Money.Ledger, l': Money.Ledger, cid: Cid, r: Result)
    requires Holds.Settled(l, l', cid, r.Ok?, OkCost(r))
    ensures l'.expenses == l.expenses + (if r.Ok? then [Money.Expense(r.cost, "other", Money.ForReservation(cid))] else [])
    ensures Money.Reserved(l') == Money.Reserved(l) && l'.total == l.total
  {
  }

  /** It takes its token, whatever comes of it, once service, action and arguments are in order. */
  lemma CalledTakesToken(w: World, cid: Cid, service: string, action: string, f: Facts, now: real)
    ensures
      BucketsAfter(w, cid, service, action, f, now) ==
      if cid !in w.completed && service in w.services && action in w.services[service].actions && f.allowed && f.argsValid
      then TokenTaken(w, service, action, now) else w.buckets
  {
  }

  /**
   What a process leaves that dies in the middle of a call. Once admitted the estimate is held; once the executor has
   returned well it is paid, unless the hold had used up a positive total exactly: then it is let go of. The request
   is there from the start if the board must be asked. Nothing is cached or announced.
   */
  lemma DeathLeaves(w: World, cid: Cid, service: string, action: string, agent: string, f: Facts, now: real, day: int, stage: Stage)
    requires stage in Trail(w, cid, service, action, agent, f, now, day)
    ensures service in w.services && action in w.services[service].actions
    ensures
      var w' := Trail(w, cid, service, action, agent, f, now, day)[stage];
      var s, a := w.services[service], w.services[service].actions[action];
      var estimate := a.estimator(f.args);
      && w'.services == w.services && w'.limits == w.limits && w'.completed == w.completed && w'.log == w.log
      && w'.ledger.total == w.ledger.total && w'.buckets == TokenTaken(w, service, action, now)
      && Money.Reserved(w'.ledger) == Money.Reserved(w.ledger) + (if stage == HELD then estimate else 0)
      && w'.ledger.expenses == w.ledger.expenses
           + (if stage == PAID && !Exhausts(w.ledger, estimate) then [Money.Expense(estimate, "other", Money.ForReservation(cid))] else [])
      && w'.queue.rows.Keys == w.queue.rows.Keys + (if SkipsBoard(s, a, f.args) then {} else {cid})
  {
    TrailHasStages(w, cid, service, action, agent, f, now, day, stage);
    if stage != ASKED {
      var estimate := w.services[service].actions[action].estimator(f.args);
      Holds.HoldAndDie(w.ledger, estimate, cid);
      Holds.HoldAndCommit(w.ledger, estimate, cid);
    }
  }

  /** A call that dies has tried nothing while it asked, and up to three times, or once, with the money held; once at least when it is paid. */
  lemma TriedBeforeDeath(a: Action, stage: Stage, attempts: nat)
    ensures CanHaveTried(a, stage, attempts) <==>
            if stage == ASKED then attempts == 0 else attempts <= (if a.idempotent then 3 else 1) && (stage == PAID ==> attempts > 0)
  {
  }

  /** A new process starts with no results and full buckets; money, requests, log and registry are as they were. */
  lemma RestartLeaves(w: World, now: real)
    ensures
      var w' := Restarted(w, now);
      && w'.completed == map[] && w'.buckets.Keys == w.limits.Keys
      && (forall key :: key in w.limits ==> w'.buckets[key] == T.Bucket(w.limits[key].capacity as real, now))
      && w'.services == w.services && w'.limits == w.limits && w'.ledger == w.ledger && w'.queue == w.queue && w'.log == w.log
  {
  }

  /** An uncached call to a known, allowed action with good arguments, the rate limit open. */
  predicate PastRateLimit(w: World, op: Op) {
    && IsCall(op) && op.cid !in w.completed && op.service in w.services && op.action in w.services[op.service].actions
    && op.facts.allowed && op.facts.argsValid && RateOpen(w, op.service, op.action, op.now)
  }

  /** The call asks the board: the risk is not low, or the action has no threshold, or the estimate is above it. */
  predicate MustAsk(w: World, op: Op)
    requires IsCall(op)
  {
    && op.service in w.services && op.action in w.services[op.service].actions
    && var s, a := w.services[op.service], w.services[op.service].actions[op.action];
    s.risk != LOW || a.threshold == None || a.estimator(op.facts.args) > a.threshold.value
  }

  /**
   A call puts a request iff it gets past the rate limit, must ask, and its id has none: to the board, for the
   agent, with service, action and arguments, for a day. So a call of low risk within its threshold puts none, and
   every other call past the rate limit leaves a row under its id.
   */
  lemma CallAsksIff(w: World, op: Op, w': World)
    requires Steps(w, op, w') && op.CallService?
    ensures w'.queue != w.queue <==> PastRateLimit(w, op) && MustAsk(w, op) && op.cid !in w.queue.rows
    ensures PastRateLimit(w, op) && MustAsk(w, op) ==> op.cid in w'.queue.rows
    ensures w'.queue != w.queue ==>
              && op.cid in w'.queue.rows
              && w'.queue == A.Queue(w.queue.rows[op.cid := w'.queue.rows[op.cid]], w.queue.log + [A.ApprovalRequested(op.cid)])
              && var row := w'.queue.rows[op.cid];
              && row.kind == A.EXTERNAL_ACTION && row.requester == op.agent && row.target == A.BOARD
              && row.subject == A.Subject([op.service, op.action], op.facts.args)
              && row.status == A.PENDING && row.requireSecurity && row.securityDecision == None && row.expiresAt == op.day + 86400
  {
    var r :| Called(w, op.cid, op.service, op.action, op.agent, op.facts, op.now, op.day, w', r, op.attempts);
  }

  // ------------------------------------------------------------ over runs

  /**
   Over every run, processes that end included: whenever a call has started the executor of a service that is not
   of low risk, or of an action without a threshold, or above it, the request of its id stands approved, by
   security too if the gateway itself created it. The threshold alone never opens a riskier service.
   */
  lemma RiskyRunsAreApproved(ws: seq<World>, ops: seq<Op>, i: nat)
    requires Trace(ws, ops) && Healthy(ws[0])
    requires i < |ops| && IsCall(ops[i]) && ops[i].attempts > 0 && MustAsk(ws[0], ops[i])
    ensures A.BothLegsApproved(ws[|ops|].queue, ops[i].cid) && Told.Stands(ws[|ops|].queue, ops[i].cid, A.APPROVED)
  {
    RunIsSafe(ws, ops);
    assert NeedsBoard(ws[0], ops[i]);
  }

  /** Where nobody but the gateway puts requests with the id, security has approved as well. */
  lemma RiskyRunsHaveBothLegs(ws: seq<World>, ops: seq<Op>, i: nat)
    requires Trace(ws, ops) && Healthy(ws[0])
    requires i < |ops| && IsCall(ops[i]) && ops[i].attempts > 0 && MustAsk(ws[0], ops[i])
    requires ops[i].cid !in ws[0].queue.rows && forall op :: op in ops ==> !Foreign(op, ops[i].cid)
    ensures Told.Stands(ws[|ops|].queue, ops[i].cid, A.APPROVED)
    ensures ws[|ops|].queue.rows[ops[i].cid].securityDecision == Some(A.APPROVE)
  {
    assert NeedsBoard(ws[0], ops[i]);
    BothLegsBeforeRunning(ws, ops, i);
  }
}
