/** The approval queue (modules/approvals/service.py): one or two decision legs, cancellation, expiry. */
module Approvals {
  import opened Common

  type Rid = string

  datatype Kind =
    | HIRE | FIRE_DEPTH_1 | EXPENSE | EXTERNAL_ACTION | INTER_COMPANY_LINK
    | SECURITY_FLAG | BUDGET_INCREASE | ROLE_CHANGE

  datatype Status = PENDING | APPROVED | DENIED | TIMEOUT | CANCELLED
  datatype Decision = APPROVE | DENY
  datatype Target = BOARD | AGENT(id: string) | SECURITY

  /** What is asked for, as the payload tells it: the tool, or the service and action, and the arguments. */
  datatype Subject = Subject(names: seq<string>, args: string)

  datatype Row = Row(
    kind: Kind, requester: string, subject: Subject, target: Target, requireSecurity: bool,
    securityDecision: Option<Decision>, status: Status,
    decidedBy: Option<string>, note: Option<string>, createdAt: int, expiresAt: int)

  datatype Event =
    | ApprovalRequested(rid: Rid)
    | ApprovalDecided(rid: Rid, decidedBy: string, decision: Decision)
    | ApprovalTimeout(rid: Rid)

  /** The approvals table and the events appended. */
  datatype Queue = Queue(rows: map<Rid, Row>, log: seq<Event>)

  const NO_APPROVALS := Queue(map[], [])

  /** Default lifetime of each kind, in seconds. */
  function DefaultTimeout(kind: Kind): nat {
    match kind
    case EXPENSE => 24 * 3600
    case EXTERNAL_ACTION => 24 * 3600
    case INTER_COMPANY_LINK => 30 * 86400
    case SECURITY_FLAG => 5 * 60
    case _ => 7 * 86400
  }

  predicate AutoDenies(kind: Kind) { kind == SECURITY_FLAG }

  predicate WantsSecurity(kind: Kind) { kind == EXPENSE || kind == EXTERNAL_ACTION }

  predicate Pending(q: Queue, rid: Rid) {
    rid in q.rows && q.rows[rid].status == PENDING
  }

  predicate Terminal(q: Queue, rid: Rid) {
    rid in q.rows && q.rows[rid].status != PENDING
  }

  predicate Approved(q: Queue, rid: Rid) {
    rid in q.rows && q.rows[rid].status == APPROVED
  }

  // ------------------------------------------------------------ operations

  function NewRow(kind: Kind, requester: string, subject: Subject, target: Target, routeSecurity: bool,
      now: int, timeout: Option<int>): Row
  {
    Row(kind, requester, subject, target, routeSecurity || (WantsSecurity(kind) && target != SECURITY),
        None, PENDING, None, None, now, now + if timeout.Some? then timeout.value else DefaultTimeout(kind))
  }

  /** Creates the row, or leaves everything alone when the id is known already. */
  function Request(q: Queue, rid: Rid, row: Row): Queue {
    if rid in q.rows then q else Queue(q.rows[rid := row], q.log + [ApprovalRequested(rid)])
  }

  function DecidedRow(row: Row, decider: string, decision: Decision, note: Option<string>): Row {
    if row.requireSecurity && row.securityDecision.None? then
      if decision == DENY then
        row.(securityDecision := Some(DENY), status := DENIED, decidedBy := Some(decider), note := note)
      else row.(securityDecision := Some(APPROVE))
    else row.(status := if decision == APPROVE then APPROVED else DENIED, decidedBy := Some(decider), note := note)
  }

  function Decide(q: Queue, rid: Rid, decider: string, decision: Decision, note: Option<string>): Queue {
    if !Pending(q, rid) then q
    else
      var row := DecidedRow(q.rows[rid], decider, decision, note);
      Queue(q.rows[rid := row], if row.status == PENDING then q.log else q.log + [ApprovalDecided(rid, decider, decision)])
  }

  function Cancel(q: Queue, rid: Rid, canceller: string, reason: string): Queue {
    if !Pending(q, rid) then q
    else Queue(q.rows[rid := q.rows[rid].(status := CANCELLED, decidedBy := Some(canceller), note := Some(reason))],
               q.log + [ApprovalDecided(rid, canceller, DENY)])
  }

  predicate Expired(q: Queue, rid: Rid, now: int) {
    Pending(q, rid) && q.rows[rid].expiresAt <= now
  }

  function TimedOut(row: Row): Row {
    row.(status := if AutoDenies(row.kind) then DENIED else TIMEOUT,
         note := if row.note.Some? then row.note
                 else Some(if AutoDenies(row.kind) then "auto_deny_on_timeout" else "expired"))
  }

  function ExpireRows(q: Queue, now: int): map<Rid, Row> {
    map rid | rid in q.rows :: if Expired(q, rid, now) then TimedOut(q.rows[rid]) else q.rows[rid]
  }

  /** rids are the expired ids, each once: the order the table hands them out in. */
  ghost predicate ExpiredIds(q: Queue, now: int, rids: seq<Rid>) {
    NoDup(rids) && forall rid :: rid in rids <==> Expired(q, rid, now)
  }

  function TimeoutEvents(rids: seq<Rid>): seq<Event> {
    if rids == [] then [] else TimeoutEvents(rids[..|rids| - 1]) + [ApprovalTimeout(rids[|rids| - 1])]
  }

  // ------------------------------------------------------------ one step of any kind

  datatype Op =
    | OpRequest(rid: Rid, row: Row)
    | OpDecide(rid: Rid, decider: string, decision: Decision, note: Option<string>)
    | OpCancel(rid: Rid, canceller: string, reason: string)
    | OpTimeouts(now: int, expired: seq<Rid>)

  /** An operation that can happen: requests carry a fresh row, sweeps carry the ids that have expired. */
  ghost predicate Possible(q: Queue, op: Op) {
    match op
    case OpRequest(rid, row) =>
      exists kind, requester, subject, target, routeSecurity, now, timeout ::
        && row == NewRow(kind, requester, subject, target, routeSecurity, now, timeout)
        && !(target == SECURITY && routeSecurity)
    case OpTimeouts(now, expired) => ExpiredIds(q, now, expired)
    case _ => true
  }

  function Step(q: Queue, op: Op): Queue {
    match op
    case OpRequest(rid, row) => Request(q, rid, row)
    case OpDecide(rid, decider, decision, note) => Decide(q, rid, decider, decision, note)
    case OpCancel(rid, canceller, reason) => Cancel(q, rid, canceller, reason)
    case OpTimeouts(now, expired) => Queue(ExpireRows(q, now), q.log + TimeoutEvents(expired))
  }

  function Run(q: Queue, ops: seq<Op>): Queue
    decreases |ops|
  {
    if ops == [] then q else Run(Step(q, ops[0]), ops[1..])
  }

  ghost predicate AllPossible(q: Queue, ops: seq<Op>)
    decreases |ops|
  {
    ops == [] || (Possible(q, ops[0]) && AllPossible(Step(q, ops[0]), ops[1..]))
  }

  /** DECIDED and TIMEOUT events about one request. */
  function Endings(log: seq<Event>, rid: Rid): nat {
    if log == [] then 0
    else Endings(log[..|log| - 1], rid) + (if !log[|log| - 1].ApprovalRequested? && log[|log| - 1].rid == rid then 1 else 0)
  }

  /**
   Approved means both legs approved where two are needed; a security veto is final; the pipelines' kinds
   always have the security leg, a row routed to SECURITY never.
   */
  ghost predicate RowOk(row: Row) {
    && (row.status == APPROVED && row.requireSecurity ==> row.securityDecision == Some(APPROVE))
    && (row.securityDecision == Some(DENY) ==> row.status == DENIED)
    && (WantsSecurity(row.kind) && row.target != SECURITY ==> row.requireSecurity)
    && (row.target == SECURITY ==> !row.requireSecurity)
  }

  ghost predicate QueueOk(q: Queue) {
    && (forall rid :: rid in q.rows ==> RowOk(q.rows[rid]))
    && (forall rid :: Endings(q.log, rid) == if Terminal(q, rid) then 1 else 0)
  }

  lemma EndingsSnoc(log: seq<Event>, e: Event, rid: Rid)
    ensures Endings(log + [e], rid) == Endings(log, rid) + (if !e.ApprovalRequested? && e.rid == rid then 1 else 0)
  {
    assert (log + [e])[..|log|] == log;
  }

  lemma {:induction false} EndingsConcat(a: seq<Event>, b: seq<Event>, rid: Rid)
    ensures Endings(a + b, rid) == Endings(a, rid) + Endings(b, rid)
  {
    if b == [] {
      assert a + b == a;
    } else {
      var front, last := b[..|b| - 1], b[|b| - 1];
      EndingsConcat(a, front, rid);
      EndingsSnoc(a + front, last, rid);
      assert a + b == a + front + [last];
    }
  }

  lemma {:induction false} EndingsOfTimeouts(rids: seq<Rid>, rid: Rid)
    requires NoDup(rids)
    ensures Endings(TimeoutEvents(rids), rid) == if rid in rids then 1 else 0
  {
    if rids != [] {
      var front, last := rids[..|rids| - 1], rids[|rids| - 1];
      EndingsOfTimeouts(front, rid);
      EndingsSnoc(TimeoutEvents(front), ApprovalTimeout(last), rid);
      InFrontOrLast(rids, rid);
    }
  }

  lemma InFrontOrLast(rids: seq<Rid>, rid: Rid)
    requires NoDup(rids) && rids != []
    ensures rid in rids <==> rid in rids[..|rids| - 1] || rid == rids[|rids| - 1]
    ensures rids[|rids| - 1] !in rids[..|rids| - 1]
  {
    assert rids == rids[..|rids| - 1] + [rids[|rids| - 1]];
  }

  predicate SameRequest(row: Row, row': Row) {
    row'.requester == row.requester && row'.subject == row.subject
  }

  /** No row goes or asks for something else, and a decided one never changes again. */
  ghost predicate Absorbs(q: Queue, q': Queue) {
    && (forall rid :: rid in q.rows ==> rid in q'.rows && SameRequest(q.rows[rid], q'.rows[rid]))
    && (forall rid :: Terminal(q, rid) ==> q'.rows[rid] == q.rows[rid])
  }

  /** Approved by the board, and by security if a pipeline created the row. */
  ghost predicate BothLegsApproved(q: Queue, rid: Rid) {
    && Approved(q, rid)
    && (WantsSecurity(q.rows[rid].kind) && q.rows[rid].target == BOARD ==> q.rows[rid].securityDecision == Some(APPROVE))
  }

  lemma NewRowOk(row: Row, q: Queue, rid: Rid)
    requires Possible(q, OpRequest(rid, row))
    ensures RowOk(row) && row.status == PENDING
  {
    var kind, requester, subject, target, routeSecurity, now, timeout :|
      && row == NewRow(kind, requester, subject, target, routeSecurity, now, timeout)
      && !(target == SECURITY && routeSecurity);
  }

  lemma StepKeepsRow(q: Queue, op: Op, rid: Rid)
    requires QueueOk(q) && Possible(q, op) && rid in Step(q, op).rows
    ensures RowOk(Step(q, op).rows[rid])
  {
    if op.OpRequest? {
      NewRowOk(op.row, q, op.rid);
    } else {
      var row := q.rows[rid];
      assert RowOk(row);
      assert row.securityDecision.Some? ==> row.securityDecision.value.APPROVE? || row.securityDecision.value.DENY?;
    }
  }

  lemma StepKeepsEndings(q: Queue, op: Op, rid: Rid)
    requires QueueOk(q) && Possible(q, op)
    ensures Endings(Step(q, op).log, rid) == if Terminal(Step(q, op), rid) then 1 else 0
  {
    match op
    case OpRequest(r, row) =>
      NewRowOk(row, q, r);
      EndingsSnoc(q.log, ApprovalRequested(r), rid);
    case OpDecide(r, decider, decision, note) => DecideKeepsEndings(q, r, decider, decision, note, rid);
    case OpCancel(r, canceller, reason) => EndingsSnoc(q.log, ApprovalDecided(r, canceller, DENY), rid);
    case OpTimeouts(now, expired) => TimeoutsKeepEndings(q, now, expired, rid);
  }

  lemma DecideKeepsEndings(q: Queue, r: Rid, decider: string, decision: Decision, note: Option<string>, rid: Rid)
    requires QueueOk(q)
    ensures
      var q' := Decide(q, r, decider, decision, note);
      Endings(q'.log, rid) == if Terminal(q', rid) then 1 else 0
  {
    EndingsSnoc(q.log, ApprovalDecided(r, decider, decision), rid);
  }

  lemma TimeoutsKeepEndings(q: Queue, now: int, expired: seq<Rid>, rid: Rid)
    requires QueueOk(q) && Possible(q, OpTimeouts(now, expired))
    ensures
      var q' := Step(q, OpTimeouts(now, expired));
      Endings(q'.log, rid) == if Terminal(q', rid) then 1 else 0
  {
    EndingsConcat(q.log, TimeoutEvents(expired), rid);
    EndingsOfTimeouts(expired, rid);
    SweepEnds(q, now, expired, rid);
  }

  lemma SweepEnds(q: Queue, now: int, expired: seq<Rid>, rid: Rid)
    ensures Step(q, OpTimeouts(now, expired)).log == q.log + TimeoutEvents(expired)
    ensures Terminal(Step(q, OpTimeouts(now, expired)), rid) <==> Terminal(q, rid) || Expired(q, rid, now)
    ensures !(Terminal(q, rid) && Expired(q, rid, now))
  {
  }

  lemma StepKeepsQueue(q: Queue, op: Op)
    requires QueueOk(q) && Possible(q, op)
    ensures QueueOk(Step(q, op)) && Absorbs(q, Step(q, op))
  {
    forall rid | rid in Step(q, op).rows
      ensures RowOk(Step(q, op).rows[rid])
    {
      StepKeepsRow(q, op, rid);
    }
    forall rid
      ensures Endings(Step(q, op).log, rid) == if Terminal(Step(q, op), rid) then 1 else 0
    {
      StepKeepsEndings(q, op, rid);
    }
  }

  /**
   Over every run: terminal rows never change, each request has exactly one DECIDED or TIMEOUT event if
   it is terminal and none before, and an approved row that needs security has both legs approved.
   */
  lemma {:induction false} RunKeepsQueue(q: Queue, ops: seq<Op>)
    requires QueueOk(q) && AllPossible(q, ops)
    ensures QueueOk(Run(q, ops)) && Absorbs(q, Run(q, ops))
    decreases |ops|
  {
    if ops != [] {
      StepKeepsQueue(q, ops[0]);
      RunKeepsQueue(Step(q, ops[0]), ops[1..]);
    }
  }

  lemma SweepLeavesNone(q: Queue, now: int, expired: seq<Rid>, rid: Rid)
    ensures !Expired(Step(q, OpTimeouts(now, expired)), rid, now)
  {
  }

  /** A sweep leaves nothing expired behind, and a second sweep at the same time changes nothing. */
  lemma SweepIsComplete(q: Queue, now: int, expired: seq<Rid>, again: seq<Rid>)
    requires ExpiredIds(q, now, expired)
    requires ExpiredIds(Step(q, OpTimeouts(now, expired)), now, again)
    ensures forall rid :: !Expired(Step(q, OpTimeouts(now, expired)), rid, now)
    ensures again == [] && Step(Step(q, OpTimeouts(now, expired)), OpTimeouts(now, again)) == Step(q, OpTimeouts(now, expired))
  {
    var q1 := Step(q, OpTimeouts(now, expired));
    if again != [] {
      SweepLeavesNone(q, now, expired, again[0]);
    }
    assert ExpireRows(q1, now) == q1.rows;
    assert q1.log + TimeoutEvents([]) == q1.log;
  }

  // ------------------------------------------------------------ requests that a pipeline makes

  /** The row, if there is one, is of a pipeline's making: an expense or external action, put to the board. */
  ghost predicate FromPipeline(q: Queue, rid: Rid) {
    rid in q.rows ==> WantsSecurity(q.rows[rid].kind) && q.rows[rid].target == BOARD
  }

  /** No step but a request changes what a row asks for or whom it is put to. */
  lemma StaysFromPipeline(q: Queue, op: Op, rid: Rid)
    requires FromPipeline(q, rid) && (op.OpRequest? ==> op.rid != rid)
    ensures FromPipeline(Step(q, op), rid)
  {
  }

  // ------------------------------------------------------------ who is asked

  /** pending_for: does the queue of this decider show the row? */
  predicate ShownTo(row: Row, decider: Target) {
    row.status == PENDING &&
    (if decider == SECURITY then row.requireSecurity && row.securityDecision.None?
     else row.target == decider && (!row.requireSecurity || row.securityDecision.Some?))
  }

  /**
   A pending row is shown to exactly one decider, unless it is routed to SECURITY itself: then it is
   shown to nobody, ever.
   */
  lemma PendingIsShownOnce(row: Row)
    requires row.status == PENDING && RowOk(row)
    ensures row.target != SECURITY ==> exists d :: ShownTo(row, d) && forall e :: ShownTo(row, e) ==> e == d
    ensures row.target == SECURITY ==> forall d :: !ShownTo(row, d)
  {
    var d := if row.requireSecurity && row.securityDecision.None? then SECURITY else row.target;
    assert row.target != SECURITY ==> ShownTo(row, d);
  }
}
