/**
 What becomes of a request, told from the decisions made on it, and what the log tells about it over every run
 (modules/approvals/service.py).
 */
module ApprovalOutcomes {
  import opened Common
  import opened Approvals

  // ------------------------------------------------------------ one operation

  /** Seconds a request lives, unless the caller says otherwise. */
  function Lifetime(kind: Kind): nat {
    match kind
    case EXPENSE | EXTERNAL_ACTION => 86400
    case INTER_COMPANY_LINK => 2592000
    case SECURITY_FLAG => 300
    case HIRE | FIRE_DEPTH_1 | BUDGET_INCREASE | ROLE_CHANGE => 604800
  }

  /** A fresh request is undecided and says what was asked, of whom and until when; security joins in for money and the outside world. */
  lemma RequestedIs(q: Queue, rid: Rid, kind: Kind, requester: string, subject: Subject, target: Target, routeSecurity: bool,
      now: int, timeout: Option<int>)
    requires rid !in q.rows
    ensures
      var q' := Request(q, rid, NewRow(kind, requester, subject, target, routeSecurity, now, timeout));
      && q'.rows.Keys == q.rows.Keys + {rid} && (forall x :: x in q.rows ==> q'.rows[x] == q.rows[x])
      && q'.log == q.log + [ApprovalRequested(rid)]
      && var row := q'.rows[rid];
      && row.kind == kind && row.requester == requester && row.subject == subject && row.target == target
      && row.status == PENDING && row.securityDecision == None && row.decidedBy == None && row.note == None
      && row.createdAt == now && row.expiresAt - now == (if timeout == None then Lifetime(kind) else timeout.value)
      && (row.requireSecurity <==> routeSecurity || (kind in {EXPENSE, EXTERNAL_ACTION} && target != SECURITY))
  {
  }

  /** The row of the id, if there is one, has that status. */
  predicate Stands(q: Queue, rid: Rid, status: Status) {
    rid in q.rows && q.rows[rid].status == status
  }

  predicate Refused(q: Queue, rid: Rid) {
    rid in q.rows && q.rows[rid].status in {DENIED, TIMEOUT, CANCELLED}
  }

  /** Security has still to say its word on a row that needs it. */
  predicate SecurityIsOpen(row: Row) {
    row.requireSecurity && row.securityDecision == None
  }

  /**
   A decision on a pending row ends it as denied iff it denies; as approved iff it approves with nothing left
   open; and leaves it pending iff it approves for security, with the main leg still to come. What ends is
   announced with its decision and its decider, nothing else changes.
   */
  lemma DecidedIs(q: Queue, rid: Rid, decider: string, decision: Decision, note: Option<string>)
    requires Pending(q, rid)
    ensures
      var q', row := Decide(q, rid, decider, decision, note), q.rows[rid];
      && q'.rows.Keys == q.rows.Keys && (forall x :: x in q.rows && x != rid ==> q'.rows[x] == q.rows[x])
      && var row' := q'.rows[rid];
      && (row'.status == DENIED <==> decision == DENY)
      && (row'.status == APPROVED <==> decision == APPROVE && !SecurityIsOpen(row))
      && (row'.status == PENDING <==> decision == APPROVE && SecurityIsOpen(row))
      && row'.securityDecision == (if SecurityIsOpen(row) then Some(decision) else row.securityDecision)
      && row'.decidedBy == (if row'.status == PENDING then row.decidedBy else Some(decider))
      && row'.note == (if row'.status == PENDING then row.note else note)
      && row'.kind == row.kind && row'.target == row.target && row'.requireSecurity == row.requireSecurity
      && SameRequest(row, row') && row'.createdAt == row.createdAt && row'.expiresAt == row.expiresAt
      && q'.log == q.log + (if row'.status == PENDING then [] else [ApprovalDecided(rid, decider, decision)])
  {
  }

  /** Cancelling ends a pending row, and is announced as a refusal by whoever cancels. */
  lemma CancelledIs(q: Queue, rid: Rid, canceller: string, reason: string)
    requires Pending(q, rid)
    ensures
      var q' := Cancel(q, rid, canceller, reason);
      && q'.rows.Keys == q.rows.Keys && (forall x :: x in q.rows && x != rid ==> q'.rows[x] == q.rows[x])
      && q'.rows[rid].status == CANCELLED && q'.rows[rid].decidedBy == Some(canceller) && q'.rows[rid].note == Some(reason)
      && SameRequest(q.rows[rid], q'.rows[rid]) && q'.rows[rid].kind == q.rows[rid].kind
      && q'.log == q.log + [ApprovalDecided(rid, canceller, DENY)]
  {
  }

  /** A decided row stays as it is, and so does an unknown one. */
  lemma OnlyPendingChanges(q: Queue, rid: Rid, decider: string, decision: Decision, note: Option<string>, reason: string)
    requires !Pending(q, rid)
    ensures Decide(q, rid, decider, decision, note) == q && Cancel(q, rid, decider, reason) == q
  {
  }

  /** A sweep ends exactly the pending rows whose time has come: security flags as denied, all others as timed out. */
  lemma SweptIs(q: Queue, now: int, expired: seq<Rid>, rid: Rid)
    requires rid in q.rows
    ensures
      var q', row := Step(q, OpTimeouts(now, expired)), q.rows[rid];
      && q'.rows.Keys == q.rows.Keys
      && var row' := q'.rows[rid];
      if row.status == PENDING && row.expiresAt <= now then
        && row'.status == (if row.kind == SECURITY_FLAG then DENIED else TIMEOUT)
        && row'.note == (if row.note.Some? then row.note else Some(if row.kind == SECURITY_FLAG then "auto_deny_on_timeout" else "expired"))
        && SameRequest(row, row') && row'.kind == row.kind && row'.decidedBy == row.decidedBy
        && row'.securityDecision == row.securityDecision
      else row' == row
  {
  }

  // ------------------------------------------------------------ over runs

  predicate Says(log: seq<Event>, rid: Rid, decision: Decision) {
    exists e :: e in log && e.ApprovalDecided? && e.rid == rid && e.decision == decision
  }

  /** A request is approved iff the log says so; a refusal in the log ended it as denied or cancelled, a timeout as its kind ends. */
  ghost predicate Told(q: Queue, rid: Rid) {
    && (Approved(q, rid) <==> Says(q.log, rid, APPROVE))
    && (Says(q.log, rid, DENY) ==> rid in q.rows && q.rows[rid].status in {DENIED, CANCELLED})
    && (ApprovalTimeout(rid) in q.log ==> rid in q.rows && q.rows[rid].status == if q.rows[rid].kind == SECURITY_FLAG then DENIED else TIMEOUT)
    && (rid in q.rows && q.rows[rid].status in {DENIED, CANCELLED, TIMEOUT} ==>
          Says(q.log, rid, DENY) || ApprovalTimeout(rid) in q.log)
  }

  ghost predicate AllTold(q: Queue) {
    forall rid :: Told(q, rid)
  }

  lemma SaysSnoc(log: seq<Event>, e: Event, rid: Rid, decision: Decision)
    ensures Says(log + [e], rid, decision) <==> Says(log, rid, decision) || (e.ApprovalDecided? && e.rid == rid && e.decision == decision)
  {
    if Says(log, rid, decision) {
      var d :| d in log && d.ApprovalDecided? && d.rid == rid && d.decision == decision;
      assert d in log + [e];
    }
    assert e in log + [e];
  }

  lemma {:induction false} TimeoutsSay(rids: seq<Rid>, rid: Rid)
    ensures ApprovalTimeout(rid) in TimeoutEvents(rids) <==> rid in rids
    ensures forall e :: e in TimeoutEvents(rids) ==> e.ApprovalTimeout?
  {
    if rids != [] {
      var front, last := rids[..|rids| - 1], rids[|rids| - 1];
      TimeoutsSay(front, rid);
      assert rids == front + [last];
    }
  }

  lemma SaysTimeouts(log: seq<Event>, rids: seq<Rid>, rid: Rid, decision: Decision)
    ensures Says(log + TimeoutEvents(rids), rid, decision) <==> Says(log, rid, decision)
    ensures ApprovalTimeout(rid) in log + TimeoutEvents(rids) <==> ApprovalTimeout(rid) in log || rid in rids
  {
    TimeoutsSay(rids, rid);
    if Says(log, rid, decision) {
      var d :| d in log && d.ApprovalDecided? && d.rid == rid && d.decision == decision;
      assert d in log + TimeoutEvents(rids);
    }
  }

  lemma RequestTells(q: Queue, rid: Rid, row: Row, id: Rid)
    requires Told(q, id) && row.status == PENDING
    ensures Told(Request(q, rid, row), id)
  {
    SaysSnoc(q.log, ApprovalRequested(rid), id, APPROVE);
    SaysSnoc(q.log, ApprovalRequested(rid), id, DENY);
  }

  lemma DecideTells(q: Queue, rid: Rid, decider: string, decision: Decision, note: Option<string>, id: Rid)
    requires Told(q, id)
    ensures Told(Decide(q, rid, decider, decision, note), id)
  {
    if Pending(q, rid) {
      DecidedIs(q, rid, decider, decision, note);
      assert q.log + [] == q.log;
      SaysSnoc(q.log, ApprovalDecided(rid, decider, decision), id, APPROVE);
      SaysSnoc(q.log, ApprovalDecided(rid, decider, decision), id, DENY);
    }
  }

  lemma StepTells(q: Queue, op: Op, id: Rid)
    requires Told(q, id) && Possible(q, op)
    ensures Told(Step(q, op), id)
  {
    match op
    case OpRequest(rid, row) =>
      NewRowOk(row, q, rid);
      RequestTells(q, rid, row, id);
    case OpDecide(rid, decider, decision, note) => DecideTells(q, rid, decider, decision, note, id);
    case OpCancel(rid, canceller, reason) =>
      SaysSnoc(q.log, ApprovalDecided(rid, canceller, DENY), id, APPROVE);
      SaysSnoc(q.log, ApprovalDecided(rid, canceller, DENY), id, DENY);
    case OpTimeouts(now, expired) =>
      SaysTimeouts(q.log, expired, id, APPROVE);
      SaysTimeouts(q.log, expired, id, DENY);
      if id in q.rows {
        SweptIs(q, now, expired, id);
      }
  }

  /**
   Over every run: a request is approved iff the log has a decision approving it, and one the log has a denying
   decision about is denied or cancelled.
   */
  lemma {:induction false} RunTells(q: Queue, ops: seq<Op>)
    requires AllTold(q) && AllPossible(q, ops)
    ensures AllTold(Run(q, ops))
    decreases |ops|
  {
    if ops != [] {
      forall id
        ensures Told(Step(q, ops[0]), id)
      {
        StepTells(q, ops[0], id);
      }
      RunTells(Step(q, ops[0]), ops[1..]);
    }
  }

  lemma NothingTold()
    ensures AllTold(NO_APPROVALS)
  {
  }
}
