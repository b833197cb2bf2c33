/** The approvals service (modules/approvals/service.py). */
module ApprovalService {
  import opened Common
  import opened Approvals

  datatype DecideResult = ApprovalNotFound | ApprovalConflict(current: Status) | Decided(row: Row)

  class ApprovalQueue {
    var rows: map<Rid, Row>
    var log: seq<Event>

    ghost function Contents(): Queue
      reads this
    {
      Queue(rows, log)
    }

    ghost predicate Valid()
      reads this
    {
      QueueOk(Contents())
    }

    constructor ()
      ensures Contents() == NO_APPROVALS && Valid()
    {
      rows, log := map[], [];
    }

    /** Idempotent on the id: the row that is there, whoever asked for it, or a fresh pending one. */
    method Request(rid: Rid, kind: Kind, requester: string, subject: Subject, target: Target, routeSecurity: bool,
        now: int, timeout: Option<int>)
      returns (row: Row)
      requires Valid() && !(target == SECURITY && routeSecurity)
      modifies this
      ensures Contents() == Approvals.Request(old(Contents()), rid, NewRow(kind, requester, subject, target, routeSecurity, now, timeout))
      ensures rid in rows && row == rows[rid]
      ensures Valid() && Absorbs(old(Contents()), Contents())
    {
      StepKeepsQueue(Contents(), OpRequest(rid, NewRow(kind, requester, subject, target, routeSecurity, now, timeout)));
      if rid in rows {
        return rows[rid];
      }
      var life := if timeout.Some? then timeout.value else DefaultTimeout(kind);
      var requireSecurity := routeSecurity || (WantsSecurity(kind) && target != SECURITY);
      row := Row(kind, requester, subject, target, requireSecurity, None, PENDING, None, None, now, now + life);
      rows := rows[rid := row];
      log := log + [ApprovalRequested(rid)];
    }

    /** Equal decisions on a decided row are repeats; different ones conflict. */
    method Decide(rid: Rid, decider: string, decision: Decision, note: Option<string>) returns (r: DecideResult)
      requires Valid()
      modifies this
      ensures Contents() == Approvals.Decide(old(Contents()), rid, decider, decision, note)
      ensures Valid() && Absorbs(old(Contents()), Contents())
      ensures r.ApprovalNotFound? <==> rid !in old(rows)
      ensures r.Decided? ==> rid in rows && r.row == rows[rid]
      ensures r.ApprovalConflict? <==> (Terminal(old(Contents()), rid)
                && old(rows)[rid].status != (if decision == APPROVE then APPROVED else DENIED))
      ensures r.ApprovalConflict? ==> r.current == old(rows)[rid].status
      ensures
        Pending(old(Contents()), rid) ==> (
            && r.Decided? && r.row.status in {PENDING, APPROVED, DENIED}
            && (r.row.status == DENIED <==> decision == DENY)
            && (r.row.status == PENDING <==> decision == APPROVE && old(rows)[rid].requireSecurity && old(rows)[rid].securityDecision.None?))
    {
      StepKeepsQueue(Contents(), OpDecide(rid, decider, decision, note));
      if rid !in rows {
        return ApprovalNotFound;
      }
      var row := rows[rid];
      if row.status != PENDING {
        var target := if decision == APPROVE then APPROVED else DENIED;
        if row.status == target {
          return Decided(row);
        }
        return ApprovalConflict(row.status);
      }
      var emit := true;
      var inSecurityStep := row.requireSecurity && row.securityDecision.None?;
      if inSecurityStep {
        if decision == DENY {
          row := row.(securityDecision := Some(DENY), status := DENIED, decidedBy := Some(decider), note := note);
        } else {
          row := row.(securityDecision := Some(APPROVE));
          emit := false;
        }
      } else {
        var final := if decision == APPROVE then APPROVED else DENIED;
        row := row.(status := final, decidedBy := Some(decider), note := note);
      }
      rows := rows[rid := row];
      if emit {
        log := log + [ApprovalDecided(rid, decider, decision)];
      }
      r := Decided(row);
    }

    method Cancel(rid: Rid, canceller: string, reason: string) returns (ok: bool)
      requires Valid()
      modifies this
      ensures Contents() == Approvals.Cancel(old(Contents()), rid, canceller, reason)
      ensures Valid() && Absorbs(old(Contents()), Contents())
      ensures ok <==> Pending(old(Contents()), rid)
    {
      StepKeepsQueue(Contents(), OpCancel(rid, canceller, reason));
      if rid !in rows || rows[rid].status != PENDING {
        return false;
      }
      rows := rows[rid := rows[rid].(status := CANCELLED, decidedBy := Some(canceller), note := Some(reason))];
      log := log + [ApprovalDecided(rid, canceller, DENY)];
      ok := true;
    }

    /** Sweeps the expired rows in some order and reports how many. */
    method ProcessTimeouts(now: int) returns (count: nat, ghost expired: seq<Rid>)
      requires Valid()
      modifies this
      ensures ExpiredIds(old(Contents()), now, expired) && count == |expired|
      ensures Contents() == Step(old(Contents()), OpTimeouts(now, expired))
      ensures Valid() && Absorbs(old(Contents()), Contents())
    {
      ghost var q := Contents();
      var todo := set rid | rid in rows && rows[rid].status == PENDING && rows[rid].expiresAt <= now;
      var timedOut: seq<Rid> := [];
      while todo != {}
        invariant NoDup(timedOut) && log == q.log
        invariant forall rid :: rid in timedOut || rid in todo <==> Expired(q, rid, now)
        invariant forall rid :: rid in timedOut ==> rid !in todo
        invariant rows.Keys == q.rows.Keys
        invariant forall rid :: rid in rows ==> rows[rid] == if rid in timedOut then TimedOut(q.rows[rid]) else q.rows[rid]
        decreases todo
      {
        var rid :| rid in todo;
        var row := rows[rid];
        var status, note := TIMEOUT, "expired";
        if AutoDenies(row.kind) {
          status, note := DENIED, "auto_deny_on_timeout";
        }
        rows := rows[rid := row.(status := status, note := if row.note.Some? then row.note else Some(note))];
        NoDupAppend(timedOut, rid);
        timedOut := timedOut + [rid];
        todo := todo - {rid};
      }
      assert rows == ExpireRows(q, now);
      for i := 0 to |timedOut|
        invariant log == q.log + TimeoutEvents(timedOut[..i]) && rows == ExpireRows(q, now)
      {
        assert timedOut[..i + 1][..i] == timedOut[..i];
        ConcatSnoc(q.log, TimeoutEvents(timedOut[..i]), ApprovalTimeout(timedOut[i]));
        log := log + [ApprovalTimeout(timedOut[i])];
      }
      assert timedOut[..|timedOut|] == timedOut;
      count, expired := |timedOut|, timedOut;
      StepKeepsQueue(q, OpTimeouts(now, expired));
    }

    /** The rows the decider is asked about, oldest first. */
    method PendingFor(decider: Target) returns (shown: seq<Rid>)
      ensures NoDup(shown) && forall rid :: rid in shown <==> rid in rows && ShownTo(rows[rid], decider)
      ensures EarliestFirst(map rid | rid in rows :: rows[rid].createdAt, shown)
    {
      var times: map<Rid, int>;
      if decider == SECURITY {
        times := map rid | rid in rows && rows[rid].status == PENDING && rows[rid].requireSecurity
                           && rows[rid].securityDecision.None? :: rows[rid].createdAt;
      } else {
        times := map rid | rid in rows && rows[rid].status == PENDING && rows[rid].target == decider
                           && (!rows[rid].requireSecurity || rows[rid].securityDecision.Some?) :: rows[rid].createdAt;
      }
      shown := SortedByTime(times);
    }
  }
}
