/**
 What hiring, reassigning and firing come to, told from the table alone, and what the log tells about it over
 every run (modules/identity/org.py).
 */
module OrgOutcomes {
  import opened Common
  import opened Forest
  import opened OrgRules

  // ------------------------------------------------------------ firing

  predicate IsFired(t: Table, a: Id) {
    a in t && t[a].status == FIRED
  }

  /** Another active agent of the people team could take over. */
  ghost predicate Replaceable(t: Table, hr: Id) {
    exists y :: y in t && y != hr && t[y].status == ACTIVE && t[y].role == HR
  }

  /**
   An active agent ends fired iff the request came through HR with a proper reason, the actor is active and
   sits above the agent, and the agent is neither a CEO nor the last active HR.
   */
  lemma FiredIff(s: OrgState, actor: Id, target: Id, reasonOk: bool, viaHr: bool)
    ensures
      Active(s.agents, target) && IsFired(Fire(s, actor, target, reasonOk, viaHr).agents, target) <==> (
        && viaHr && reasonOk && Active(s.agents, actor) && Active(s.agents, target)
        && actor != target && Below(s.agents, target, actor)
        && s.agents[target].role != CEO && (s.agents[target].role == HR ==> Replaceable(s.agents, target)))
  {
  }

  /** A fire request changes the target, its active reports, who become roots, and nobody else. */
  lemma FireLeavesOthers(s: OrgState, actor: Id, target: Id, reasonOk: bool, viaHr: bool, x: Id)
    requires x in s.agents
    ensures
      var t, t' := s.agents, Fire(s, actor, target, reasonOk, viaHr).agents;
      && t'.Keys == t.Keys && t'[x].role == t[x].role
      && (t'[x].status == t[x].status || (x == target && IsFired(t', x)))
      && (t'[x].reportsTo == t[x].reportsTo
          || (IsFired(t', target) && Active(t, x) && t[x].reportsTo == Some(target) && t'[x].reportsTo == None))
      && (Active(t, target) && IsFired(t', target) && Active(t, x) && t[x].reportsTo == Some(target) && x != target ==> t'[x].reportsTo == None)
  {
  }

  /**
   A firing is announced with its actor, first of all; then to the manager of the target, unless that is the
   actor; and each of its active reports is announced as orphaned. Nothing else is.
   */
  lemma FireIsAnnounced(s: OrgState, actor: Id, target: Id, reasonOk: bool, viaHr: bool)
    requires NoDup(s.rows) && Elems(s.rows) == s.agents.Keys
    ensures
      var s' := Fire(s, actor, target, reasonOk, viaHr);
      var news := s'.log[|s.log|..];
      && s.log <= s'.log && s'.rows == s.rows
      && (news == [] <==> !(Active(s.agents, target) && IsFired(s'.agents, target)))
      && (news != [] ==> (
            && target in s.agents && news[0] == AgentFired(target, actor)
            && (forall e :: e in news[1..] <==> (
                  || (exists m :: s.agents[target].reportsTo == Some(m) && m != actor && e == AgentFireNotify(m, target, actor))
                  || (exists x :: ReportsTo(s.agents, x, target) && e == AgentOrphaned(x, target))))))
  {
    var s' := Fire(s, actor, target, reasonOk, viaHr);
    FiredIff(s, actor, target, reasonOk, viaHr);
    if FireCheck(s.agents, actor, target, reasonOk, viaHr) == Fired {
      var orphans := ReportsInOrder(s.agents, s.rows, target);
      OrphansAnnounced(orphans, target);
      forall x
        ensures x in orphans <==> ReportsTo(s.agents, x, target)
      {
        assert x in s.rows <==> x in Elems(s.rows);
      }
      var notified := if s.agents[target].reportsTo.Some? && s.agents[target].reportsTo.value != actor
                      then [AgentFireNotify(s.agents[target].reportsTo.value, target, actor)] else [];
      var news := s'.log[|s.log|..];
      assert news == FireEvents(s, actor, target);
      assert news == [AgentFired(target, actor)] + (notified + OrphanEvents(orphans, target));
      assert news[1..] == notified + OrphanEvents(orphans, target);
    }
  }

  lemma {:induction false} OrphansAnnounced(orphans: seq<Id>, target: Id)
    ensures forall e :: e in OrphanEvents(orphans, target) <==> exists x :: x in orphans && e == AgentOrphaned(x, target)
  {
    if orphans != [] {
      var front, last := orphans[..|orphans| - 1], orphans[|orphans| - 1];
      OrphansAnnounced(front, target);
      assert orphans == front + [last];
    }
  }

  /** What speaks against a fire request; the first that holds, in this order, is the answer. */
  ghost predicate AgainstFiring(t: Table, actor: Id, target: Id, reasonOk: bool, viaHr: bool, e: FireError) {
    match e
    case FireMustRouteViaHr => !viaHr
    case FireActorNotActive => !Active(t, actor)
    case FireTargetNotActive => !Active(t, target)
    case SelfFire => actor == target
    case CeoCannotBeFired => target in t && t[target].role == CEO
    case NoHrReplacement => target in t && t[target].role == HR && !Replaceable(t, target)
    case NotSubordinate => !Below(t, target, actor)
    case BadReason => !reasonOk
  }

  function FirePlace(e: FireError): nat {
    match e
    case FireMustRouteViaHr => 1
    case FireActorNotActive => 2
    case FireTargetNotActive => 3
    case SelfFire => 4
    case CeoCannotBeFired => 5
    case NoHrReplacement => 6
    case NotSubordinate => 7
    case BadReason => 8
  }

  /** A fire request goes through iff nothing speaks against it, and is refused for e iff e is the first that does. */
  lemma FireRefusalIsFirst(t: Table, actor: Id, target: Id, reasonOk: bool, viaHr: bool)
    ensures FireCheck(t, actor, target, reasonOk, viaHr) == Fired <==> forall e :: !AgainstFiring(t, actor, target, reasonOk, viaHr, e)
    ensures forall e :: FireCheck(t, actor, target, reasonOk, viaHr) == FireDenied(e) <==> (
              && AgainstFiring(t, actor, target, reasonOk, viaHr, e)
              && forall d: FireError :: FirePlace(d) < FirePlace(e) ==> !AgainstFiring(t, actor, target, reasonOk, viaHr, d))
  {
    var r := FireCheck(t, actor, target, reasonOk, viaHr);
    if r.FireDenied? {
      assert AgainstFiring(t, actor, target, reasonOk, viaHr, r.error);
      assert forall d: FireError :: FirePlace(d) < FirePlace(r.error) ==> !AgainstFiring(t, actor, target, reasonOk, viaHr, d);
    }
  }

  // ------------------------------------------------------------ hiring

  /** How many active agents report to m. */
  ghost function Reports(t: Table, m: Id): nat {
    |set a | a in t && t[a].status == ACTIVE && t[a].reportsTo == Some(m)|
  }

  predicate HasRoom(reports: nat, role: Role) {
    reports < if role == CEO then 5 else 4
  }

  /**
   A new agent is there afterwards iff it is new, it came through HR with a manager or from the factory, fewer
   than 100 agents are active, and the manager, if any, is another active agent with room for it, not HR unless
   it is HR itself or the factory says so. It then is active, in that role, under that manager.
   */
  lemma HiredIff(s: OrgState, id: Id, role: Role, manager: Option<Id>, actor: Id, viaHr: bool, bootstrap: bool, at: nat)
    ensures
      var s' := Hire(s, id, role, manager, actor, viaHr, bootstrap, at);
      && (id !in s.agents && id in s'.agents <==> (
            && id !in s.agents && (bootstrap || (viaHr && manager.Some?))
            && |set a | a in s.agents && s.agents[a].status == ACTIVE| < 100
            && (manager.Some? ==> (
                  && Active(s.agents, manager.value)
                  && (bootstrap || s.agents[manager.value].role != HR || role == HR)
                  && HasRoom(Reports(s.agents, manager.value), s.agents[manager.value].role)))))
      && (if id !in s.agents && id in s'.agents
          then s'.agents == s.agents[id := Agent(role, manager, ACTIVE)] && Elems(s'.rows) == Elems(s.rows) + {id}
               && s'.log == s.log + [if bootstrap then AgentCreated(id, role, manager) else AgentHired(id, role, manager, actor)]
          else s' == s)
  {
    assert Actives(s.agents) == set a | a in s.agents && s.agents[a].status == ACTIVE;
    if manager.Some? {
      assert ActiveReports(s.agents, manager.value)
          == set a | a in s.agents && s.agents[a].status == ACTIVE && s.agents[a].reportsTo == manager;
    }
    InsertHas(s.rows, at, id);
  }

  lemma InsertHas<T>(s: seq<T>, at: nat, x: T)
    ensures Elems(Insert(s, at, x)) == Elems(s) + {x}
    ensures at <= |s| ==> Insert(s, at, x)[..at] == s[..at] && Insert(s, at, x)[at] == x && Insert(s, at, x)[at + 1..] == s[at..]
  {
    var r := Insert(s, at, x);
    forall y
      ensures y in r <==> y in s || y == x
    {
      if at <= |s| {
        assert s == s[..at] + s[at..];
      }
    }
  }

  /** What speaks against a hire; the first that holds, in the order below, is the answer. */
  ghost predicate AgainstHiring(t: Table, id: Id, role: Role, manager: Option<Id>, viaHr: bool, bootstrap: bool, e: HireError) {
    match e
    case MustRouteViaHr => !bootstrap && !viaHr
    case ManagerRequired => !bootstrap && manager == None
    case HeadcountLimit => |set a | a in t && t[a].status == ACTIVE| >= 100
    case ManagerNotFound => manager.Some? && manager.value !in t
    case ManagerNotActive => manager.Some? && IsFired(t, manager.value)
    case SelfReport => manager == Some(id)
    case HrCanOnlyManageHr => !bootstrap && manager.Some? && manager.value in t && t[manager.value].role == HR && role != HR
    case DirectReportLimit => manager.Some? && manager.value in t && !HasRoom(Reports(t, manager.value), t[manager.value].role)
    case IdTaken => id in t
  }

  function HirePlace(e: HireError): nat {
    match e
    case MustRouteViaHr => 1
    case ManagerRequired => 2
    case HeadcountLimit => 3
    case ManagerNotFound => 4
    case ManagerNotActive => 5
    case SelfReport => 6
    case HrCanOnlyManageHr => 7
    case DirectReportLimit => 8
    case IdTaken => 9
  }

  /** A hire goes through iff nothing speaks against it, and is refused for e iff e is the first that does. */
  lemma HireRefusalIsFirst(t: Table, id: Id, role: Role, manager: Option<Id>, viaHr: bool, bootstrap: bool)
    ensures HireCheck(t, id, role, manager, viaHr, bootstrap) == None <==>
            forall e :: !AgainstHiring(t, id, role, manager, viaHr, bootstrap, e)
    ensures forall e :: HireCheck(t, id, role, manager, viaHr, bootstrap) == Some(e) <==> (
              && AgainstHiring(t, id, role, manager, viaHr, bootstrap, e)
              && forall d: HireError :: HirePlace(d) < HirePlace(e) ==> !AgainstHiring(t, id, role, manager, viaHr, bootstrap, d))
  {
    var r := HireCheck(t, id, role, manager, viaHr, bootstrap);
    FirstAgainstHiring(t, id, role, manager, viaHr, bootstrap);
    if r.Some? {
      assert forall d: HireError :: HirePlace(d) == HirePlace(r.value) ==> d == r.value;
    }
  }

  lemma FirstAgainstHiring(t: Table, id: Id, role: Role, manager: Option<Id>, viaHr: bool, bootstrap: bool)
    ensures
      var r := HireCheck(t, id, role, manager, viaHr, bootstrap);
      && (r.Some? ==> AgainstHiring(t, id, role, manager, viaHr, bootstrap, r.value))
      && forall d: HireError :: r == None || HirePlace(d) < HirePlace(r.value) ==> !AgainstHiring(t, id, role, manager, viaHr, bootstrap, d)
  {
    assert Actives(t) == set a | a in t && t[a].status == ACTIVE;
    if manager.Some? {
      assert ActiveReports(t, manager.value) == set a | a in t && t[a].status == ACTIVE && t[a].reportsTo == manager;
    }
  }

  // ------------------------------------------------------------ reassigning

  /**
   A reassignment moves its target iff the reason is proper, the target an active member that does not report
   there yet, the new manager another active agent, not HR, with room and not below the target, and the actor an
   active CEO or the active manager of the target. It moves nobody else and changes nothing else.
   */
  lemma MovedIff(s: OrgState, actor: Id, target: Id, manager: Id, reasonOk: bool)
    ensures
      var t, s' := s.agents, Reassign(s, actor, target, manager, reasonOk);
      && (s' != s <==> (
            && reasonOk && target != manager && Active(t, target) && t[target].role == MEMBER
            && t[target].reportsTo != Some(manager) && Active(t, manager) && t[manager].role != HR
            && Active(t, actor) && (t[actor].role == CEO || t[target].reportsTo == Some(actor))
            && HasRoom(Reports(t, manager), t[manager].role) && !Below(t, manager, target)))
      && (s' != s ==> target in t && s' == s.(agents := t[target := t[target].(reportsTo := Some(manager))]))
  {
    var t := s.agents;
    assert ActiveReports(t, manager) == set a | a in t && t[a].status == ACTIVE && t[a].reportsTo == Some(manager);
    if ReassignCheck(t, actor, target, manager, reasonOk) == MovedButEventRefused {
      assert Repoint(t, target, manager)[target].reportsTo != t[target].reportsTo;
    }
  }

  /** What speaks against a reassignment; the first that holds, in the order below, is the answer. */
  ghost predicate AgainstMoving(t: Table, actor: Id, target: Id, manager: Id, reasonOk: bool, e: ReassignError) {
    match e
    case ReasonTooShort => !reasonOk
    case SelfMove => target == manager
    case TargetNotFound => target !in t
    case TargetNotActive => IsFired(t, target)
    case SpecialRole => target in t && t[target].role in {CEO, HR, SECURITY}
    case NewManagerNotFound => manager !in t
    case NewManagerNotActive => IsFired(t, manager)
    case ActorNotActive => !Active(t, actor)
    case NotManagerNorCeo => actor in t && target in t && t[actor].role != CEO && t[target].reportsTo != Some(actor)
    case HrOnlyHr => manager in t && t[manager].role == HR && target in t && t[target].role != HR
    case NewManagerFull => manager in t && !HasRoom(Reports(t, manager), t[manager].role)
    case Cycle => Below(t, manager, target)
  }

  /** Whether the target is there already is looked at between places 7 and 9. */
  function MovePlace(e: ReassignError): nat {
    match e
    case ReasonTooShort => 1
    case SelfMove => 2
    case TargetNotFound => 3
    case TargetNotActive => 4
    case SpecialRole => 5
    case NewManagerNotFound => 6
    case NewManagerNotActive => 7
    case ActorNotActive => 9
    case NotManagerNorCeo => 10
    case HrOnlyHr => 11
    case NewManagerFull => 12
    case Cycle => 13
  }

  /** The first of what speaks against a move is the answer, but for a target that is there already and could be moved. */
  lemma ReassignRefusalIsFirst(t: Table, actor: Id, target: Id, manager: Id, reasonOk: bool)
    ensures ReassignCheck(t, actor, target, manager, reasonOk) == AlreadyThere <==> (
              && (target in t && t[target].reportsTo == Some(manager))
              && forall d: ReassignError :: MovePlace(d) < 8 ==> !AgainstMoving(t, actor, target, manager, reasonOk, d))
    ensures forall e :: ReassignCheck(t, actor, target, manager, reasonOk) == ReassignDenied(e) <==> (
              && AgainstMoving(t, actor, target, manager, reasonOk, e)
              && (MovePlace(e) > 8 ==> target in t && t[target].reportsTo != Some(manager))
              && forall d: ReassignError :: MovePlace(d) < MovePlace(e) ==> !AgainstMoving(t, actor, target, manager, reasonOk, d))
  {
    assert ActiveReports(t, manager) == set a | a in t && t[a].status == ACTIVE && t[a].reportsTo == Some(manager);
    var r := ReassignCheck(t, actor, target, manager, reasonOk);
    if r.ReassignDenied? {
      assert AgainstMoving(t, actor, target, manager, reasonOk, r.error);
      assert forall d: ReassignError :: MovePlace(d) < MovePlace(r.error) ==> !AgainstMoving(t, actor, target, manager, reasonOk, d);
    }
  }

  // ------------------------------------------------------------ over runs

  predicate SaysFired(log: seq<Event>, a: Id) {
    exists e :: e in log && e.AgentFired? && e.id == a
  }

  /** The log tells of everybody who is fired, and of nobody else. */
  ghost predicate LogTellsFired(s: OrgState) {
    forall a :: SaysFired(s.log, a) <==> IsFired(s.agents, a)
  }

  /** Place k of the log is the announcement of a firing by somebody above the target, made by step i of the run. */
  ghost predicate FiredFromAbove(s: OrgState, ops: seq<Op>, i: nat, k: nat)
    requires i < |ops|
  {
    var before, after := Run(s, ops[..i]), Run(s, ops[..i + 1]);
    && |before.log| <= k < |after.log| && after.log[k].AgentFired?
    && ops[i].OpFire? && ops[i].actor == after.log[k].actor && ops[i].target == after.log[k].id
    && Active(before.agents, ops[i].target) && IsFired(after.agents, ops[i].target)
    && Active(before.agents, ops[i].actor) && Below(before.agents, ops[i].target, ops[i].actor)
  }

  lemma {:induction false} RunSnoc(s: OrgState, ops: seq<Op>, n: nat)
    requires n < |ops|
    ensures Run(s, ops[..n + 1]) == Step(Run(s, ops[..n]), ops[n])
    decreases n
  {
    if n == 0 {
      assert ops[..1] == [ops[0]] && ops[..1][1..] == [] && ops[..0] == [];
    } else {
      assert ops[..n + 1][1..] == ops[1..][..n] && ops[..n][1..] == ops[1..][..n - 1];
      RunSnoc(Step(s, ops[0]), ops[1..], n - 1);
    }
  }

  /** Every firing announced between the two is that of the operation: of an active agent, by an active one above it. */
  ghost predicate AnnouncesFromAbove(s: OrgState, op: Op, s': OrgState) {
    && s.log <= s'.log
    && forall k :: |s.log| <= k < |s'.log| && s'.log[k].AgentFired? ==>
         && op.OpFire? && op.actor == s'.log[k].actor && op.target == s'.log[k].id
         && Active(s.agents, op.target) && IsFired(s'.agents, op.target)
         && Active(s.agents, op.actor) && Below(s.agents, op.target, op.actor)
  }

  lemma StepTells(s: OrgState, op: Op)
    requires NoDup(s.rows) && Elems(s.rows) == s.agents.Keys
    ensures AnnouncesFromAbove(s, op, Step(s, op))
    ensures LogTellsFired(s) ==> LogTellsFired(Step(s, op))
  {
    if op.OpFire? {
      FireTells(s, op.actor, op.target, op.reasonOk, op.viaHr);
      if LogTellsFired(s) {
        NewsTell(s, op.actor, op.target, op.reasonOk, op.viaHr);
      }
    } else if LogTellsFired(s) && op.OpHire? {
      assert forall a :: SaysFired(Step(s, op).log, a) <==> SaysFired(s.log, a);
    }
  }

  lemma FireTells(s: OrgState, actor: Id, target: Id, reasonOk: bool, viaHr: bool)
    requires NoDup(s.rows) && Elems(s.rows) == s.agents.Keys
    ensures AnnouncesFromAbove(s, OpFire(actor, target, reasonOk, viaHr), Fire(s, actor, target, reasonOk, viaHr))
  {
    var s' := Fire(s, actor, target, reasonOk, viaHr);
    FireIsAnnounced(s, actor, target, reasonOk, viaHr);
    FiredIff(s, actor, target, reasonOk, viaHr);
    var news := s'.log[|s.log|..];
    forall k | |s.log| <= k < |s'.log|
      ensures s'.log[k] == news[k - |s.log|] && (k > |s.log| ==> s'.log[k] in news[1..])
    {
      assert k > |s.log| ==> news[1..][k - |s.log| - 1] == news[k - |s.log|];
    }
  }

  lemma NewsTell(s: OrgState, actor: Id, target: Id, reasonOk: bool, viaHr: bool)
    requires NoDup(s.rows) && Elems(s.rows) == s.agents.Keys && LogTellsFired(s)
    ensures LogTellsFired(Fire(s, actor, target, reasonOk, viaHr))
  {
    var s' := Fire(s, actor, target, reasonOk, viaHr);
    FireIsAnnounced(s, actor, target, reasonOk, viaHr);
    var news := s'.log[|s.log|..];
    assert s'.log == s.log + news && (news != [] ==> news == [news[0]] + news[1..]);
    forall a
      ensures SaysFired(s'.log, a) <==> SaysFired(s.log, a) || (news != [] && a == target)
    {
      if SaysFired(s.log, a) {
        var e :| e in s.log && e.AgentFired? && e.id == a;
        assert e in s'.log;
      }
      if news != [] && a == target {
        assert news[0] in s'.log;
      }
    }
  }

  /**
   Over every run from a good org whose log tells who is fired: it still does; and every firing that the run
   announces was of an active agent, by an active agent above it at that moment.
   */
  lemma {:induction false} RunFiresFromAbove(s: OrgState, ops: seq<Op>)
    requires Inv(s) && LogTellsFired(s)
    ensures s.log <= Run(s, ops).log && LogTellsFired(Run(s, ops))
    ensures forall k: nat :: |s.log| <= k < |Run(s, ops).log| && Run(s, ops).log[k].AgentFired? ==>
              exists i: nat :: i < |ops| && FiredFromAbove(s, ops, i, k)
    decreases |ops|
  {
    if ops != [] {
      var n := |ops| - 1;
      var front := ops[..n];
      RunFiresFromAbove(s, front);
      RunSnoc(s, ops, n);
      RunKeepsOrg(s, front);
      assert ops[..n + 1] == ops;
      StepTells(Run(s, front), ops[n]);
      forall k: nat | |s.log| <= k < |Run(s, ops).log| && Run(s, ops).log[k].AgentFired?
        ensures exists i: nat :: i < |ops| && FiredFromAbove(s, ops, i, k)
      {
        if k < |Run(s, front).log| {
          var i: nat :| i < n && FiredFromAbove(s, front, i, k);
          assert front[..i] == ops[..i] && front[..i + 1] == ops[..i + 1];
          assert FiredFromAbove(s, ops, i, k);
        } else {
          assert FiredFromAbove(s, ops, n, k);
        }
      }
    }
  }

  /** The empty org to begin with. */
  lemma EmptyTells()
    ensures Inv(EMPTY) && LogTellsFired(EMPTY)
  {
    EmptyInv();
  }
}
