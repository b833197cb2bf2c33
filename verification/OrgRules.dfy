/**
 What hiring, reassigning and firing do to the org table, one transaction each, and what every run of
 them keeps (modules/identity/org.py). The class Org carries these steps out.
 */
module OrgRules {
  import opened Common
  import opened Forest

  const MAX_ACTIVE_AGENTS := 100
  const MAX_CEO_DIRECT_REPORTS := 5
  const MAX_MANAGER_DIRECT_REPORTS := 4

  datatype Event =
    | AgentCreated(id: Id, role: Role, manager: Option<Id>)
    | AgentHired(id: Id, role: Role, manager: Option<Id>, actor: Id)
    | AgentFired(id: Id, actor: Id)
    | AgentFireNotify(notified: Id, fired: Id, actor: Id)
    | AgentOrphaned(id: Id, formerManager: Id)

  /** The agents table, its ids in hired_at order, and the events appended. */
  datatype OrgState = OrgState(agents: Table, rows: seq<Id>, log: seq<Event>)

  datatype HireError =
    | MustRouteViaHr | ManagerRequired | HeadcountLimit | ManagerNotFound | ManagerNotActive
    | SelfReport | HrCanOnlyManageHr | DirectReportLimit | IdTaken

  datatype ReassignOutcome =
    | ReassignDenied(error: ReassignError)
    | AlreadyThere
    | MovedButEventRefused  // the move is committed, then appending AGENT_REASSIGNED raises

  datatype ReassignError =
    | ReasonTooShort | SelfMove | TargetNotFound | TargetNotActive | SpecialRole | NewManagerNotFound
    | NewManagerNotActive | ActorNotActive | NotManagerNorCeo | HrOnlyHr | NewManagerFull | Cycle

  datatype FireOutcome = Fired | FireDenied(error: FireError)

  datatype FireError =
    | FireMustRouteViaHr | FireActorNotActive | FireTargetNotActive | SelfFire | CeoCannotBeFired
    | NoHrReplacement | NotSubordinate | BadReason

  function Limit(role: Role): nat {
    if role == CEO then MAX_CEO_DIRECT_REPORTS else MAX_MANAGER_DIRECT_REPORTS
  }

  function Actives(t: Table): set<Id> {
    set a | a in t && Active(t, a)
  }

  predicate ReportsTo(t: Table, a: Id, m: Id) {
    Active(t, a) && t[a].reportsTo == Some(m)
  }

  function ActiveReports(t: Table, m: Id): set<Id> {
    set a | a in t && ReportsTo(t, a, m)
  }

  /** SELECT id ... WHERE reports_to = m AND status = 'active' ORDER BY hired_at */
  function ReportsInOrder(t: Table, rows: seq<Id>, m: Id): (r: seq<Id>)
    ensures forall a :: a in r <==> a in rows && ReportsTo(t, a, m)
    ensures NoDup(rows) ==> NoDup(r)
  {
    if rows == [] then []
    else
      var rest := ReportsInOrder(t, rows[..|rows| - 1], m);
      assert forall a :: a in rows <==> a in rows[..|rows| - 1] || a == rows[|rows| - 1];
      if ReportsTo(t, rows[|rows| - 1], m) then rest + [rows[|rows| - 1]] else rest
  }

  predicate HasOtherActiveHr(t: Table, x: Id) {
    exists y :: y in t && y != x && Active(t, y) && t[y].role == HR
  }

  ghost predicate HasActiveHr(t: Table) {
    exists y :: y in t && Active(t, y) && t[y].role == HR
  }

  // ------------------------------------------------------------ add_agent

  function HireCheck(t: Table, id: Id, role: Role, manager: Option<Id>, viaHr: bool, bootstrap: bool): Option<HireError> {
    if !bootstrap && !viaHr then Some(MustRouteViaHr)
    else if !bootstrap && manager.None? then Some(ManagerRequired)
    else if |Actives(t)| >= MAX_ACTIVE_AGENTS then Some(HeadcountLimit)
    else if manager.Some? && manager.value !in t then Some(ManagerNotFound)
    else if manager.Some? && !Active(t, manager.value) then Some(ManagerNotActive)
    else if manager.Some? && manager.value == id then Some(SelfReport)
    else if manager.Some? && !bootstrap && t[manager.value].role == HR && role != HR then Some(HrCanOnlyManageHr)
    else if manager.Some? && |ActiveReports(t, manager.value)| >= Limit(t[manager.value].role) then Some(DirectReportLimit)
    else if id in t then Some(IdTaken)
    else None
  }

  /** The new row takes place `at` in the hired_at order. */
  function Insert<T>(s: seq<T>, at: nat, x: T): seq<T> {
    if at <= |s| then s[..at] + [x] + s[at..] else s + [x]
  }

  function Hire(s: OrgState, id: Id, role: Role, manager: Option<Id>, actor: Id, viaHr: bool, bootstrap: bool, at: nat): OrgState {
    if HireCheck(s.agents, id, role, manager, viaHr, bootstrap).Some? then s
    else OrgState(
      s.agents[id := Agent(role, manager, ACTIVE)],
      Insert(s.rows, at, id),
      s.log + [if bootstrap then AgentCreated(id, role, manager) else AgentHired(id, role, manager, actor)])
  }

  // ------------------------------------------------------------ reassign

  ghost function ReassignCheck(t: Table, actor: Id, target: Id, manager: Id, reasonOk: bool): ReassignOutcome {
    if !reasonOk then ReassignDenied(ReasonTooShort)
    else if target == manager then ReassignDenied(SelfMove)
    else if target !in t then ReassignDenied(TargetNotFound)
    else if !Active(t, target) then ReassignDenied(TargetNotActive)
    else if t[target].role != MEMBER then ReassignDenied(SpecialRole)
    else if manager !in t then ReassignDenied(NewManagerNotFound)
    else if !Active(t, manager) then ReassignDenied(NewManagerNotActive)
    else if t[target].reportsTo == Some(manager) then AlreadyThere
    else if !Active(t, actor) then ReassignDenied(ActorNotActive)
    else if t[actor].role != CEO && t[target].reportsTo != Some(actor) then ReassignDenied(NotManagerNorCeo)
    else if t[manager].role == HR && t[target].role != HR then ReassignDenied(HrOnlyHr)
    else if |ActiveReports(t, manager)| >= Limit(t[manager].role) then ReassignDenied(NewManagerFull)
    else if Below(t, manager, target) then ReassignDenied(Cycle)
    else MovedButEventRefused
  }

  ghost function Reassign(s: OrgState, actor: Id, target: Id, manager: Id, reasonOk: bool): OrgState {
    if ReassignCheck(s.agents, actor, target, manager, reasonOk) == MovedButEventRefused
    then s.(agents := Repoint(s.agents, target, manager))
    else s
  }

  // ------------------------------------------------------------ fire

  ghost function FireCheck(t: Table, actor: Id, target: Id, reasonOk: bool, viaHr: bool): FireOutcome {
    if !viaHr then FireDenied(FireMustRouteViaHr)
    else if !Active(t, actor) then FireDenied(FireActorNotActive)
    else if !Active(t, target) then FireDenied(FireTargetNotActive)
    else if actor == target then FireDenied(SelfFire)
    else if t[target].role == CEO then FireDenied(CeoCannotBeFired)
    else if t[target].role == HR && !HasOtherActiveHr(t, target) then FireDenied(NoHrReplacement)
    else if !Below(t, target, actor) then FireDenied(NotSubordinate)
    else if !reasonOk then FireDenied(BadReason)
    else Fired
  }

  function WithoutTarget(t: Table, target: Id): Table {
    map a | a in t ::
      if a == target then t[a].(status := FIRED)
      else if ReportsTo(t, a, target) then t[a].(reportsTo := None)
      else t[a]
  }

  function FireEvents(s: OrgState, actor: Id, target: Id): seq<Event>
    requires target in s.agents
  {
    [AgentFired(target, actor)]
    + (if s.agents[target].reportsTo.Some? && s.agents[target].reportsTo.value != actor
       then [AgentFireNotify(s.agents[target].reportsTo.value, target, actor)] else [])
    + OrphanEvents(ReportsInOrder(s.agents, s.rows, target), target)
  }

  function OrphanEvents(orphans: seq<Id>, target: Id): seq<Event> {
    if orphans == [] then []
    else OrphanEvents(orphans[..|orphans| - 1], target) + [AgentOrphaned(orphans[|orphans| - 1], target)]
  }

  ghost function Fire(s: OrgState, actor: Id, target: Id, reasonOk: bool, viaHr: bool): OrgState {
    if FireCheck(s.agents, actor, target, reasonOk, viaHr) != Fired then s
    else s.(agents := WithoutTarget(s.agents, target), log := s.log + FireEvents(s, actor, target))
  }

  // ------------------------------------------------------------ what every run keeps

  /** The row was inserted by the factory's bootstrap, which may put anybody under HR. */
  ghost predicate Bootstrapped(s: OrgState, a: Id) {
    exists e :: e in s.log && e.AgentCreated? && e.id == a
  }

  ghost predicate ManagersActive(t: Table) {
    forall a :: Active(t, a) && t[a].reportsTo.Some? ==> Active(t, t[a].reportsTo.value)
  }

  ghost predicate SpanOfControl(t: Table) {
    && |Actives(t)| <= MAX_ACTIVE_AGENTS
    && forall m :: m in t ==> |ActiveReports(t, m)| <= Limit(t[m].role)
  }

  ghost predicate HrManagesHr(s: OrgState) {
    forall a :: Active(s.agents, a) && s.agents[a].role != HR && s.agents[a].reportsTo.Some?
      && s.agents[a].reportsTo.value in s.agents && s.agents[s.agents[a].reportsTo.value].role == HR
      ==> Bootstrapped(s, a)
  }

  ghost predicate Inv(s: OrgState) {
    && NoDup(s.rows) && Elems(s.rows) == s.agents.Keys
    && Closed(s.agents) && Acyclic(s.agents)
    && ManagersActive(s.agents)
    && SpanOfControl(s.agents)
    && HrManagesHr(s)
  }

  /** Rows are never dropped, never change role, and a fired agent stays fired. */
  ghost predicate RowsPersist(t: Table, t': Table) {
    forall a :: a in t ==> a in t' && t'[a].role == t[a].role && (t[a].status == FIRED ==> t'[a].status == FIRED)
  }

  const EMPTY := OrgState(map[], [], [])

  lemma EmptyInv()
    ensures Inv(EMPTY)
  {
    assert Actives(EMPTY.agents) == {};
  }

  lemma InsertKeepsRows(rows: seq<Id>, at: nat, id: Id)
    requires NoDup(rows) && id !in rows
    ensures NoDup(Insert(rows, at, id)) && Elems(Insert(rows, at, id)) == Elems(rows) + {id}
  {
    var r := Insert(rows, at, id);
    forall a
      ensures a in r <==> a in rows || a == id
    {
      if at <= |rows| {
        assert rows == rows[..at] + rows[at..];
      }
    }
  }

  lemma HireKeepsInv(s: OrgState, id: Id, role: Role, manager: Option<Id>, actor: Id, viaHr: bool, bootstrap: bool, at: nat)
    requires Inv(s)
    ensures Inv(Hire(s, id, role, manager, actor, viaHr, bootstrap, at))
  {
    var s' := Hire(s, id, role, manager, actor, viaHr, bootstrap, at);
    if HireCheck(s.agents, id, role, manager, viaHr, bootstrap).None? {
      InsertKeepsRows(s.rows, at, id);
      HireKeepsForest(s.agents, id, role, manager);
      HireKeepsSpan(s.agents, id, role, manager);
      HireKeepsHr(s, id, role, manager, actor, viaHr, bootstrap, at);
    }
  }

  lemma HireKeepsForest(t: Table, id: Id, role: Role, manager: Option<Id>)
    requires Closed(t) && Acyclic(t) && ManagersActive(t) && id !in t
    requires manager.Some? ==> Active(t, manager.value)
    ensures
      var t' := t[id := Agent(role, manager, ACTIVE)];
      Closed(t') && Acyclic(t') && ManagersActive(t')
  {
    KeepsForest(t, t[id := Agent(role, manager, ACTIVE)]);
  }

  lemma HireKeepsSpan(t: Table, id: Id, role: Role, manager: Option<Id>)
    requires SpanOfControl(t) && Closed(t) && id !in t && |Actives(t)| < MAX_ACTIVE_AGENTS
    requires manager.Some? ==> manager.value in t && |ActiveReports(t, manager.value)| < Limit(t[manager.value].role)
    ensures SpanOfControl(t[id := Agent(role, manager, ACTIVE)])
  {
    var t' := t[id := Agent(role, manager, ACTIVE)];
    assert Actives(t') == Actives(t) + {id};
    forall m | m in t'
      ensures |ActiveReports(t', m)| <= Limit(t'[m].role)
    {
      HireKeepsReports(t, id, role, manager, m);
      NoReportsYet(t, id);
    }
  }

  lemma NoReportsYet(t: Table, id: Id)
    requires Closed(t) && id !in t
    ensures ActiveReports(t, id) == {}
  {
  }

  lemma HireKeepsReports(t: Table, id: Id, role: Role, manager: Option<Id>, m: Id)
    requires Closed(t) && id !in t
    ensures |ActiveReports(t[id := Agent(role, manager, ACTIVE)], m)|
         == |ActiveReports(t, m)| + (if manager == Some(m) then 1 else 0)
  {
    var t' := t[id := Agent(role, manager, ACTIVE)];
    if manager == Some(m) {
      assert ActiveReports(t', m) == ActiveReports(t, m) + {id};
    } else {
      assert ActiveReports(t', m) == ActiveReports(t, m);
    }
  }

  lemma HireKeepsHr(s: OrgState, id: Id, role: Role, manager: Option<Id>, actor: Id, viaHr: bool, bootstrap: bool, at: nat)
    requires Inv(s)
    requires HireCheck(s.agents, id, role, manager, viaHr, bootstrap).None?
    ensures HrManagesHr(Hire(s, id, role, manager, actor, viaHr, bootstrap, at))
  {
    var s' := Hire(s, id, role, manager, actor, viaHr, bootstrap, at);
    forall a | Bootstrapped(s, a)
      ensures Bootstrapped(s', a)
    {
      var e :| e in s.log && e.AgentCreated? && e.id == a;
      assert e in s'.log;
    }
    if bootstrap {
      assert s'.log[|s.log|] == AgentCreated(id, role, manager);
      assert Bootstrapped(s', id);
    }
  }

  lemma ReassignKeepsInv(s: OrgState, actor: Id, target: Id, manager: Id, reasonOk: bool)
    requires Inv(s)
    ensures Inv(Reassign(s, actor, target, manager, reasonOk))
  {
    var s' := Reassign(s, actor, target, manager, reasonOk);
    if ReassignCheck(s.agents, actor, target, manager, reasonOk) == MovedButEventRefused {
      RepointAcyclicIff(s.agents, target, manager);
      ReassignKeepsSpan(s.agents, target, manager);
      ReassignKeepsHr(s, target, manager);
    }
  }

  lemma ReassignKeepsHr(s: OrgState, target: Id, manager: Id)
    requires HrManagesHr(s) && ManagersActive(s.agents) && Active(s.agents, target) && Active(s.agents, manager)
    requires s.agents[manager].role == HR ==> s.agents[target].role == HR
    ensures ManagersActive(Repoint(s.agents, target, manager))
    ensures HrManagesHr(s.(agents := Repoint(s.agents, target, manager)))
  {
    var s' := s.(agents := Repoint(s.agents, target, manager));
    assert forall a :: Bootstrapped(s, a) ==> Bootstrapped(s', a);
  }

  lemma ReassignKeepsSpan(t: Table, target: Id, manager: Id)
    requires SpanOfControl(t) && Active(t, target) && manager in t
    requires |ActiveReports(t, manager)| < Limit(t[manager].role)
    ensures SpanOfControl(Repoint(t, target, manager))
  {
    var t' := Repoint(t, target, manager);
    assert Actives(t') == Actives(t);
    forall m | m in t'
      ensures |ActiveReports(t', m)| <= Limit(t'[m].role)
    {
      ReassignKeepsReports(t, target, manager, m);
    }
  }

  lemma ReassignKeepsReports(t: Table, target: Id, manager: Id, m: Id)
    requires target in t
    ensures |ActiveReports(Repoint(t, target, manager), m)| <= |ActiveReports(t, m)| + (if m == manager then 1 else 0)
  {
    var t' := Repoint(t, target, manager);
    SubsetCard(ActiveReports(t', m) - {target}, ActiveReports(t, m));
    if m != manager {
      SubsetCard(ActiveReports(t', m), ActiveReports(t, m));
    }
  }

  lemma FireKeepsInv(s: OrgState, actor: Id, target: Id, reasonOk: bool, viaHr: bool)
    requires Inv(s)
    ensures Inv(Fire(s, actor, target, reasonOk, viaHr))
  {
    var s' := Fire(s, actor, target, reasonOk, viaHr);
    if FireCheck(s.agents, actor, target, reasonOk, viaHr) == Fired {
      FireKeepsForest(s.agents, target);
      FireKeepsSpan(s.agents, target);
      FireKeepsHr(s, s', target);
    }
  }

  lemma FireKeepsForest(t: Table, target: Id)
    requires Closed(t) && Acyclic(t) && ManagersActive(t) && target in t
    ensures Closed(WithoutTarget(t, target)) && Acyclic(WithoutTarget(t, target))
    ensures ManagersActive(WithoutTarget(t, target))
  {
    KeepsForest(t, WithoutTarget(t, target));
  }

  lemma FireKeepsHr(s: OrgState, s': OrgState, target: Id)
    requires HrManagesHr(s) && target in s.agents
    requires s'.agents == WithoutTarget(s.agents, target)
    requires s.log <= s'.log
    ensures HrManagesHr(s')
  {
    forall a | Bootstrapped(s, a)
      ensures Bootstrapped(s', a)
    {
      var e :| e in s.log && e.AgentCreated? && e.id == a;
      assert e in s'.log;
    }
  }

  lemma FireKeepsSpan(t: Table, target: Id)
    requires SpanOfControl(t) && target in t
    ensures SpanOfControl(WithoutTarget(t, target))
  {
    var t' := WithoutTarget(t, target);
    SubsetCard(Actives(t'), Actives(t));
    forall m | m in t'
      ensures |ActiveReports(t', m)| <= Limit(t'[m].role)
    {
      SubsetCard(ActiveReports(t', m), ActiveReports(t, m));
    }
  }

  // ------------------------------------------------------------ runs

  datatype Op =
    | OpHire(id: Id, role: Role, manager: Option<Id>, actor: Id, viaHr: bool, bootstrap: bool, at: nat)
    | OpReassign(actor: Id, target: Id, newManager: Id, reasonOk: bool)
    | OpFire(actor: Id, target: Id, reasonOk: bool, viaHr: bool)

  ghost function Step(s: OrgState, op: Op): OrgState {
    match op
    case OpHire(id, role, manager, actor, viaHr, bootstrap, at) => Hire(s, id, role, manager, actor, viaHr, bootstrap, at)
    case OpReassign(actor, target, manager, reasonOk) => Reassign(s, actor, target, manager, reasonOk)
    case OpFire(actor, target, reasonOk, viaHr) => Fire(s, actor, target, reasonOk, viaHr)
  }

  ghost function Run(s: OrgState, ops: seq<Op>): OrgState
    decreases |ops|
  {
    if ops == [] then s else Run(Step(s, ops[0]), ops[1..])
  }

  /**
   After any run from a good org (the empty one to begin with): no dangling ids, no cycles over all
   rows, fired ones included; active agents have active managers; the span-of-control, headcount and
   HR rules hold; an active HR, once there, is always there; an active CEO is never fired; and no id
   is ever dropped, changes role or comes back after being fired.
   */
  lemma {:induction false} RunKeepsOrg(s: OrgState, ops: seq<Op>)
    requires Inv(s)
    ensures Inv(Run(s, ops))
    ensures HasActiveHr(s.agents) ==> HasActiveHr(Run(s, ops).agents)
    ensures forall a :: Active(s.agents, a) && s.agents[a].role == CEO ==> Active(Run(s, ops).agents, a)
    ensures RowsPersist(s.agents, Run(s, ops).agents)
    decreases |ops|
  {
    if ops != [] {
      StepKeepsInv(s, ops[0]);
      StepKeepsPeople(s, ops[0]);
      RunKeepsOrg(Step(s, ops[0]), ops[1..]);
    }
  }

  lemma StepKeepsInv(s: OrgState, op: Op)
    requires Inv(s)
    ensures Inv(Step(s, op))
  {
    match op
    case OpHire(id, role, manager, actor, viaHr, bootstrap, at) =>
      HireKeepsInv(s, id, role, manager, actor, viaHr, bootstrap, at);
    case OpReassign(actor, target, manager, reasonOk) =>
      ReassignKeepsInv(s, actor, target, manager, reasonOk);
    case OpFire(actor, target, reasonOk, viaHr) =>
      FireKeepsInv(s, actor, target, reasonOk, viaHr);
  }

  lemma StepKeepsPeople(s: OrgState, op: Op)
    ensures HasActiveHr(s.agents) ==> HasActiveHr(Step(s, op).agents)
    ensures forall a :: Active(s.agents, a) && s.agents[a].role == CEO ==> Active(Step(s, op).agents, a)
    ensures RowsPersist(s.agents, Step(s, op).agents)
  {
    var t, t' := s.agents, Step(s, op).agents;
    if HasActiveHr(t) {
      var y :| y in t && Active(t, y) && t[y].role == HR;
      if op.OpFire? && op.target == y && !Active(t', y) {
        var z :| z in t && z != y && Active(t, z) && t[z].role == HR;
        assert Active(t', z);
      } else {
        assert Active(t', y);
      }
    }
  }
}
