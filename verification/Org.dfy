/** The identity service of one company (modules/identity/org.py): the three writers and the tree walks. */
module OrgService {
  import opened Common
  import opened Forest
  import opened OrgRules

  /** chain lists the managers of a from the immediate one to the top. */
  ghost predicate IsChain(t: Table, a: Id, chain: seq<Id>) {
    && (forall i :: 0 <= i < |chain| ==> Up(t, a, i + 1) == Some(chain[i]))
    && Up(t, a, |chain| + 1) == None
  }

  datatype ChainResult = ChainUnknown | CycleDetected(at: Id) | Chain(ids: seq<Id>)
  datatype DepthResult = DepthUnknown | NotAbove | Levels(n: nat)

  class Org {
    var agents: Table
    var rows: seq<Id>
    var log: seq<Event>

    ghost function State(): OrgState
      reads this
    {
      OrgState(agents, rows, log)
    }

    constructor ()
      ensures State() == EMPTY && Inv(State())
    {
      agents, rows, log := map[], [], [];
      EmptyInv();
    }

    method AddAgent(id: Id, role: Role, manager: Option<Id>, requestedBy: Id, viaHr: bool, bootstrap: bool, at: nat)
      returns (error: Option<HireError>)
      requires Inv(State())
      modifies this
      ensures error == HireCheck(old(agents), id, role, manager, viaHr, bootstrap)
      ensures State() == Hire(old(State()), id, role, manager, requestedBy, viaHr, bootstrap, at)
      ensures Inv(State())
    {
      HireKeepsInv(State(), id, role, manager, requestedBy, viaHr, bootstrap, at);
      if !bootstrap && !viaHr { return Some(MustRouteViaHr); }
      if !bootstrap && manager.None? { return Some(ManagerRequired); }
      if |Actives(agents)| >= MAX_ACTIVE_AGENTS { return Some(HeadcountLimit); }
      if manager.Some? {
        var m := manager.value;
        if m !in agents { return Some(ManagerNotFound); }
        if agents[m].status != ACTIVE { return Some(ManagerNotActive); }
        if m == id { return Some(SelfReport); }
        var parentRole := agents[m].role;
        if !bootstrap && parentRole == HR && role != HR { return Some(HrCanOnlyManageHr); }
        if |ActiveReports(agents, m)| >= Limit(parentRole) { return Some(DirectReportLimit); }
      }
      if id in agents { return Some(IdTaken); }
      agents := agents[id := Agent(role, manager, ACTIVE)];
      rows := Insert(rows, at, id);
      log := log + [if bootstrap then AgentCreated(id, role, manager) else AgentHired(id, role, manager, requestedBy)];
      error := None;
    }

    method Reassign(actor: Id, target: Id, newManager: Id, reasonOk: bool) returns (r: ReassignOutcome)
      requires Inv(State())
      modifies this
      ensures r == ReassignCheck(old(agents), actor, target, newManager, reasonOk)
      ensures State() == OrgRules.Reassign(old(State()), actor, target, newManager, reasonOk)
      ensures Inv(State())
    {
      ReassignKeepsInv(State(), actor, target, newManager, reasonOk);
      if !reasonOk { return ReassignDenied(ReasonTooShort); }
      if target == newManager { return ReassignDenied(SelfMove); }
      if target !in agents { return ReassignDenied(TargetNotFound); }
      if agents[target].status != ACTIVE { return ReassignDenied(TargetNotActive); }
      if agents[target].role in {CEO, HR, SECURITY} { return ReassignDenied(SpecialRole); }
      if newManager !in agents { return ReassignDenied(NewManagerNotFound); }
      if agents[newManager].status != ACTIVE { return ReassignDenied(NewManagerNotActive); }
      var currentManager := agents[target].reportsTo;
      if currentManager == Some(newManager) { return AlreadyThere; }
      if actor !in agents || agents[actor].status != ACTIVE { return ReassignDenied(ActorNotActive); }
      if agents[actor].role != CEO && Some(actor) != currentManager { return ReassignDenied(NotManagerNorCeo); }
      if agents[newManager].role == HR && agents[target].role != HR { return ReassignDenied(HrOnlyHr); }
      if |ActiveReports(agents, newManager)| >= Limit(agents[newManager].role) { return ReassignDenied(NewManagerFull); }
      var closesLoop := ReachesUp(newManager, target);
      if closesLoop { return ReassignDenied(Cycle); }
      agents := Repoint(agents, target, newManager);
      r := MovedButEventRefused;
    }

    /** The cycle walk of reassign: does the chain above `start` pass through `target`? */
    method ReachesUp(start: Id, target: Id) returns (found: bool)
      requires Closed(agents) && Acyclic(agents) && start in agents
      ensures found <==> Below(agents, start, target)
    {
      var cur := agents[start].reportsTo;
      ghost var rank := AcyclicIsRanked(agents);
      ghost var n: nat := 1;
      assert Up(agents, start, 0) == Some(start);
      while cur.Some?
        invariant n >= 1 && cur == Up(agents, start, n)
        invariant cur.Some? ==> cur.value in agents
        invariant forall k: nat :: 1 <= k < n ==> Up(agents, start, k) != Some(target)
        decreases if cur.Some? then rank[cur.value] + 1 else 0
      {
        if cur.value == target {
          return true;
        }
        if cur.value !in agents {
          break;
        }
        cur := agents[cur.value].reportsTo;
        n := n + 1;
      }
      forall k: nat | k >= 1
        ensures Up(agents, start, k) != Some(target)
      {
        if k >= n && Up(agents, start, k).Some? {
          UpPrefix(agents, start, n, k);
        }
      }
      found := false;
    }

    /** Ends, without ever raising, on every table that is a forest; on others it finds a real cycle. */
    method ChainUp(a: Id) returns (r: ChainResult)
      requires Closed(agents)
      ensures r.ChainUnknown? <==> a !in agents
      ensures r.Chain? ==> IsChain(agents, a, r.ids)
      ensures r.CycleDetected? ==> Below(agents, r.at, r.at)
      ensures a in agents && Acyclic(agents) ==> r.Chain?
    {
      if a !in agents {
        return ChainUnknown;
      }
      var chain: seq<Id> := [];
      var seen := {a};
      var cur := agents[a].reportsTo;
      assert Up(agents, a, 0) == Some(a);
      while cur.Some?
        invariant cur == Up(agents, a, |chain| + 1)
        invariant cur.Some? ==> cur.value in agents
        invariant forall i :: 0 <= i < |chain| ==> Up(agents, a, i + 1) == Some(chain[i])
        invariant seen <= agents.Keys && seen == {a} + Elems(chain)
        decreases agents.Keys - seen
      {
        if cur.value in seen {
          ghost var k: nat :| k <= |chain| && Up(agents, a, k) == Some(cur.value);
          UpAdd(agents, a, k, |chain| + 1 - k);
          assert Up(agents, cur.value, |chain| + 1 - k) == Some(cur.value);
          assert Below(agents, cur.value, cur.value);
          return CycleDetected(cur.value);
        }
        seen := seen + {cur.value};
        chain := chain + [cur.value];
        cur := agents[cur.value].reportsTo;
      }
      r := Chain(chain);
    }

    method Depth(ancestor: Id, descendant: Id) returns (r: DepthResult)
      requires Closed(agents) && Acyclic(agents)
      ensures r == Levels(0) <==> ancestor == descendant
      ensures r.DepthUnknown? <==> ancestor != descendant && descendant !in agents
      ensures r.Levels? && r.n >= 1 ==> Up(agents, descendant, r.n) == Some(ancestor)
      ensures r.Levels? ==> forall k: nat :: 1 <= k < r.n ==> Up(agents, descendant, k) != Some(ancestor)
      ensures ancestor != descendant && descendant in agents ==> (r.Levels? <==> Below(agents, descendant, ancestor))
    {
      if ancestor == descendant {
        return Levels(0);
      }
      if descendant !in agents {
        return DepthUnknown;
      }
      var d: nat := 0;
      var cur := agents[descendant].reportsTo;
      ghost var rank := AcyclicIsRanked(agents);
      assert Up(agents, descendant, 0) == Some(descendant);
      while cur.Some?
        invariant cur == Up(agents, descendant, d + 1)
        invariant cur.Some? ==> cur.value in agents
        invariant forall k: nat :: 1 <= k <= d ==> Up(agents, descendant, k) != Some(ancestor)
        decreases if cur.Some? then rank[cur.value] + 1 else 0
      {
        d := d + 1;
        if cur.value == ancestor {
          return Levels(d);
        }
        cur := agents[cur.value].reportsTo;
      }
      forall k: nat | k >= 1
        ensures Up(agents, descendant, k) != Some(ancestor)
      {
        if k > d && Up(agents, descendant, k).Some? {
          UpPrefix(agents, descendant, d + 1, k);
        }
      }
      r := NotAbove;
    }

    method DirectReports(a: Id) returns (r: seq<Id>)
      ensures r == ReportsInOrder(agents, rows, a)
    {
      r := ReportsInOrder(agents, rows, a);
    }

    /** The downward worklist: every active agent below a, each once, and nobody else. */
    method AllDescendants(a: Id) returns (out: seq<Id>)
      requires Inv(State())
      ensures NoDup(out)
      ensures forall x :: x in out <==> Active(agents, x) && Below(agents, x, a)
    {
      out := [];
      var frontier := DirectReports(a);
      FrontierStart(State(), a);
      while frontier != []
        invariant Frontier(agents, a, out, frontier) && Covered(agents, a, out, frontier)
        decreases agents.Keys - Elems(out)
      {
        var current := frontier[|frontier| - 1];
        FrontierStep(State(), a, out, frontier);
        var more := DirectReports(current);
        out := out + [current];
        frontier := frontier[..|frontier| - 1] + more;
      }
      FrontierEnd(State(), a, out);
    }

    method Fire(actor: Id, target: Id, reasonOk: bool, viaHr: bool) returns (r: FireOutcome)
      requires Inv(State())
      modifies this
      ensures r == FireCheck(old(agents), actor, target, reasonOk, viaHr)
      ensures r == Fired ==> Active(old(agents), actor) && Below(old(agents), target, actor) && old(agents)[target].role != CEO
      ensures State() == OrgRules.Fire(old(State()), actor, target, reasonOk, viaHr)
      ensures Inv(State())
    {
      FireKeepsInv(State(), actor, target, reasonOk, viaHr);
      if !viaHr { return FireDenied(FireMustRouteViaHr); }
      if !Active(agents, actor) { return FireDenied(FireActorNotActive); }
      if !Active(agents, target) { return FireDenied(FireTargetNotActive); }
      if actor == target { return FireDenied(SelfFire); }
      if agents[target].role == CEO { return FireDenied(CeoCannotBeFired); }
      if agents[target].role == HR && !HasOtherActiveHr(agents, target) { return FireDenied(NoHrReplacement); }
      var d := Depth(actor, target);
      if !d.Levels? || d.n == 0 { return FireDenied(NotSubordinate); }
      if !reasonOk { return FireDenied(BadReason); }
      DoFire(actor, target);
      r := Fired;
    }

    method DoFire(actor: Id, target: Id)
      requires target in agents
      modifies this
      ensures State() == old(State()).(agents := WithoutTarget(old(agents), target),
                                       log := old(log) + FireEvents(old(State()), actor, target))
    {
      var formerManager := agents[target].reportsTo;
      var orphans := DirectReports(target);
      agents := WithoutTarget(agents, target);
      log := log + [AgentFired(target, actor)];
      if formerManager.Some? && formerManager.value != actor {
        log := log + [AgentFireNotify(formerManager.value, target, actor)];
      }
      ghost var before := log;
      for i := 0 to |orphans|
        invariant log == before + OrphanEvents(orphans[..i], target)
        invariant agents == WithoutTarget(old(agents), target) && rows == old(rows)
      {
        assert orphans[..i + 1][..i] == orphans[..i];
        log := log + [AgentOrphaned(orphans[i], target)];
      }
      assert orphans[..|orphans|] == orphans;
    }
  }

  /** What the worklist knows: out and frontier are distinct active agents below a, parents first. */
  ghost predicate Frontier(t: Table, a: Id, out: seq<Id>, frontier: seq<Id>) {
    && NoDup(out + frontier)
    && (forall x :: x in out + frontier ==> Active(t, x) && Below(t, x, a))
    && (forall x :: x in out + frontier ==> t[x].reportsTo.Some? && (t[x].reportsTo.value == a || t[x].reportsTo.value in out))
  }

  /** Nobody is forgotten: whoever reports to a, or to an agent already output, is output or waiting. */
  ghost predicate Covered(t: Table, a: Id, out: seq<Id>, frontier: seq<Id>) {
    forall x, p :: ReportsTo(t, x, p) && (p == a || p in out) ==> x in out + frontier
  }

  lemma ReportsAre(s: OrgState, m: Id)
    requires Inv(s)
    ensures NoDup(ReportsInOrder(s.agents, s.rows, m))
    ensures forall x :: x in ReportsInOrder(s.agents, s.rows, m) <==> ReportsTo(s.agents, x, m)
  {
    forall x
      ensures x in s.rows <==> x in s.agents
    {
      assert x in s.rows <==> x in Elems(s.rows);
    }
  }

  lemma FrontierStart(s: OrgState, a: Id)
    requires Inv(s)
    ensures Frontier(s.agents, a, [], ReportsInOrder(s.agents, s.rows, a))
    ensures Covered(s.agents, a, [], ReportsInOrder(s.agents, s.rows, a))
  {
    ReportsAre(s, a);
    var kids := ReportsInOrder(s.agents, s.rows, a);
    assert [] + kids == kids;
    forall x | x in kids
      ensures Below(s.agents, x, a)
    {
      BelowParent(s.agents, x);
    }
  }

  lemma FrontierStep(s: OrgState, a: Id, out: seq<Id>, frontier: seq<Id>)
    requires Inv(s) && frontier != []
    requires Frontier(s.agents, a, out, frontier) && Covered(s.agents, a, out, frontier)
    ensures
      var c := frontier[|frontier| - 1];
      var rest := frontier[..|frontier| - 1] + ReportsInOrder(s.agents, s.rows, c);
      && Elems(out + [c]) == Elems(out) + {c}
      && s.agents.Keys - Elems(out + [c]) < s.agents.Keys - Elems(out)
      && Frontier(s.agents, a, out + [c], rest) && Covered(s.agents, a, out + [c], rest)
  {
    var c, rest := frontier[|frontier| - 1], frontier[..|frontier| - 1];
    var kids := ReportsInOrder(s.agents, s.rows, c);
    ReportsAre(s, c);
    assert frontier == rest + [c] && out + frontier == out + rest + [c];
    LastNotBefore(out + rest, c);
    assert c in out + frontier;
    assert c in s.agents.Keys - Elems(out);
    KidsAreNew(s.agents, a, out, frontier, kids);
    SameMembers(out, rest, c, kids);
    NoDupRearranged(out, rest, c, kids);
  }

  lemma SameMembers(out: seq<Id>, rest: seq<Id>, c: Id, kids: seq<Id>)
    ensures forall x :: x in (out + [c]) + (rest + kids) <==> x in out + (rest + [c]) || x in kids
    ensures forall x :: x in out + [c] <==> x in out || x == c
    ensures Elems(out + [c]) == Elems(out) + {c}
  {
  }

  lemma KidsAreNew(t: Table, a: Id, out: seq<Id>, frontier: seq<Id>, kids: seq<Id>)
    requires Closed(t) && Acyclic(t) && Frontier(t, a, out, frontier) && frontier != []
    requires frontier[|frontier| - 1] !in out
    requires forall x :: x in kids <==> ReportsTo(t, x, frontier[|frontier| - 1])
    ensures forall x :: x in kids ==> Active(t, x) && Below(t, x, a) && x !in out + frontier
  {
    var c := frontier[|frontier| - 1];
    assert c in out + frontier;
    forall x | x in kids
      ensures Below(t, x, a) && x !in out + frontier
    {
      BelowParent(t, x);
      BelowTrans(t, x, c, a);
      BelowInTable(t, c, a);
    }
  }

  lemma FrontierEnd(s: OrgState, a: Id, out: seq<Id>)
    requires Inv(s) && Frontier(s.agents, a, out, []) && Covered(s.agents, a, out, [])
    ensures NoDup(out)
    ensures forall x :: x in out <==> Active(s.agents, x) && Below(s.agents, x, a)
  {
    assert out + [] == out;
    forall x | Active(s.agents, x) && Below(s.agents, x, a)
      ensures x in out
    {
      var n: nat :| n >= 1 && Up(s.agents, x, n) == Some(a);
      FrontierDone(s.agents, a, out, x, n);
    }
  }

  lemma LastNotBefore(s: seq<Id>, c: Id)
    requires NoDup(s + [c])
    ensures c !in s
  {
    forall i | 0 <= i < |s|
      ensures s[i] != c
    {
      assert (s + [c])[i] == s[i] && (s + [c])[|s|] == c;
    }
  }

  lemma NoDupRearranged(out: seq<Id>, rest: seq<Id>, c: Id, kids: seq<Id>)
    requires NoDup(out + rest + [c]) && NoDup(kids)
    requires forall x :: x in kids ==> x !in out + rest + [c]
    ensures NoDup((out + [c]) + (rest + kids))
  {
    var old_, all := out + rest + [c], (out + [c]) + (rest + kids);
    forall i, j | 0 <= i < j < |all|
      ensures all[i] != all[j]
    {
      var n := |out| + |rest| + 1;
      if j < n {
        var pi := if i < |out| then i else if i == |out| then n - 1 else i - 1;
        var pj := if j < |out| then j else if j == |out| then n - 1 else j - 1;
        assert all[i] == old_[pi] && all[j] == old_[pj];
      } else {
        assert all[j] in kids;
      }
    }
  }

  lemma {:induction false} FrontierDone(t: Table, a: Id, out: seq<Id>, x: Id, n: nat)
    requires Closed(t) && ManagersActive(t) && Active(t, x) && n >= 1 && Up(t, x, n) == Some(a)
    requires forall y, p :: ReportsTo(t, y, p) && (p == a || p in out) ==> y in out
    ensures x in out
    decreases n
  {
    UpPrefix(t, x, 1, n);
    UpAdd(t, x, 1, n - 1);
    assert Up(t, x, 0) == Some(x);
    var p := t[x].reportsTo.value;
    assert ReportsTo(t, x, p);
    if n > 1 {
      FrontierDone(t, a, out, p, n - 1);
    }
  }

  /**
   The three walks agree: in a forest, a sits d levels above x exactly when entry d - 1 of x's manager
   chain is a, and the chain names nobody twice, so that d is unique.
   */
  lemma WalksAgree(t: Table, a: Id, x: Id, chain: seq<Id>, d: nat)
    requires Closed(t) && Acyclic(t) && x in t && IsChain(t, x, chain)
    ensures d >= 1 && Up(t, x, d) == Some(a) <==> 1 <= d <= |chain| && chain[d - 1] == a
    ensures NoDup(chain)
  {
    if d >= 1 && Up(t, x, d).Some? && d > |chain| {
      UpPrefix(t, x, |chain| + 1, d);
    }
    if 1 <= d <= |chain| {
      assert Up(t, x, (d - 1) + 1) == Some(chain[d - 1]);
    }
    var rank := AcyclicIsRanked(t);
    forall i, j | 0 <= i < j < |chain|
      ensures chain[i] != chain[j]
    {
      ChainRanksFall(t, rank, x, chain, i, j);
    }
  }

  lemma ChainRanksFall(t: Table, rank: map<Id, nat>, x: Id, chain: seq<Id>, i: nat, j: nat)
    requires Closed(t) && Ranked(t, rank) && x in t && IsChain(t, x, chain) && i < j < |chain|
    ensures chain[i] in t && chain[j] in t && rank[chain[j]] < rank[chain[i]]
  {
    assert Up(t, x, i + 1) == Some(chain[i]) && Up(t, x, j + 1) == Some(chain[j]);
    UpAdd(t, x, i + 1, j - i);
    RankFalls(t, rank, x, i + 1);
    RankFalls(t, rank, chain[i], j - i);
  }
}
