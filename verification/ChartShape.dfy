/** The shape of a layout: levels follow the managers, managers stand over their reports, no column is wasted. */
module ChartShape {
  import opened Common
  import F = Forest
  import opened OrgChart

  // ------------------------------------------------------------ levels

  /** The chain above x has one top only. */
  lemma TopUnique(t: F.Table, x: string, m: nat, n: nat)
    requires F.Up(t, x, m).Some? && F.Parent(t, F.Up(t, x, m).value).None?
    requires F.Up(t, x, n).Some? && F.Parent(t, F.Up(t, x, n).value).None?
    requires m <= n
    ensures m == n
  {
    F.UpAdd(t, x, m, n - m);
    var top := F.Up(t, x, m).value;
    assert F.Up(t, top, 0) == Some(top);
    if m < n {
      assert F.Up(t, top, 1).None?;
      NoneAboveNone(t, top, n - m);
    }
  }

  lemma {:induction false} NoneAboveNone(t: F.Table, x: string, n: nat)
    requires n >= 1 && F.Up(t, x, 1).None?
    ensures F.Up(t, x, n).None?
  {
    if n > 1 {
      NoneAboveNone(t, x, n - 1);
    }
  }

  /** The slot is as deep as its agent has managers above, up to one of the roots. */
  ghost predicate AtLevel(t: F.Table, s: Slot) {
    F.Up(t, s.agent.id, s.depth).Some? && F.Parent(t, F.Up(t, s.agent.id, s.depth).value).None?
  }

  lemma ReportOneLevelDown(t: F.Table, s: Slot, r: Slot)
    requires AtLevel(t, s) && AtLevel(t, r) && F.Parent(t, r.agent.id) == Some(s.agent.id)
    ensures r.depth == s.depth + 1
  {
    assert F.Up(t, r.agent.id, 0) == Some(r.agent.id);
    assert F.Up(t, r.agent.id, 1) == Some(s.agent.id);
    F.UpAdd(t, r.agent.id, 1, s.depth);
    if r.depth <= s.depth + 1 {
      TopUnique(t, r.agent.id, r.depth, s.depth + 1);
    } else {
      TopUnique(t, r.agent.id, s.depth + 1, r.depth);
    }
  }

  lemma RootOnTop(t: F.Table, s: Slot)
    requires AtLevel(t, s) && F.Parent(t, s.agent.id).None?
    ensures s.depth == 0
  {
    assert F.Up(t, s.agent.id, 0) == Some(s.agent.id);
    TopUnique(t, s.agent.id, 0, s.depth);
  }

  // ------------------------------------------------------------ managers over their reports

  /** The agents nobody in the listing reports to. */
  ghost function Leaves(agents: seq<Agent>): set<Agent> {
    set a | a in agents && forall b :: b in agents ==> b.reportsTo != Some(a.id)
  }

  predicate NoKids(c: Chart, a: Agent) {
    Kids(c.agents, a.id, c.collate) == []
  }

  ghost predicate KnowsLeaves(c: Chart, leaves: set<Agent>) {
    forall a :: a in c.agents ==> (a in leaves <==> NoKids(c, a))
  }

  lemma LeavesHaveNoKids(c: Chart)
    requires Layered(c)
    ensures KnowsLeaves(c, Leaves(c.agents))
  {
    forall a | a in c.agents
      ensures a in Leaves(c.agents) <==> NoKids(c, a)
    {
      KidsAre(c.agents, a.id, c.collate);
      var kids := Kids(c.agents, a.id, c.collate);
      assert kids != [] ==> kids[0] in kids;
    }
  }

  lemma TreeOfLeaf(c: Chart, a: Agent, depth: nat, start: nat)
    requires Layered(c) && a in c.agents && NoKids(c, a)
    ensures Tree(c, a, depth, start) == ([] + [Slot(a, depth, start, start + 1)], start + 1)
  {
    assert [] + [Slot(a, depth, start, start + 1)] == [Slot(a, depth, start, start + 1)];
  }

  lemma TreeOfManager(c: Chart, a: Agent, depth: nat, start: nat) returns (kids: seq<Agent>, low: nat, slots: seq<Slot>, end: nat)
    requires Layered(c) && a in c.agents && !NoKids(c, a)
    ensures kids != [] && RankedFrom(c, kids, low) && c.rank[a.id] < low <= c.top + 1
    ensures forall k :: k in kids ==> k.reportsTo == Some(a.id)
    ensures (slots, end) == Trees(c, kids, low, depth + 1, start) && Spread(slots, depth + 1, start, end)
    ensures Tree(c, a, depth, start) == (slots + [Slot(a, depth, start, end)], end)
  {
    KidsRanked(c, a);
    KidsAre(c.agents, a.id, c.collate);
    kids, low := Kids(c.agents, a.id, c.collate), c.rank[a.id] + 1;
    slots, end := Trees(c, kids, low, depth + 1, start).0, Trees(c, kids, low, depth + 1, start).1;
    TreesSpread(c, kids, low, depth + 1, start);
  }

  ghost predicate StartsWithReport(slots: seq<Slot>, s: Slot) {
    exists f :: f in slots && f.agent.reportsTo == Some(s.agent.id) && f.lo == s.lo && f.hi <= s.hi
  }

  ghost predicate EndsWithReport(slots: seq<Slot>, s: Slot) {
    exists g :: g in slots && g.agent.reportsTo == Some(s.agent.id) && g.hi == s.hi && g.lo >= s.lo
  }

  /** A leaf takes one column; a manager's columns start with those of one report and end with those of another. */
  ghost predicate Spans(leaves: set<Agent>, slots: seq<Slot>, s: Slot) {
    if s.agent in leaves then s.hi == s.lo + 1 else StartsWithReport(slots, s) && EndsWithReport(slots, s)
  }

  lemma SpansAmongMore(leaves: set<Agent>, a: seq<Slot>, b: seq<Slot>, s: Slot)
    ensures Spans(leaves, a, s) || Spans(leaves, b, s) ==> Spans(leaves, a + b, s)
  {
    assert forall r :: r in a || r in b ==> r in a + b;
  }

  lemma {:induction false} TreeSpans(c: Chart, leaves: set<Agent>, a: Agent, depth: nat, start: nat, s: Slot)
    requires Layered(c) && KnowsLeaves(c, leaves) && a in c.agents && s in Tree(c, a, depth, start).0
    ensures Spans(leaves, Tree(c, a, depth, start).0, s)
    decreases c.top - c.rank[a.id], 1, 0
  {
    if NoKids(c, a) {
      TreeOfLeaf(c, a, depth, start);
    } else {
      var kids, low, slots, end := TreeOfManager(c, a, depth, start);
      var root := Slot(a, depth, start, end);
      if s in slots {
        TreesSpan(c, leaves, kids, low, depth + 1, start, s);
        SpansAmongMore(leaves, slots, [root], s);
      } else {
        var f, g := TreesEnd(c, kids, low, depth + 1, start);
        SpansOfRoot(leaves, slots, root, f, g);
      }
    }
  }

  lemma SpansOfRoot(leaves: set<Agent>, slots: seq<Slot>, root: Slot, f: Slot, g: Slot)
    requires root.agent !in leaves && Spread(slots, root.depth + 1, root.lo, root.hi)
    requires f in slots && f.agent.reportsTo == Some(root.agent.id) && f.lo == root.lo
    requires g in slots && g.agent.reportsTo == Some(root.agent.id) && g.hi == root.hi
    ensures Spans(leaves, slots + [root], root)
  {
    assert f in slots + [root] && g in slots + [root];
  }

  lemma {:induction false} TreesSpan(c: Chart, leaves: set<Agent>, list: seq<Agent>, low: nat, depth: nat, start: nat, s: Slot)
    requires Layered(c) && KnowsLeaves(c, leaves) && RankedFrom(c, list, low) && low <= c.top + 1
    requires s in Trees(c, list, low, depth, start).0
    ensures Spans(leaves, Trees(c, list, low, depth, start).0, s)
    decreases c.top + 1 - low, 0, |list|
  {
    var front, last := list[..|list| - 1], list[|list| - 1];
    var (before, mid) := Trees(c, front, low, depth, start);
    var slots := Tree(c, last, depth, mid).0;
    if s in before {
      TreesSpan(c, leaves, front, low, depth, start, s);
    } else {
      assert s in before + slots;
      TreeSpans(c, leaves, last, depth, mid, s);
    }
    SpansAmongMore(leaves, before, slots, s);
  }

  /** The slots of a list start at one entry's first column and end with another's last. */
  lemma {:induction false} TreesEnd(c: Chart, list: seq<Agent>, low: nat, depth: nat, start: nat) returns (f: Slot, g: Slot)
    requires Layered(c) && RankedFrom(c, list, low) && low <= c.top + 1 && list != []
    ensures f in Trees(c, list, low, depth, start).0 && f.agent in list && f.lo == start
    ensures g in Trees(c, list, low, depth, start).0 && g.agent in list && g.hi == Trees(c, list, low, depth, start).1
    decreases |list|
  {
    var front, last := list[..|list| - 1], list[|list| - 1];
    var (before, mid) := Trees(c, front, low, depth, start);
    var (slots, end) := Tree(c, last, depth, mid);
    g := Slot(last, depth, mid, end);
    assert slots[|slots| - 1] == g;
    assert g in before + slots;
    if front == [] {
      f := g;
    } else {
      var h;
      f, h := TreesEnd(c, front, low, depth, start);
      assert f in before + slots;
    }
  }

  // ------------------------------------------------------------ one column per leaf

  function LeavesAmong(leaves: set<Agent>, slots: seq<Slot>): nat {
    if slots == [] then 0
    else LeavesAmong(leaves, slots[..|slots| - 1]) + (if slots[|slots| - 1].agent in leaves then 1 else 0)
  }

  lemma LeavesSnoc(leaves: set<Agent>, slots: seq<Slot>, s: Slot)
    ensures LeavesAmong(leaves, slots + [s]) == LeavesAmong(leaves, slots) + (if s.agent in leaves then 1 else 0)
  {
    assert (slots + [s])[..|slots|] == slots;
  }

  lemma {:induction false} LeavesConcat(leaves: set<Agent>, a: seq<Slot>, b: seq<Slot>)
    ensures LeavesAmong(leaves, a + b) == LeavesAmong(leaves, a) + LeavesAmong(leaves, b)
  {
    if b == [] {
      assert a + b == a;
    } else {
      assert (a + b)[..|a + b| - 1] == a + b[..|b| - 1];
      LeavesConcat(leaves, a, b[..|b| - 1]);
    }
  }

  lemma {:induction false} TreeLeaves(c: Chart, leaves: set<Agent>, a: Agent, depth: nat, start: nat)
    requires Layered(c) && KnowsLeaves(c, leaves) && a in c.agents
    ensures Tree(c, a, depth, start).1 == start + LeavesAmong(leaves, Tree(c, a, depth, start).0)
    decreases c.top - c.rank[a.id], 1, 0
  {
    if NoKids(c, a) {
      TreeOfLeaf(c, a, depth, start);
      LeavesSnoc(leaves, [], Slot(a, depth, start, start + 1));
    } else {
      var kids, low, slots, end := TreeOfManager(c, a, depth, start);
      TreesLeaves(c, leaves, kids, low, depth + 1, start);
      LeavesSnoc(leaves, slots, Slot(a, depth, start, end));
    }
  }

  lemma {:induction false} TreesLeaves(c: Chart, leaves: set<Agent>, list: seq<Agent>, low: nat, depth: nat, start: nat)
    requires Layered(c) && KnowsLeaves(c, leaves) && RankedFrom(c, list, low) && low <= c.top + 1
    ensures Trees(c, list, low, depth, start).1 == start + LeavesAmong(leaves, Trees(c, list, low, depth, start).0)
    decreases c.top + 1 - low, 0, |list|
  {
    if list != [] {
      var (before, mid) := Trees(c, list[..|list| - 1], low, depth, start);
      TreesLeaves(c, leaves, list[..|list| - 1], low, depth, start);
      TreeLeaves(c, leaves, list[|list| - 1], depth, mid);
      LeavesConcat(leaves, before, Tree(c, list[|list| - 1], depth, mid).0);
    }
  }

  /** Where everybody is placed once, the leaves among the slots are the leaves of the listing. */
  lemma {:induction false} LeavesAreCounted(leaves: set<Agent>, slots: seq<Slot>, some: set<Agent>)
    requires OnceEach(slots) && forall a :: a in some <==> Placed(slots, a) && a in leaves
    ensures LeavesAmong(leaves, slots) == |some|
    decreases |slots|
  {
    if slots == [] {
      assert some == {};
    } else {
      var front, last := slots[..|slots| - 1], slots[|slots| - 1];
      forall a
        ensures a in some - {last.agent} <==> Placed(front, a) && a in leaves
      {
        LastPlaced(slots, a);
      }
      LeavesAreCounted(leaves, front, some - {last.agent});
      assert last in slots;
    }
  }

  lemma LastPlaced(slots: seq<Slot>, a: Agent)
    requires OnceEach(slots) && slots != []
    ensures Placed(slots[..|slots| - 1], a) <==> Placed(slots, a) && a != slots[|slots| - 1].agent
  {
    var front, last := slots[..|slots| - 1], slots[|slots| - 1];
    if Placed(front, a) {
      var s :| s in front && s.agent == a;
      var i :| 0 <= i < |front| && front[i] == s;
      assert slots[i] == s && s in slots;
    }
    if Placed(slots, a) && a != last.agent {
      var s :| s in slots && s.agent == a;
      assert s in front;
    }
  }
}
