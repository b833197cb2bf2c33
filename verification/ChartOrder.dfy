/** Left and right in a layout: reports stand in the order of their roles, managers in the middle of everybody below them. */
module ChartOrder {
  import opened Common
  import F = Forest
  import opened OrgChart
  import opened ChartShape

  // ------------------------------------------------------------ sorting by role

  ghost predicate ByRole(list: seq<Agent>, collate: string -> int) {
    forall i, j :: 0 <= i < j < |list| ==> collate(list[i].role) <= collate(list[j].role)
  }

  /** Those of a list whose role has that place in locale order, in the list's order. */
  function OfPlace(list: seq<Agent>, place: int, collate: string -> int): seq<Agent> {
    if list == [] then []
    else OfPlace(list[..|list| - 1], place, collate) + (if collate(list[|list| - 1].role) == place then [list[|list| - 1]] else [])
  }

  lemma OfPlaceSnoc(list: seq<Agent>, a: Agent, place: int, collate: string -> int)
    ensures OfPlace(list + [a], place, collate) == OfPlace(list, place, collate) + (if collate(a.role) == place then [a] else [])
  {
    assert (list + [a])[..|list|] == list;
  }

  lemma {:induction false} InsertKeepsOrder(sorted: seq<Agent>, a: Agent, collate: string -> int)
    requires ByRole(sorted, collate)
    ensures ByRole(InsertByRole(sorted, a, collate), collate)
  {
    if sorted != [] && !(collate(sorted[|sorted| - 1].role) <= collate(a.role)) {
      var front, last := sorted[..|sorted| - 1], sorted[|sorted| - 1];
      var r := InsertByRole(front, a, collate);
      InsertKeepsOrder(front, a, collate);
      InsertMultiset(front, a, collate);
      forall i | 0 <= i < |r|
        ensures collate(r[i].role) <= collate(last.role)
      {
        assert r[i] in multiset(r);
        assert r[i] == a || r[i] in front;
      }
      ByRoleSnoc(r, last, collate);
    }
  }

  lemma ByRoleSnoc(list: seq<Agent>, a: Agent, collate: string -> int)
    requires ByRole(list, collate) && forall i :: 0 <= i < |list| ==> collate(list[i].role) <= collate(a.role)
    ensures ByRole(list + [a], collate)
  {
  }

  /** An agent is put behind those of its own place. */
  lemma {:induction false} InsertIsStable(sorted: seq<Agent>, a: Agent, collate: string -> int, place: int)
    requires ByRole(sorted, collate)
    ensures OfPlace(InsertByRole(sorted, a, collate), place, collate)
         == OfPlace(sorted, place, collate) + (if collate(a.role) == place then [a] else [])
  {
    if sorted == [] || collate(sorted[|sorted| - 1].role) <= collate(a.role) {
      OfPlaceSnoc(sorted, a, place, collate);
    } else {
      var front, last := sorted[..|sorted| - 1], sorted[|sorted| - 1];
      InsertIsStable(front, a, collate, place);
      OfPlaceSnoc(InsertByRole(front, a, collate), last, place, collate);
      if collate(last.role) == place {
        NoneOfPlace(front, last, a, place, collate);
      }
    }
  }

  lemma NoneOfPlace(front: seq<Agent>, last: Agent, a: Agent, place: int, collate: string -> int)
    requires collate(last.role) == place && collate(a.role) < place
    ensures OfPlace(front, place, collate) + (if collate(a.role) == place then [a] else []) == OfPlace(front, place, collate)
  {
  }

  /** Sorting puts the roles in locale order, and keeps agents of one role in the order of the listing. */
  lemma {:induction false} SortIsStable(list: seq<Agent>, collate: string -> int, place: int)
    ensures ByRole(SortByRole(list, collate), collate)
    ensures OfPlace(SortByRole(list, collate), place, collate) == OfPlace(list, place, collate)
  {
    if list != [] {
      SortIsStable(list[..|list| - 1], collate, place);
      InsertKeepsOrder(SortByRole(list[..|list| - 1], collate), list[|list| - 1], collate);
      InsertIsStable(SortByRole(list[..|list| - 1], collate), list[|list| - 1], collate, place);
    }
  }

  // ------------------------------------------------------------ reports under their manager, in order

  predicate ReportsTo(c: Chart, k: Agent, a: Agent) {
    k in c.agents && k.reportsTo == Some(a.id)
  }

  ghost predicate Holds(slots: seq<Slot>, s: Slot, k: Agent) {
    exists f :: f in slots && f.agent == k && s.lo <= f.lo && f.hi <= s.hi
  }

  ghost predicate LeftOf(slots: seq<Slot>, k: Agent, l: Agent) {
    exists f, g :: f in slots && g in slots && f.agent == k && g.agent == l && f.hi <= g.lo
  }

  /** All reports take columns inside those of s, and smaller roles take columns further left. */
  ghost predicate Arranged(c: Chart, slots: seq<Slot>, s: Slot) {
    && (forall k :: ReportsTo(c, k, s.agent) ==> Holds(slots, s, k))
    && (forall k, l :: ReportsTo(c, k, s.agent) && ReportsTo(c, l, s.agent) && c.collate(k.role) < c.collate(l.role) ==> LeftOf(slots, k, l))
  }

  lemma ArrangedAmongMore(c: Chart, a: seq<Slot>, b: seq<Slot>, s: Slot)
    ensures Arranged(c, a, s) || Arranged(c, b, s) ==> Arranged(c, a + b, s)
  {
    assert forall r :: r in a || r in b ==> r in a + b;
    assert forall k :: Holds(a, s, k) || Holds(b, s, k) ==> Holds(a + b, s, k);
    assert forall k, l :: LeftOf(a, k, l) || LeftOf(b, k, l) ==> LeftOf(a + b, k, l);
  }

  lemma TreeHasRoot(c: Chart, a: Agent, depth: nat, start: nat)
    requires Layered(c) && a in c.agents
    ensures Slot(a, depth, start, Tree(c, a, depth, start).1) in Tree(c, a, depth, start).0
  {
    KidsRanked(c, a);
  }

  lemma {:induction false} TreesPlace(c: Chart, list: seq<Agent>, low: nat, depth: nat, start: nat, i: nat)
    requires Layered(c) && RankedFrom(c, list, low) && low <= c.top + 1 && i < |list|
    ensures
      var (slots, end) := Trees(c, list, low, depth, start);
      exists f :: f in slots && f.agent == list[i] && start <= f.lo && f.hi <= end
    decreases |list|
  {
    var front, last := list[..|list| - 1], list[|list| - 1];
    var (before, mid) := Trees(c, front, low, depth, start);
    var (slots, end) := Tree(c, last, depth, mid);
    TreesSpread(c, front, low, depth, start);
    TreeSpread(c, last, depth, mid);
    if i == |list| - 1 {
      TreeHasRoot(c, last, depth, mid);
      assert Slot(last, depth, mid, end) in before + slots;
    } else {
      TreesPlace(c, front, low, depth, start, i);
      var f :| f in before && f.agent == front[i] && start <= f.lo && f.hi <= mid;
      assert f in before + slots;
    }
  }

  lemma {:induction false} TreesOrder(c: Chart, list: seq<Agent>, low: nat, depth: nat, start: nat, i: nat, j: nat)
    requires Layered(c) && RankedFrom(c, list, low) && low <= c.top + 1 && i < j < |list|
    ensures LeftOf(Trees(c, list, low, depth, start).0, list[i], list[j])
    decreases |list|
  {
    var front, last := list[..|list| - 1], list[|list| - 1];
    var (before, mid) := Trees(c, front, low, depth, start);
    var (slots, end) := Tree(c, last, depth, mid);
    if j == |list| - 1 {
      TreesPlace(c, front, low, depth, start, i);
      var f :| f in before && f.agent == front[i] && start <= f.lo && f.hi <= mid;
      TreeHasRoot(c, last, depth, mid);
      assert f in before + slots && Slot(last, depth, mid, end) in before + slots;
    } else {
      TreesOrder(c, front, low, depth, start, i, j);
      var f, g :| f in before && g in before && f.agent == front[i] && g.agent == front[j] && f.hi <= g.lo;
      assert f in before + slots && g in before + slots;
    }
  }

  lemma ArrangedAtRoot(c: Chart, a: Agent, kids: seq<Agent>, low: nat, depth: nat, start: nat, slots: seq<Slot>, end: nat)
    requires Layered(c) && a in c.agents && kids == Kids(c.agents, a.id, c.collate)
    requires RankedFrom(c, kids, low) && low <= c.top + 1 && Trees(c, kids, low, depth + 1, start) == (slots, end)
    ensures Arranged(c, slots, Slot(a, depth, start, end))
  {
    KidsAre(c.agents, a.id, c.collate);
    SortIsStable(Filter(c.agents, Some(a.id)), c.collate, 0);
    forall k | ReportsTo(c, k, a)
      ensures Holds(slots, Slot(a, depth, start, end), k)
    {
      assert k in kids;
      var i :| 0 <= i < |kids| && kids[i] == k;
      TreesPlace(c, kids, low, depth + 1, start, i);
    }
    forall k, l | ReportsTo(c, k, a) && ReportsTo(c, l, a) && c.collate(k.role) < c.collate(l.role)
      ensures LeftOf(slots, k, l)
    {
      assert k in kids && l in kids;
      var i, j :| 0 <= i < |kids| && kids[i] == k && 0 <= j < |kids| && kids[j] == l;
      assert i < j;
      TreesOrder(c, kids, low, depth + 1, start, i, j);
    }
  }

  lemma {:induction false} TreeArranged(c: Chart, a: Agent, depth: nat, start: nat, s: Slot)
    requires Layered(c) && a in c.agents && s in Tree(c, a, depth, start).0
    ensures Arranged(c, Tree(c, a, depth, start).0, s)
    decreases c.top - c.rank[a.id], 1, 0
  {
    KidsRanked(c, a);
    KidsAre(c.agents, a.id, c.collate);
    var kids, low := Kids(c.agents, a.id, c.collate), c.rank[a.id] + 1;
    if kids == [] {
      assert forall k :: !ReportsTo(c, k, a);
    } else {
      var (slots, end) := Trees(c, kids, low, depth + 1, start);
      var root := Slot(a, depth, start, end);
      assert Tree(c, a, depth, start) == (slots + [root], end);
      if s in slots {
        TreesArranged(c, kids, low, depth + 1, start, s);
      } else {
        ArrangedAtRoot(c, a, kids, low, depth, start, slots, end);
      }
      ArrangedAmongMore(c, slots, [root], s);
    }
  }

  lemma {:induction false} TreesArranged(c: Chart, list: seq<Agent>, low: nat, depth: nat, start: nat, s: Slot)
    requires Layered(c) && RankedFrom(c, list, low) && low <= c.top + 1 && s in Trees(c, list, low, depth, start).0
    ensures Arranged(c, Trees(c, list, low, depth, start).0, s)
    decreases c.top + 1 - low, 0, |list|
  {
    var front, last := list[..|list| - 1], list[|list| - 1];
    var (before, mid) := Trees(c, front, low, depth, start);
    var slots := Tree(c, last, depth, mid).0;
    if s in before {
      TreesArranged(c, front, low, depth, start, s);
    } else {
      assert s in before + slots;
      TreeArranged(c, last, depth, mid, s);
    }
    ArrangedAmongMore(c, before, slots, s);
  }

  // ------------------------------------------------------------ everybody below

  predicate Under(d: Slot, s: Slot) {
    d.agent.reportsTo == Some(s.agent.id)
  }

  predicate Inside(d: Slot, s: Slot) {
    s.lo <= d.lo && d.hi <= s.hi
  }

  /** Every report takes columns inside those of its manager. */
  ghost predicate Nested(slots: seq<Slot>) {
    forall s, d :: s in slots && d in slots && Under(d, s) ==> Inside(d, s)
  }

  lemma SameSlot(slots: seq<Slot>, f: Slot, g: Slot)
    requires OnceEach(slots) && f in slots && g in slots && f.agent.id == g.agent.id
    ensures f == g
  {
  }

  lemma ReportInside(c: Chart, slots: seq<Slot>, s: Slot, d: Slot)
    requires OnceEach(slots) && d in slots && d.agent in c.agents && Under(d, s) && Arranged(c, slots, s)
    ensures Inside(d, s)
  {
    assert ReportsTo(c, d.agent, s.agent);
    var f :| f in slots && f.agent == d.agent && s.lo <= f.lo && f.hi <= s.hi;
    SameSlot(slots, f, d);
  }

  lemma ArrangedIsNested(c: Chart, slots: seq<Slot>)
    requires OnceEach(slots) && FromChart(c, slots) && forall s :: s in slots ==> Arranged(c, slots, s)
    ensures Nested(slots)
  {
    forall s, d | s in slots && d in slots && Under(d, s)
      ensures Inside(d, s)
    {
      ReportInside(c, slots, s, d);
    }
  }

  /** Whoever sits n levels below the agent of s takes columns inside those of s. */
  lemma {:induction false} BelowInside(agents: seq<Agent>, slots: seq<Slot>, s: Slot, d: Slot, n: nat)
    requires DistinctIds(agents) && OnceEach(slots) && Nested(slots) && forall a :: a in agents ==> Placed(slots, a)
    requires s in slots && d in slots && F.Up(Links(agents), d.agent.id, n) == Some(s.agent.id)
    ensures Inside(d, s)
    decreases n
  {
    if n == 0 {
      SameSlot(slots, s, d);
    } else {
      var p := AgentOf(agents, F.Up(Links(agents), d.agent.id, n - 1).value, s.agent.id);
      assert Placed(slots, p);
      var sp :| sp in slots && sp.agent == p;
      assert Under(sp, s);
      BelowInside(agents, slots, sp, d, n - 1);
    }
  }

  /** An id with a parent among the links is that of an agent that reports there. */
  lemma AgentOf(agents: seq<Agent>, id: string, manager: string) returns (p: Agent)
    requires DistinctIds(agents) && F.Parent(Links(agents), id) == Some(manager)
    ensures p in agents && p.id == id && p.reportsTo == Some(manager)
  {
    p :| p in agents && p.id == id;
    SameIdSameAgent(agents, p, p);
  }

  ghost predicate AllSpan(leaves: set<Agent>, slots: seq<Slot>) {
    forall s {:trigger Spans(leaves, slots, s)} :: s in slots ==> Spans(leaves, slots, s)
  }

  lemma UnderIsOneUp(c: Chart, t: F.Table, f: Agent, s: Agent)
    requires Layered(c) && Linked(c, t) && f in c.agents && s in c.agents && f.reportsTo == Some(s.id)
    ensures s.id in c.rank && f.id in c.rank && c.rank[s.id] < c.rank[f.id] <= c.top && F.Parent(t, f.id) == Some(s.id)
  {
  }

  /** The leftmost column of s is that of somebody at or below it whom nobody reports to; so is the rightmost. */
  lemma {:induction false} Edge(c: Chart, t: F.Table, leaves: set<Agent>, slots: seq<Slot>, s: Slot, left: bool) returns (l: Slot, n: nat)
    requires Layered(c) && Linked(c, t) && FromChart(c, slots) && s in slots && AllSpan(leaves, slots)
    ensures l in slots && l.agent in leaves && F.Up(t, l.agent.id, n) == Some(s.agent.id)
    ensures if left then l.lo == s.lo && l.hi == s.lo + 1 else l.hi == s.hi && l.lo + 1 == s.hi
    decreases c.top - c.rank[s.agent.id]
  {
    var f := EdgeReport(leaves, slots, s, left);
    if s.agent in leaves {
      l, n := s, 0;
    } else {
      UnderIsOneUp(c, t, f.agent, s.agent);
      var m;
      l, m := Edge(c, t, leaves, slots, f, left);
      n := m + 1;
    }
  }

  lemma EdgeReport(leaves: set<Agent>, slots: seq<Slot>, s: Slot, left: bool) returns (f: Slot)
    requires AllSpan(leaves, slots) && s in slots
    ensures f in slots
    ensures if s.agent in leaves then s.hi == s.lo + 1
            else f.agent.reportsTo == Some(s.agent.id) && (if left then f.lo == s.lo else f.hi == s.hi)
  {
    assert Spans(leaves, slots, s);
    if s.agent in leaves {
      f := s;
    } else if left {
      f :| f in slots && f.agent.reportsTo == Some(s.agent.id) && f.lo == s.lo && f.hi <= s.hi;
    } else {
      f :| f in slots && f.agent.reportsTo == Some(s.agent.id) && f.hi == s.hi && f.lo >= s.lo;
    }
  }
}
