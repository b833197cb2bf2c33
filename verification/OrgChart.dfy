/**
 The board's org-chart layout (modules/board_ui/components/org-chart.tsx): leaves take successive
 columns, every inner node sits over the middle of the columns its subtree took.
 */
module OrgChart {
  import opened Common
  import F = Forest

  const NODE_W := 200
  const NODE_H := 80
  const H_GAP := 32
  const V_GAP := 56
  const UNIT := NODE_W + H_GAP

  datatype Agent = Agent(id: string, role: string, reportsTo: Option<string>)
  datatype Entry = Entry(agent: Agent, x: int, y: int)

  /** Math.round: halves go up. */
  function JsRound(v: real): int {
    (v + 0.5).Floor
  }

  function Ids(agents: seq<Agent>): set<string> {
    set a | a in agents :: a.id
  }

  predicate IsRoot(agents: seq<Agent>, a: Agent) {
    a.reportsTo.None? || a.reportsTo.value == "" || a.reportsTo.value !in Ids(agents)
  }

  /** The pointers that stay inside the listing, as a parent-pointer table. */
  ghost function Links(agents: seq<Agent>): F.Table
    requires DistinctIds(agents)
  {
    map a | a in agents :: a.id := F.Agent(F.MEMBER, if IsRoot(agents, a) then None else a.reportsTo, F.ACTIVE)
  }

  ghost predicate DistinctIds(agents: seq<Agent>) {
    forall i, j :: 0 <= i < j < |agents| ==> agents[i].id != agents[j].id
  }

  /** A listing the chart is meant for: distinct non-empty ids and no reporting cycle. */
  ghost predicate IsForest(agents: seq<Agent>) {
    DistinctIds(agents) && "" !in Ids(agents) && F.Acyclic(Links(agents))
  }

  lemma SameIdSameAgent(agents: seq<Agent>, a: Agent, b: Agent)
    requires DistinctIds(agents) && a in agents && b in agents && a.id == b.id
    ensures a == b
  {
  }

  // ------------------------------------------------------------ children, sorted by role

  function Filter(agents: seq<Agent>, key: Option<string>): seq<Agent> {
    if agents == [] then []
    else
      var last := agents[|agents| - 1];
      var rest := Filter(agents[..|agents| - 1], key);
      if last.reportsTo == key then rest + [last] else rest
  }

  /** collate gives each role its place in locale order. */
  function InsertByRole(sorted: seq<Agent>, a: Agent, collate: string -> int): seq<Agent> {
    if sorted == [] || collate(sorted[|sorted| - 1].role) <= collate(a.role) then sorted + [a]
    else InsertByRole(sorted[..|sorted| - 1], a, collate) + [sorted[|sorted| - 1]]
  }

  function SortByRole(list: seq<Agent>, collate: string -> int): seq<Agent> {
    if list == [] then []
    else InsertByRole(SortByRole(list[..|list| - 1], collate), list[|list| - 1], collate)
  }

  function Kids(agents: seq<Agent>, id: string, collate: string -> int): seq<Agent> {
    SortByRole(Filter(agents, Some(id)), collate)
  }

  lemma {:induction false} InsertMultiset(sorted: seq<Agent>, a: Agent, collate: string -> int)
    ensures multiset(InsertByRole(sorted, a, collate)) == multiset(sorted) + multiset{a}
  {
    if !(sorted == [] || collate(sorted[|sorted| - 1].role) <= collate(a.role)) {
      InsertMultiset(sorted[..|sorted| - 1], a, collate);
      assert sorted == sorted[..|sorted| - 1] + [sorted[|sorted| - 1]];
    }
  }

  lemma {:induction false} SortMultiset(list: seq<Agent>, collate: string -> int)
    ensures multiset(SortByRole(list, collate)) == multiset(list)
  {
    if list != [] {
      SortMultiset(list[..|list| - 1], collate);
      InsertMultiset(SortByRole(list[..|list| - 1], collate), list[|list| - 1], collate);
      assert list == list[..|list| - 1] + [list[|list| - 1]];
    }
  }

  lemma {:induction false} FilterIs(agents: seq<Agent>, key: Option<string>)
    requires DistinctIds(agents)
    ensures forall a :: a in Filter(agents, key) <==> a in agents && a.reportsTo == key
    ensures DistinctIds(Filter(agents, key))
  {
    if agents != [] {
      var front := agents[..|agents| - 1];
      FilterIs(front, key);
      assert forall a :: a in agents <==> a in front || a == agents[|agents| - 1];
    }
  }

  lemma DistinctFromMultiset(a: seq<Agent>, b: seq<Agent>)
    requires multiset(a) == multiset(b) && DistinctIds(b)
    ensures DistinctIds(a)
    ensures forall x :: x in a <==> x in b
  {
    forall x
      ensures x in a <==> x in b
    {
      assert x in a <==> x in multiset(a);
      assert x in b <==> x in multiset(b);
    }
    forall i, j | 0 <= i < j < |a|
      ensures a[i].id != a[j].id
    {
      if a[i].id == a[j].id {
        SameIdSameAgent(b, a[i], a[j]);
        assert a == a[..i] + [a[i]] + a[i + 1..j] + [a[j]] + a[j + 1..];
        assert multiset(a)[a[i]] >= 2;
        OnceInDistinct(b, a[i]);
        assert false;
      }
    }
  }

  lemma {:induction false} OnceInDistinct(b: seq<Agent>, x: Agent)
    requires DistinctIds(b)
    ensures multiset(b)[x] <= 1
  {
    if b != [] {
      var front := b[..|b| - 1];
      OnceInDistinct(front, x);
      assert b == front + [b[|b| - 1]];
      if x == b[|b| - 1] {
        assert x !in front;
      }
    }
  }

  lemma KidsAre(agents: seq<Agent>, id: string, collate: string -> int)
    requires DistinctIds(agents)
    ensures DistinctIds(Kids(agents, id, collate))
    ensures forall a :: a in Kids(agents, id, collate) <==> a in agents && a.reportsTo == Some(id)
  {
    FilterIs(agents, Some(id));
    SortMultiset(Filter(agents, Some(id)), collate);
    DistinctFromMultiset(Kids(agents, id, collate), Filter(agents, Some(id)));
  }

  // ------------------------------------------------------------ where the recursion puts everybody

  /** An agent, its depth, and the half-open range of leaf columns its subtree takes. */
  datatype Slot = Slot(agent: Agent, depth: nat, lo: nat, hi: nat)

  /** A listing with a ranking that shows it is a forest. */
  datatype Chart = Chart(agents: seq<Agent>, collate: string -> int, rank: map<string, nat>, top: nat)

  ghost predicate Layered(c: Chart) {
    && DistinctIds(c.agents)
    && (forall a :: a in c.agents ==> a.id in c.rank && c.rank[a.id] <= c.top)
    && (forall a, p :: a in c.agents && p in c.agents && a.reportsTo == Some(p.id) ==> c.rank[p.id] < c.rank[a.id])
  }

  ghost predicate RankedFrom(c: Chart, list: seq<Agent>, low: nat) {
    forall k :: k in list ==> k in c.agents && k.id in c.rank && c.rank[k.id] >= low
  }

  lemma KidsRanked(c: Chart, a: Agent)
    requires Layered(c) && a in c.agents
    ensures RankedFrom(c, Kids(c.agents, a.id, c.collate), c.rank[a.id] + 1)
  {
    KidsAre(c.agents, a.id, c.collate);
  }

  ghost predicate FromChart(c: Chart, slots: seq<Slot>) {
    forall s :: s in slots ==> s.agent in c.agents
  }

  ghost function Tree(c: Chart, a: Agent, depth: nat, start: nat): (r: (seq<Slot>, nat))
    requires Layered(c) && a in c.agents
    ensures FromChart(c, r.0)
    decreases c.top - c.rank[a.id], 1, 0
  {
    KidsRanked(c, a);
    var kids := Kids(c.agents, a.id, c.collate);
    if kids == [] then ([Slot(a, depth, start, start + 1)], start + 1)
    else
      var (slots, end) := Trees(c, kids, c.rank[a.id] + 1, depth + 1, start);
      (slots + [Slot(a, depth, start, end)], end)
  }

  ghost function Trees(c: Chart, list: seq<Agent>, low: nat, depth: nat, start: nat): (r: (seq<Slot>, nat))
    requires Layered(c) && RankedFrom(c, list, low) && low <= c.top + 1
    ensures FromChart(c, r.0)
    decreases c.top + 1 - low, 0, |list|
  {
    if list == [] then ([], start)
    else
      var (before, mid) := Trees(c, list[..|list| - 1], low, depth, start);
      var (slots, end) := Tree(c, list[|list| - 1], depth, mid);
      (before + slots, end)
  }

  function Box(s: Slot): Entry {
    Entry(s.agent, JsRound((s.lo + s.hi - 1) as real / 2.0 * UNIT as real), s.depth * (NODE_H + V_GAP))
  }

  function Boxes(slots: seq<Slot>): seq<Entry> {
    seq(|slots|, i requires 0 <= i < |slots| => Box(slots[i]))
  }

  /** The rounding never rounds: half-columns are whole pixels. */
  lemma RoundingIsExact(s: Slot)
    ensures Box(s).x == (s.lo + s.hi - 1) * (UNIT / 2)
  {
    assert (s.lo + s.hi - 1) as real / 2.0 * UNIT as real == ((s.lo + s.hi - 1) * (UNIT / 2)) as real;
  }

  // ------------------------------------------------------------ geometry

  /** Slots lie in [start, end), at least `depth` deep, and same-depth slots go strictly left to right. */
  ghost predicate Spread(slots: seq<Slot>, depth: nat, start: nat, end: nat) {
    && (forall s :: s in slots ==> start <= s.lo < s.hi <= end && s.depth >= depth)
    && (forall i, j :: 0 <= i < j < |slots| && slots[i].depth == slots[j].depth ==> slots[i].hi <= slots[j].lo)
  }

  lemma {:induction false} TreeSpread(c: Chart, a: Agent, depth: nat, start: nat)
    requires Layered(c) && a in c.agents
    ensures Tree(c, a, depth, start).1 > start
    ensures Spread(Tree(c, a, depth, start).0, depth, start, Tree(c, a, depth, start).1)
    decreases c.top - c.rank[a.id], 1, 0
  {
    KidsRanked(c, a);
    var kids := Kids(c.agents, a.id, c.collate);
    if kids != [] {
      var (slots, end) := Trees(c, kids, c.rank[a.id] + 1, depth + 1, start);
      TreesSpread(c, kids, c.rank[a.id] + 1, depth + 1, start);
      assert Tree(c, a, depth, start) == (slots + [Slot(a, depth, start, end)], end);
      SpreadUnderRoot(slots, depth, start, end, a);
    }
  }

  lemma SpreadUnderRoot(slots: seq<Slot>, depth: nat, start: nat, end: nat, a: Agent)
    requires Spread(slots, depth + 1, start, end) && start < end
    ensures Spread(slots + [Slot(a, depth, start, end)], depth, start, end)
  {
    forall i | 0 <= i < |slots|
      ensures slots[i].depth > depth
    {
      assert slots[i] in slots;
    }
  }

  lemma {:induction false} TreesSpread(c: Chart, list: seq<Agent>, low: nat, depth: nat, start: nat)
    requires Layered(c) && RankedFrom(c, list, low) && low <= c.top + 1
    ensures Trees(c, list, low, depth, start).1 >= start
    ensures list != [] ==> Trees(c, list, low, depth, start).1 > start
    ensures Spread(Trees(c, list, low, depth, start).0, depth, start, Trees(c, list, low, depth, start).1)
    decreases c.top + 1 - low, 0, |list|
  {
    if list != [] {
      var (before, mid) := Trees(c, list[..|list| - 1], low, depth, start);
      TreesSpread(c, list[..|list| - 1], low, depth, start);
      TreeSpread(c, list[|list| - 1], depth, mid);
      SpreadConcat(before, Tree(c, list[|list| - 1], depth, mid).0, depth, start, mid, Tree(c, list[|list| - 1], depth, mid).1);
    }
  }

  lemma SpreadConcat(a: seq<Slot>, b: seq<Slot>, depth: nat, start: nat, mid: nat, end: nat)
    requires start <= mid <= end && Spread(a, depth, start, mid) && Spread(b, depth, mid, end)
    ensures Spread(a + b, depth, start, end)
  {
    forall i, j | 0 <= i < j < |a + b| && (a + b)[i].depth == (a + b)[j].depth
      ensures (a + b)[i].hi <= (a + b)[j].lo
    {
      if i < |a| <= j {
        assert a[i] in a && b[j - |a|] in b;
      }
    }
  }

  /** Boxes of 200 by 80 pixels that leave 32 pixels between them sideways, or 56 from one level to the next. */
  ghost predicate Apart(e: Entry, f: Entry) {
    || e.x + 200 + 32 <= f.x
    || f.x + 200 + 32 <= e.x
    || e.y + 80 + 56 <= f.y
    || f.y + 80 + 56 <= e.y
  }

  lemma SpreadMeansApart(slots: seq<Slot>, end: nat, i: nat, j: nat)
    requires Spread(slots, 0, 0, end) && i < j < |slots|
    ensures Apart(Box(slots[i]), Box(slots[j]))
  {
    RoundingIsExact(slots[i]);
    RoundingIsExact(slots[j]);
    assert slots[i] in slots && slots[j] in slots;
  }

  // ------------------------------------------------------------ everybody, once

  /** Every slot of the tree of a sits as many levels below a as its depth says. */
  ghost predicate Rooted(t: F.Table, slots: seq<Slot>, a: string, depth: nat) {
    forall s :: s in slots ==> s.depth >= depth && F.Up(t, s.agent.id, s.depth - depth) == Some(a)
  }

  /** t is the parent-pointer table of the chart's listing. */
  ghost predicate Linked(c: Chart, t: F.Table) {
    && F.Closed(t) && F.Acyclic(t)
    && (forall a :: a in c.agents ==> a.id in t)
    && (forall x, p :: x in c.agents && p in c.agents && x.reportsTo == Some(p.id) ==> F.Parent(t, x.id) == Some(p.id))
  }

  /** Two different siblings (or two different roots) have nobody below in common. */
  lemma SiblingsApart(t: F.Table, x: string, k1: string, k2: string, m: nat, n: nat)
    requires F.Closed(t) && F.Acyclic(t) && k1 in t && k2 in t && k1 != k2
    requires F.Parent(t, k1) == F.Parent(t, k2)
    requires m <= n
    ensures !(F.Up(t, x, m) == Some(k1) && F.Up(t, x, n) == Some(k2))
  {
    if F.Up(t, x, m) == Some(k1) && F.Up(t, x, n) == Some(k2) {
      F.UpAdd(t, x, m, n - m);
      assert F.Below(t, k1, k2);
      F.BelowUnfold(t, k1, k2);
      F.BelowUnfold(t, k2, k2);
      assert false;
    }
  }

  ghost predicate OnceEach(slots: seq<Slot>) {
    forall i, j :: 0 <= i < j < |slots| ==> slots[i].agent.id != slots[j].agent.id
  }

  ghost predicate Siblings(t: F.Table, list: seq<Agent>, parent: Option<string>) {
    DistinctIds(list) && forall k :: k in list ==> k.id in t && F.Parent(t, k.id) == parent
  }

  lemma KidsSiblings(c: Chart, t: F.Table, a: Agent)
    requires Layered(c) && Linked(c, t) && a in c.agents
    ensures Siblings(t, Kids(c.agents, a.id, c.collate), Some(a.id))
  {
    KidsAre(c.agents, a.id, c.collate);
  }

  /** The slot sits below some entry of the list, as many levels down as its depth says. */
  ghost predicate UnderSome(t: F.Table, list: seq<Agent>, s: Slot, depth: nat) {
    s.depth >= depth && exists k :: k in list && F.Up(t, s.agent.id, s.depth - depth) == Some(k.id)
  }

  lemma {:induction false} TreeOnce(c: Chart, t: F.Table, a: Agent, depth: nat, start: nat)
    requires Layered(c) && Linked(c, t) && a in c.agents
    ensures OnceEach(Tree(c, a, depth, start).0)
    ensures Rooted(t, Tree(c, a, depth, start).0, a.id, depth)
    decreases c.top - c.rank[a.id], 1, 0
  {
    KidsRanked(c, a);
    KidsSiblings(c, t, a);
    var kids := Kids(c.agents, a.id, c.collate);
    if kids == [] {
      OnceUnderRoot(t, a, kids, [], Slot(a, depth, start, start + 1));
      assert [] + [Slot(a, depth, start, start + 1)] == Tree(c, a, depth, start).0;
    } else {
      TreesOnce(c, t, kids, Some(a.id), c.rank[a.id] + 1, depth + 1, start);
      var (slots, end) := Trees(c, kids, c.rank[a.id] + 1, depth + 1, start);
      assert Tree(c, a, depth, start).0 == slots + [Slot(a, depth, start, end)];
      OnceUnderRoot(t, a, kids, slots, Slot(a, depth, start, end));
    }
  }

  lemma OnceUnderRoot(t: F.Table, a: Agent, kids: seq<Agent>, slots: seq<Slot>, root: Slot)
    requires F.Acyclic(t) && a.id in t && root.agent == a
    requires Siblings(t, kids, Some(a.id))
    requires OnceEach(slots) && forall s :: s in slots ==> UnderSome(t, kids, s, root.depth + 1)
    ensures OnceEach(slots + [root]) && Rooted(t, slots + [root], a.id, root.depth)
  {
    assert F.Up(t, a.id, 0) == Some(a.id);
    forall s | s in slots
      ensures s.agent.id != a.id && s.depth >= root.depth && F.Up(t, s.agent.id, s.depth - root.depth) == Some(a.id)
    {
      OneLevelUp(t, a, kids, s, root.depth);
    }
    forall i | 0 <= i < |slots|
      ensures slots[i].agent.id != a.id
    {
      assert slots[i] in slots;
    }
  }

  lemma OneLevelUp(t: F.Table, a: Agent, kids: seq<Agent>, s: Slot, depth: nat)
    requires F.Acyclic(t) && a.id in t
    requires Siblings(t, kids, Some(a.id))
    requires UnderSome(t, kids, s, depth + 1)
    ensures s.agent.id != a.id && F.Up(t, s.agent.id, s.depth - depth) == Some(a.id)
  {
    var k :| k in kids && F.Up(t, s.agent.id, s.depth - (depth + 1)) == Some(k.id);
    assert F.Up(t, s.agent.id, s.depth - depth) == Some(a.id);
    assert F.Below(t, s.agent.id, a.id);
  }

  lemma {:induction false} TreesOnce(c: Chart, t: F.Table, list: seq<Agent>, parent: Option<string>, low: nat, depth: nat, start: nat)
    requires Layered(c) && Linked(c, t) && RankedFrom(c, list, low) && low <= c.top + 1 && Siblings(t, list, parent)
    ensures OnceEach(Trees(c, list, low, depth, start).0)
    ensures forall s :: s in Trees(c, list, low, depth, start).0 ==> UnderSome(t, list, s, depth)
    decreases c.top + 1 - low, 0, |list|
  {
    if list != [] {
      var front, last := list[..|list| - 1], list[|list| - 1];
      var (before, mid) := Trees(c, front, low, depth, start);
      TreesOnce(c, t, front, parent, low, depth, start);
      TreeOnce(c, t, last, depth, mid);
      OnceConcat(t, list, parent, before, Tree(c, last, depth, mid).0, depth);
    }
  }

  lemma OnceConcat(t: F.Table, list: seq<Agent>, parent: Option<string>, before: seq<Slot>, slots: seq<Slot>, depth: nat)
    requires F.Closed(t) && F.Acyclic(t) && Siblings(t, list, parent) && list != []
    requires OnceEach(before) && OnceEach(slots)
    requires forall s :: s in before ==> UnderSome(t, list[..|list| - 1], s, depth)
    requires Rooted(t, slots, list[|list| - 1].id, depth)
    ensures OnceEach(before + slots)
    ensures forall s :: s in before + slots ==> UnderSome(t, list, s, depth)
  {
    forall s | s in before
      ensures UnderSome(t, list, s, depth)
    {
      var k :| k in list[..|list| - 1] && F.Up(t, s.agent.id, s.depth - depth) == Some(k.id);
      assert k in list;
    }
    forall s | s in slots
      ensures UnderSome(t, list, s, depth)
    {
      assert list[|list| - 1] in list;
    }
    forall i, j | 0 <= i < |before| && 0 <= j < |slots|
      ensures before[i].agent.id != slots[j].agent.id
    {
      assert before[i] in before && slots[j] in slots;
      ApartBySibling(t, list, parent, before[i], slots[j], depth);
    }
  }

  lemma ApartBySibling(t: F.Table, list: seq<Agent>, parent: Option<string>, s: Slot, r: Slot, depth: nat)
    requires F.Closed(t) && F.Acyclic(t) && Siblings(t, list, parent) && list != []
    requires UnderSome(t, list[..|list| - 1], s, depth)
    requires r.depth >= depth && F.Up(t, r.agent.id, r.depth - depth) == Some(list[|list| - 1].id)
    ensures s.agent.id != r.agent.id
  {
    var last := list[|list| - 1];
    var k :| k in list[..|list| - 1] && F.Up(t, s.agent.id, s.depth - depth) == Some(k.id);
    var i :| 0 <= i < |list| - 1 && list[..|list| - 1][i] == k;
    assert list[i] == k && k in list && last in list;
    if s.agent.id == r.agent.id {
      if s.depth <= r.depth {
        SiblingsApart(t, s.agent.id, k.id, last.id, s.depth - depth, r.depth - depth);
      } else {
        SiblingsApart(t, s.agent.id, last.id, k.id, r.depth - depth, s.depth - depth);
      }
    }
  }

  ghost predicate Placed(slots: seq<Slot>, a: Agent) {
    exists s :: s in slots && s.agent == a
  }

  lemma {:induction false} TreeHasKids(c: Chart, a: Agent, depth: nat, start: nat, p: Agent, x: Agent)
    requires Layered(c) && a in c.agents && x in c.agents && x.reportsTo == Some(p.id) && p in c.agents
    requires Placed(Tree(c, a, depth, start).0, p)
    ensures Placed(Tree(c, a, depth, start).0, x)
    decreases c.top - c.rank[a.id], 1, 0
  {
    KidsRanked(c, a);
    KidsAre(c.agents, a.id, c.collate);
    var kids := Kids(c.agents, a.id, c.collate);
    var low := c.rank[a.id] + 1;
    if kids != [] {
      if p == a {
        TreesHaveList(c, kids, low, depth + 1, start, x);
      } else {
        PlacedBelow(c, a, depth, start, p);
        TreesHaveKids(c, kids, low, depth + 1, start, p, x);
      }
      PlacedAbove(c, a, depth, start, x);
    }
  }

  /** A tree places its root and whom the trees of the root's reports place. */
  lemma PlacedBelow(c: Chart, a: Agent, depth: nat, start: nat, p: Agent)
    requires Layered(c) && a in c.agents && p != a && Placed(Tree(c, a, depth, start).0, p)
    ensures RankedFrom(c, Kids(c.agents, a.id, c.collate), c.rank[a.id] + 1) && c.rank[a.id] <= c.top
    ensures Placed(Trees(c, Kids(c.agents, a.id, c.collate), c.rank[a.id] + 1, depth + 1, start).0, p)
  {
    KidsRanked(c, a);
  }

  lemma PlacedAbove(c: Chart, a: Agent, depth: nat, start: nat, x: Agent)
    requires Layered(c) && a in c.agents && Kids(c.agents, a.id, c.collate) != []
    requires RankedFrom(c, Kids(c.agents, a.id, c.collate), c.rank[a.id] + 1) && c.rank[a.id] <= c.top
    requires Placed(Trees(c, Kids(c.agents, a.id, c.collate), c.rank[a.id] + 1, depth + 1, start).0, x)
    ensures Placed(Tree(c, a, depth, start).0, x)
  {
    var slots := Trees(c, Kids(c.agents, a.id, c.collate), c.rank[a.id] + 1, depth + 1, start).0;
    var s :| s in slots && s.agent == x;
    assert s in Tree(c, a, depth, start).0;
  }

  lemma {:induction false} TreesHaveKids(c: Chart, list: seq<Agent>, low: nat, depth: nat, start: nat, p: Agent, x: Agent)
    requires Layered(c) && RankedFrom(c, list, low) && low <= c.top + 1
    requires x in c.agents && x.reportsTo == Some(p.id) && p in c.agents
    requires Placed(Trees(c, list, low, depth, start).0, p)
    ensures Placed(Trees(c, list, low, depth, start).0, x)
    decreases c.top + 1 - low, 0, |list|
  {
    var (before, mid) := Trees(c, list[..|list| - 1], low, depth, start);
    var slots := Tree(c, list[|list| - 1], depth, mid).0;
    var s :| s in before + slots && s.agent == p;
    if s in before {
      TreesHaveKids(c, list[..|list| - 1], low, depth, start, p, x);
      var r :| r in before && r.agent == x;
      assert r in before + slots;
    } else {
      assert s in slots;
      TreeHasKids(c, list[|list| - 1], depth, mid, p, x);
      var r :| r in slots && r.agent == x;
      assert r in before + slots;
    }
  }

  lemma {:induction false} TreesHaveList(c: Chart, list: seq<Agent>, low: nat, depth: nat, start: nat, x: Agent)
    requires Layered(c) && RankedFrom(c, list, low) && low <= c.top + 1 && x in list
    ensures Placed(Trees(c, list, low, depth, start).0, x)
    decreases |list|
  {
    var (before, mid) := Trees(c, list[..|list| - 1], low, depth, start);
    var slots := Tree(c, list[|list| - 1], depth, mid).0;
    if x == list[|list| - 1] {
      assert slots[|slots| - 1] in before + slots;
    } else {
      TreesHaveList(c, list[..|list| - 1], low, depth, start, x);
      var r :| r in before && r.agent == x;
      assert r in before + slots;
    }
  }

  /** By rank: roots are placed, and whoever reports to a placed agent is placed. */
  lemma {:induction false} EverybodyPlaced(c: Chart, roots: seq<Agent>, x: Agent)
    requires Layered(c) && RankedFrom(c, roots, 0) && x in c.agents
    requires forall a :: a in c.agents && IsRoot(c.agents, a) ==> a in roots
    ensures Placed(Trees(c, roots, 0, 0, 0).0, x)
    decreases c.rank[x.id]
  {
    if IsRoot(c.agents, x) {
      TreesHaveList(c, roots, 0, 0, 0, x);
    } else {
      var p :| p in c.agents && p.id == x.reportsTo.value;
      EverybodyPlaced(c, roots, p);
      TreesHaveKids(c, roots, 0, 0, 0, p, x);
    }
  }
}
