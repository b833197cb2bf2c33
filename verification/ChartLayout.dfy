/** The layout method of the org chart and what its drawings look like (modules/board_ui/components/org-chart.tsx). */
module ChartLayout {
  import opened Common
  import F = Forest
  import opened OrgChart
  import opened ChartShape
  import opened ChartOrder

  /** A forest listing has a ranking, so the recursion has somewhere to go down to. */
  lemma ForestIsLayered(agents: seq<Agent>, collate: string -> int) returns (c: Chart)
    requires IsForest(agents)
    ensures c.agents == agents && c.collate == collate && Layered(c) && Linked(c, Links(agents))
  {
    var t := Links(agents);
    var rank := F.AcyclicIsRanked(t);
    var top := F.MaxRank(rank, t.Keys);
    c := Chart(agents, collate, rank, top);
    forall x, p | x in agents && p in agents && x.reportsTo == Some(p.id)
      ensures F.Parent(t, x.id) == Some(p.id)
    {
      assert p.id in Ids(agents);
    }
  }

  lemma LayoutIsTidy(c: Chart, t: F.Table, roots: seq<Agent>, slots: seq<Slot>, end: nat)
    requires Layered(c) && Linked(c, t) && RankedFrom(c, roots, 0) && Siblings(t, roots, None)
    requires forall a :: a in c.agents && IsRoot(c.agents, a) ==> a in roots
    requires Trees(c, roots, 0, 0, 0) == (slots, end)
    ensures Spread(slots, 0, 0, end) && OnceEach(slots) && FromChart(c, slots)
    ensures forall a :: a in c.agents ==> Placed(slots, a)
    ensures forall s :: s in slots ==> AtLevel(t, s)
  {
    TreesSpread(c, roots, 0, 0, 0);
    TreesOnce(c, t, roots, None, 0, 0, 0);
    forall a | a in c.agents
      ensures Placed(slots, a)
    {
      EverybodyPlaced(c, roots, a);
    }
    forall s | s in slots
      ensures AtLevel(t, s)
    {
      assert UnderSome(t, roots, s, 0);
    }
  }

  lemma LayoutIsReadable(c: Chart, roots: seq<Agent>, slots: seq<Slot>, end: nat)
    requires Layered(c) && RankedFrom(c, roots, 0) && Trees(c, roots, 0, 0, 0) == (slots, end)
    requires FromChart(c, slots) && OnceEach(slots) && forall a :: a in c.agents ==> Placed(slots, a)
    ensures AllSpan(Leaves(c.agents), slots) && AllArranged(c, slots) && Nested(slots)
    ensures end == |Leaves(c.agents)|
  {
    var leaves := Leaves(c.agents);
    LeavesHaveNoKids(c);
    forall s | s in slots
      ensures Spans(leaves, slots, s)
    {
      TreesSpan(c, leaves, roots, 0, 0, 0, s);
    }
    forall s | s in slots
      ensures Arranged(c, slots, s)
    {
      TreesArranged(c, roots, 0, 0, 0, s);
    }
    ArrangedIsNested(c, slots);
    TreesLeaves(c, leaves, roots, 0, 0, 0);
    LeavesAreCounted(leaves, slots, leaves);
  }

  /** Roots on top, and every report one level below its manager. */
  ghost predicate OnLevels(agents: seq<Agent>, entries: seq<Entry>) {
    && (forall e :: e in entries && IsRoot(agents, e.agent) ==> e.y == 0)
    && (forall e, f :: e in entries && f in entries && f.agent.reportsTo == Some(e.agent.id) ==> f.y == e.y + 136)
  }

  /** A manager stands between two of its reports, or straight above the only one. */
  ghost predicate OverReports(entries: seq<Entry>, e: Entry) {
    exists f, g :: f in entries && g in entries && f.agent.reportsTo == Some(e.agent.id) && g.agent.reportsTo == Some(e.agent.id)
                   && f.x <= e.x <= g.x
  }

  /** Every agent has exactly one box, inside the drawing, and all boxes keep their distance. */
  ghost predicate Tidy(agents: seq<Agent>, entries: seq<Entry>, width: nat) {
    && (forall i, j :: 0 <= i < j < |entries| ==> Apart(entries[i], entries[j]))
    && (forall i, j :: 0 <= i < j < |entries| ==> entries[i].agent.id != entries[j].agent.id)
    && (forall a :: a in agents ==> exists e :: e in entries && e.agent == a)
    && (forall e :: e in entries ==> e.agent in agents)
    && (forall e :: e in entries ==> 0 <= e.x && e.x + 200 <= width && 0 <= e.y)
  }

  ghost predicate AtOrBelow(agents: seq<Agent>, x: Agent, a: Agent)
    requires DistinctIds(agents)
  {
    x == a || F.Below(Links(agents), x.id, a.id)
  }

  /** e stands exactly midway between l and r, at or below it, whom nobody reports to, and nobody below e stands further out. */
  ghost predicate Midway(agents: seq<Agent>, entries: seq<Entry>, e: Entry, l: Entry, r: Entry)
    requires DistinctIds(agents)
  {
    && l in entries && l.agent in Leaves(agents) && AtOrBelow(agents, l.agent, e.agent)
    && r in entries && r.agent in Leaves(agents) && AtOrBelow(agents, r.agent, e.agent)
    && 2 * e.x == l.x + r.x
    && forall d :: d in entries && AtOrBelow(agents, d.agent, e.agent) ==> l.x <= d.x <= r.x
  }

  ghost predicate Centered(agents: seq<Agent>, entries: seq<Entry>, e: Entry)
    requires DistinctIds(agents)
  {
    exists l, r :: Midway(agents, entries, e, l, r)
  }

  /** Levels follow the reporting lines, and managers stand over their reports, centred over everybody below them. */
  ghost predicate Readable(agents: seq<Agent>, entries: seq<Entry>)
    requires DistinctIds(agents)
  {
    && OnLevels(agents, entries)
    && (forall e {:trigger OverReports(entries, e)} :: e in entries && e.agent !in Leaves(agents) ==> OverReports(entries, e))
    && (forall e {:trigger Centered(agents, entries, e)} :: e in entries ==> Centered(agents, entries, e))
  }

  /** Two reports of m, the role of e before that of f. */
  predicate InOrder(e: Entry, f: Entry, m: Entry, collate: string -> int) {
    e.agent.reportsTo == Some(m.agent.id) == f.agent.reportsTo && collate(e.agent.role) < collate(f.agent.role)
  }

  /** Reports of one manager stand in the locale order of their roles, from left to right. */
  ghost predicate InRoleOrder(entries: seq<Entry>, collate: string -> int) {
    forall e, f, m :: e in entries && f in entries && m in entries && InOrder(e, f, m, collate) ==> e.x + 232 <= f.x
  }

  /** What is known of the slots of a whole listing. */
  ghost predicate Drawn(c: Chart, slots: seq<Slot>, end: nat) {
    && Layered(c) && Linked(c, Links(c.agents)) && FromChart(c, slots) && OnceEach(slots) && Spread(slots, 0, 0, end)
    && (forall a :: a in c.agents ==> Placed(slots, a))
  }

  lemma BoxOfLeaf(s: Slot)
    requires s.hi == s.lo + 1
    ensures Box(s).x == s.lo * 232
  {
    RoundingIsExact(s);
  }

  lemma InsideIsBetween(d: Slot, s: Slot)
    requires Inside(d, s) && d.lo < d.hi
    ensures s.lo * 232 <= Box(d).x <= (s.hi - 1) * 232
  {
    RoundingIsExact(d);
  }

  lemma UpIsAtOrBelow(agents: seq<Agent>, x: Agent, a: Agent, n: nat)
    requires DistinctIds(agents) && x in agents && a in agents && F.Up(Links(agents), x.id, n) == Some(a.id)
    ensures AtOrBelow(agents, x, a)
  {
    if n == 0 {
      SameIdSameAgent(agents, x, a);
    }
  }

  lemma AtOrBelowIsBetween(c: Chart, slots: seq<Slot>, end: nat, s: Slot, d: Slot)
    requires Drawn(c, slots, end) && Nested(slots) && s in slots && d in slots && AtOrBelow(c.agents, d.agent, s.agent)
    ensures s.lo * 232 <= Box(d).x <= (s.hi - 1) * 232
  {
    assert F.Up(Links(c.agents), d.agent.id, 0) == Some(d.agent.id);
    var n: nat :| F.Up(Links(c.agents), d.agent.id, n) == Some(s.agent.id);
    BelowInside(c.agents, slots, s, d, n);
    InsideIsBetween(d, s);
  }

  ghost function SlotOf(slots: seq<Slot>, e: Entry): (s: Slot)
    requires e in Boxes(slots)
    ensures s in slots && Box(s) == e
  {
    var i :| 0 <= i < |slots| && Boxes(slots)[i] == e;
    slots[i]
  }

  lemma NobodyFurtherOut(c: Chart, slots: seq<Slot>, end: nat, s: Slot)
    requires Drawn(c, slots, end) && Nested(slots) && s in slots
    ensures forall d :: d in Boxes(slots) && AtOrBelow(c.agents, d.agent, s.agent) ==> s.lo * 232 <= d.x <= (s.hi - 1) * 232
  {
    forall d | d in Boxes(slots) && AtOrBelow(c.agents, d.agent, s.agent)
      ensures s.lo * 232 <= d.x <= (s.hi - 1) * 232
    {
      AtOrBelowIsBetween(c, slots, end, s, SlotOf(slots, d));
    }
  }

  /** The outermost leaf on one side of a slot. */
  lemma EdgeBox(c: Chart, slots: seq<Slot>, end: nat, s: Slot, left: bool) returns (l: Entry)
    requires Drawn(c, slots, end) && AllSpan(Leaves(c.agents), slots) && s in slots
    ensures l in Boxes(slots) && l.agent in Leaves(c.agents) && AtOrBelow(c.agents, l.agent, s.agent)
    ensures l.x == (if left then s.lo else s.hi - 1) * 232
  {
    var e, n := Edge(c, Links(c.agents), Leaves(c.agents), slots, s, left);
    UpIsAtOrBelow(c.agents, e.agent, s.agent, n);
    BoxIn(slots, e);
    BoxOfLeaf(e);
    l := Box(e);
  }

  lemma BoxIsCentered(c: Chart, slots: seq<Slot>, end: nat, s: Slot)
    requires Drawn(c, slots, end) && Nested(slots) && AllSpan(Leaves(c.agents), slots) && s in slots
    ensures Centered(c.agents, Boxes(slots), Box(s))
  {
    var l := EdgeBox(c, slots, end, s, true);
    var r := EdgeBox(c, slots, end, s, false);
    NobodyFurtherOut(c, slots, end, s);
    EdgesMakeMiddle(c.agents, Boxes(slots), s, l, r);
  }

  lemma EdgesMakeMiddle(agents: seq<Agent>, entries: seq<Entry>, s: Slot, l: Entry, r: Entry)
    requires DistinctIds(agents)
    requires l in entries && l.agent in Leaves(agents) && AtOrBelow(agents, l.agent, s.agent) && l.x == s.lo * 232
    requires r in entries && r.agent in Leaves(agents) && AtOrBelow(agents, r.agent, s.agent) && r.x == (s.hi - 1) * 232
    requires forall d :: d in entries && AtOrBelow(agents, d.agent, s.agent) ==> s.lo * 232 <= d.x <= (s.hi - 1) * 232
    ensures Centered(agents, entries, Box(s))
  {
    RoundingIsExact(s);
    assert Midway(agents, entries, Box(s), l, r);
  }

  lemma RolesInOrder(c: Chart, slots: seq<Slot>, s: Slot, e: Slot, f: Slot)
    requires OnceEach(slots) && Arranged(c, slots, s) && e in slots && f in slots && e.lo < e.hi && f.lo < f.hi
    requires e.agent in c.agents && f.agent in c.agents && e.agent.reportsTo == Some(s.agent.id) == f.agent.reportsTo
    requires c.collate(e.agent.role) < c.collate(f.agent.role)
    ensures Box(e).x + 232 <= Box(f).x
  {
    assert ReportsTo(c, e.agent, s.agent) && ReportsTo(c, f.agent, s.agent) && LeftOf(slots, e.agent, f.agent);
    var e', f' :| e' in slots && f' in slots && e'.agent == e.agent && f'.agent == f.agent && e'.hi <= f'.lo;
    SameSlot(slots, e, e');
    SameSlot(slots, f, f');
    RoundingIsExact(e);
    RoundingIsExact(f);
  }

  ghost predicate AllArranged(c: Chart, slots: seq<Slot>) {
    forall s {:trigger Arranged(c, slots, s)} :: s in slots ==> Arranged(c, slots, s)
  }

  lemma BoxesInRoleOrder(c: Chart, slots: seq<Slot>, end: nat)
    requires Drawn(c, slots, end) && AllArranged(c, slots)
    ensures InRoleOrder(Boxes(slots), c.collate)
  {
    forall e, f, m | e in Boxes(slots) && f in Boxes(slots) && m in Boxes(slots) && InOrder(e, f, m, c.collate)
      ensures e.x + 232 <= f.x
    {
      var i, j, k := SlotOf(slots, e), SlotOf(slots, f), SlotOf(slots, m);
      assert Arranged(c, slots, k);
      RolesInOrder(c, slots, k, i, j);
    }
  }

  lemma BoxesOnLevels(agents: seq<Agent>, slots: seq<Slot>)
    requires IsForest(agents)
    requires forall s :: s in slots ==> s.agent in agents && AtLevel(Links(agents), s)
    ensures OnLevels(agents, Boxes(slots))
  {
    var t := Links(agents);
    forall e | e in Boxes(slots)
      ensures IsRoot(agents, e.agent) ==> e.y == 0
    {
      var i :| 0 <= i < |slots| && Boxes(slots)[i] == e;
      assert slots[i] in slots;
      LinkOf(agents, e.agent);
      if IsRoot(agents, e.agent) {
        RootOnTop(t, slots[i]);
      }
    }
    forall e, f | e in Boxes(slots) && f in Boxes(slots) && f.agent.reportsTo == Some(e.agent.id)
      ensures f.y == e.y + NODE_H + V_GAP
    {
      var i :| 0 <= i < |slots| && Boxes(slots)[i] == e;
      var j :| 0 <= j < |slots| && Boxes(slots)[j] == f;
      assert slots[i] in slots && slots[j] in slots && e.agent.id in Ids(agents);
      LinkOf(agents, f.agent);
      ReportOneLevelDown(t, slots[i], slots[j]);
    }
  }

  lemma BoxOverReports(leaves: set<Agent>, slots: seq<Slot>, s: Slot)
    requires s in slots && s.agent !in leaves && Spans(leaves, slots, s)
    ensures OverReports(Boxes(slots), Box(s))
  {
    var f :| f in slots && f.agent.reportsTo == Some(s.agent.id) && f.lo == s.lo && f.hi <= s.hi;
    var g :| g in slots && g.agent.reportsTo == Some(s.agent.id) && g.hi == s.hi && g.lo >= s.lo;
    RoundingIsExact(s);
    RoundingIsExact(f);
    RoundingIsExact(g);
    BoxIn(slots, f);
    BoxIn(slots, g);
  }

  lemma BoxIn(slots: seq<Slot>, s: Slot)
    requires s in slots
    ensures Box(s) in Boxes(slots)
  {
    var i :| 0 <= i < |slots| && slots[i] == s;
    assert Boxes(slots)[i] == Box(s);
  }

  lemma BoxesAreTidy(agents: seq<Agent>, slots: seq<Slot>, end: nat, width: nat)
    requires Spread(slots, 0, 0, end) && OnceEach(slots) && width >= end * UNIT
    requires forall s :: s in slots ==> s.agent in agents
    requires forall a :: a in agents ==> Placed(slots, a)
    ensures Tidy(agents, Boxes(slots), width)
  {
    var entries := Boxes(slots);
    forall i, j | 0 <= i < j < |entries|
      ensures Apart(entries[i], entries[j]) && entries[i].agent.id != entries[j].agent.id
    {
      SpreadMeansApart(slots, end, i, j);
    }
    forall i | 0 <= i < |entries|
      ensures 0 <= entries[i].x && entries[i].x + NODE_W <= width && 0 <= entries[i].y
    {
      RoundingIsExact(slots[i]);
      assert slots[i] in slots;
    }
    forall a | a in agents
      ensures exists e :: e in entries && e.agent == a
    {
      PlacedHasBox(slots, a);
    }
    forall e | e in entries
      ensures e.agent in agents
    {
      var i :| 0 <= i < |entries| && entries[i] == e;
      assert slots[i] in slots;
    }
  }

  lemma BoxesAreReadable(c: Chart, agents: seq<Agent>, slots: seq<Slot>, end: nat)
    requires IsForest(agents) && c.agents == agents && Drawn(c, slots, end) && Nested(slots)
    requires forall s :: s in slots ==> s.agent in agents && AtLevel(Links(agents), s)
    requires AllSpan(Leaves(agents), slots)
    ensures Readable(agents, Boxes(slots))
  {
    BoxesOnLevels(agents, slots);
    forall e | e in Boxes(slots) && e.agent !in Leaves(agents)
      ensures OverReports(Boxes(slots), e)
    {
      var s := SlotOf(slots, e);
      assert Spans(Leaves(agents), slots, s);
      BoxOverReports(Leaves(agents), slots, s);
    }
    forall e | e in Boxes(slots)
      ensures Centered(agents, Boxes(slots), e)
    {
      BoxIsCentered(c, slots, end, SlotOf(slots, e));
    }
  }

  lemma PlacedHasBox(slots: seq<Slot>, a: Agent)
    requires Placed(slots, a)
    ensures exists e :: e in Boxes(slots) && e.agent == a
  {
    var s :| s in slots && s.agent == a;
    var i :| 0 <= i < |slots| && slots[i] == s;
    assert Boxes(slots)[i] in Boxes(slots) && Boxes(slots)[i].agent == a;
  }

  class Layout {
    var byParent: map<Option<string>, seq<Agent>>
    var cursor: nat
    var entries: seq<Entry>

    constructor ()
      ensures byParent == map[] && cursor == 0 && entries == []
    {
      byParent, cursor, entries := map[], 0, [];
    }

    function Listed(key: Option<string>): seq<Agent>
      reads this`byParent
    {
      if key in byParent then byParent[key] else []
    }

    ghost predicate Grouped(agents: seq<Agent>, collate: string -> int)
      reads this`byParent
    {
      forall id :: Listed(Some(id)) == Kids(agents, id, collate)
    }

    method Group(agents: seq<Agent>, collate: string -> int)
      requires byParent == map[]
      modifies this`byParent
      ensures Grouped(agents, collate)
    {
      for i := 0 to |agents|
        invariant forall key :: Listed(key) == Filter(agents[..i], key)
      {
        assert agents[..i + 1][..i] == agents[..i];
        var a := agents[i];
        byParent := byParent[a.reportsTo := Listed(a.reportsTo) + [a]];
      }
      assert agents[..|agents|] == agents;
      var unsorted := byParent.Keys;
      while unsorted != {}
        invariant unsorted <= byParent.Keys
        invariant forall key :: Listed(key) == if key in unsorted then Filter(agents, key) else SortByRole(Filter(agents, key), collate)
        decreases unsorted
      {
        var key :| key in unsorted;
        byParent := byParent[key := SortByRole(byParent[key], collate)];
        unsorted := unsorted - {key};
      }
    }

    method Place(a: Agent, depth: nat, ghost c: Chart)
      requires Layered(c) && a in c.agents && Grouped(c.agents, c.collate)
      modifies this`cursor, this`entries
      ensures cursor == Tree(c, a, depth, old(cursor)).1
      ensures entries == old(entries) + Boxes(Tree(c, a, depth, old(cursor)).0)
      decreases c.top - c.rank[a.id], 1
    {
      var start := cursor;
      var kids := Listed(Some(a.id));
      KidsRanked(c, a);
      ghost var slots: seq<Slot> := [];
      if kids == [] {
        cursor := cursor + 1;
      } else {
        slots := PlaceAll(kids, depth + 1, c, c.rank[a.id] + 1);
      }
      TreeIs(c, a, depth, start, slots, cursor);
      var center := if kids == [] then start as real else (start + cursor - 1) as real / 2.0;
      var x := JsRound(center * UNIT as real);
      var y := depth * (NODE_H + V_GAP);
      assert kids == [] ==> cursor == start + 1;
      LastBox(slots, Slot(a, depth, start, cursor), center);
      entries := entries + [Entry(a, x, y)];
    }

    /** The loops over the children and over the roots. */
    method PlaceAll(list: seq<Agent>, depth: nat, ghost c: Chart, ghost low: nat) returns (ghost slots: seq<Slot>)
      requires Layered(c) && RankedFrom(c, list, low) && low <= c.top + 1 && Grouped(c.agents, c.collate)
      modifies this`cursor, this`entries
      ensures (slots, cursor) == Trees(c, list, low, depth, old(cursor))
      ensures entries == old(entries) + Boxes(slots)
      decreases c.top + 1 - low, 0
    {
      slots := [];
      FirstTreesAll(c, list, low, depth, cursor);
      for i := 0 to |list|
        invariant (slots, cursor) == FirstTrees(c, list, i, low, depth, old(cursor))
        invariant entries == old(entries) + Boxes(slots)
      {
        FirstTreesSnoc(c, list, i, low, depth, old(cursor));
        ghost var more := Tree(c, list[i], depth, cursor).0;
        Place(list[i], depth, c);
        BoxesAppend(old(entries), slots, more);
        slots := slots + more;
      }
    }
  }

  /** The first i subtrees of a list. */
  ghost function FirstTrees(c: Chart, list: seq<Agent>, i: nat, low: nat, depth: nat, start: nat): (seq<Slot>, nat)
    requires Layered(c) && RankedFrom(c, list, low) && low <= c.top + 1 && i <= |list|
  {
    Trees(c, list[..i], low, depth, start)
  }

  lemma FirstTreesSnoc(c: Chart, list: seq<Agent>, i: nat, low: nat, depth: nat, start: nat)
    requires Layered(c) && RankedFrom(c, list, low) && low <= c.top + 1 && i < |list|
    ensures list[i] in c.agents && list[i].id in c.rank && c.rank[list[i].id] >= low
    ensures
      var (slots, mid) := FirstTrees(c, list, i, low, depth, start);
      var (more, end) := Tree(c, list[i], depth, mid);
      FirstTrees(c, list, i + 1, low, depth, start) == (slots + more, end)
  {
    assert list[..i + 1][..i] == list[..i];
  }

  lemma FirstTreesAll(c: Chart, list: seq<Agent>, low: nat, depth: nat, start: nat)
    requires Layered(c) && RankedFrom(c, list, low) && low <= c.top + 1
    ensures FirstTrees(c, list, 0, low, depth, start) == ([], start)
    ensures FirstTrees(c, list, |list|, low, depth, start) == Trees(c, list, low, depth, start)
  {
    assert list[..|list|] == list;
  }

  lemma LastBox(slots: seq<Slot>, last: Slot, center: real)
    requires center == (last.lo + last.hi - 1) as real / 2.0
    ensures Boxes(slots + [last]) == Boxes(slots) + [Entry(last.agent, JsRound(center * UNIT as real), last.depth * (NODE_H + V_GAP))]
  {
  }

  lemma TreeIs(c: Chart, a: Agent, depth: nat, start: nat, slots: seq<Slot>, end: nat)
    requires Layered(c) && a in c.agents
    requires
      var kids := Kids(c.agents, a.id, c.collate);
      if kids == [] then slots == [] && end == start + 1
      else RankedFrom(c, kids, c.rank[a.id] + 1) && c.rank[a.id] + 1 <= c.top + 1
           && Trees(c, kids, c.rank[a.id] + 1, depth + 1, start) == (slots, end)
    ensures Tree(c, a, depth, start) == (slots + [Slot(a, depth, start, end)], end) && end > start
  {
    assert [] + [Slot(a, depth, start, end)] == [Slot(a, depth, start, end)];
    TreeSpread(c, a, depth, start);
  }

  lemma BoxesAppend(before: seq<Entry>, a: seq<Slot>, b: seq<Slot>)
    ensures before + Boxes(a) + Boxes(b) == before + Boxes(a + b)
  {
    BoxesConcat(a, b);
  }

  lemma BoxesConcat(a: seq<Slot>, b: seq<Slot>)
    ensures Boxes(a + b) == Boxes(a) + Boxes(b)
  {
  }

  function Roots(agents: seq<Agent>, all: seq<Agent>): (r: seq<Agent>)
    ensures forall a :: a in r <==> a in agents && IsRoot(all, a)
    ensures DistinctIds(agents) ==> DistinctIds(r)
  {
    if agents == [] then []
    else
      var rest := Roots(agents[..|agents| - 1], all);
      assert forall a :: a in agents <==> a in agents[..|agents| - 1] || a == agents[|agents| - 1];
      assert DistinctIds(agents) ==> forall a :: a in rest ==> a.id != agents[|agents| - 1].id;
      if IsRoot(all, agents[|agents| - 1]) then rest + [agents[|agents| - 1]] else rest
  }

  lemma RootsReady(c: Chart, t: F.Table, roots: seq<Agent>)
    requires Layered(c) && Linked(c, t) && t == Links(c.agents)
    requires roots == Roots(c.agents, c.agents)
    ensures RankedFrom(c, roots, 0) && Siblings(t, roots, None)
    ensures forall a :: a in c.agents && IsRoot(c.agents, a) ==> a in roots
  {
    forall a | a in roots
      ensures F.Parent(t, a.id) == None
    {
      LinkOf(c.agents, a);
    }
  }

  lemma LinkOf(agents: seq<Agent>, x: Agent)
    requires DistinctIds(agents) && x in agents
    ensures F.Parent(Links(agents), x.id) == if IsRoot(agents, x) then None else x.reportsTo
  {
  }

  /** One column at least, even for an empty company. */
  function DrawingWidth(cols: nat): (w: nat)
    ensures w >= cols * UNIT && w >= UNIT
  {
    (if cols > 1 then cols else 1) * UNIT
  }

  /** The slots are those of the whole listing. */
  ghost predicate Laid(c: Chart, roots: seq<Agent>, slots: seq<Slot>, end: nat) {
    && IsForest(c.agents) && Layered(c) && Linked(c, Links(c.agents)) && roots == Roots(c.agents, c.agents)
    && RankedFrom(c, roots, 0) && Trees(c, roots, 0, 0, 0) == (slots, end)
  }

  lemma DrawnTidy(c: Chart, roots: seq<Agent>, slots: seq<Slot>, end: nat)
    requires Laid(c, roots, slots, end)
    ensures Tidy(c.agents, Boxes(slots), DrawingWidth(end))
  {
    RootsReady(c, Links(c.agents), roots);
    LayoutIsTidy(c, Links(c.agents), roots, slots, end);
    BoxesAreTidy(c.agents, slots, end, DrawingWidth(end));
  }

  lemma DrawnReadable(c: Chart, roots: seq<Agent>, slots: seq<Slot>, end: nat)
    requires Laid(c, roots, slots, end)
    ensures Readable(c.agents, Boxes(slots)) && InRoleOrder(Boxes(slots), c.collate) && end == |Leaves(c.agents)|
  {
    RootsReady(c, Links(c.agents), roots);
    LayoutIsTidy(c, Links(c.agents), roots, slots, end);
    LayoutIsReadable(c, roots, slots, end);
    BoxesAreReadable(c, c.agents, slots, end);
    BoxesInRoleOrder(c, slots, end);
  }

  lemma DrawnWell(c: Chart, roots: seq<Agent>, slots: seq<Slot>, end: nat, entries: seq<Entry>)
    requires Laid(c, roots, slots, end) && entries == Boxes(slots)
    ensures Tidy(c.agents, entries, DrawingWidth(end)) && Readable(c.agents, entries) && InRoleOrder(entries, c.collate)
    ensures DrawingWidth(end) == 232 * (if |Leaves(c.agents)| > 1 then |Leaves(c.agents)| else 1)
  {
    DrawnTidy(c, roots, slots, end);
    DrawnReadable(c, roots, slots, end);
    WidthIs(end);
  }

  lemma WidthIs(cols: nat)
    ensures DrawingWidth(cols) == 232 * (if cols > 1 then cols else 1)
  {
    assert UNIT == 232;
  }

  /**
   On every listing that is a forest: a tidy and readable drawing, one column wide for every agent nobody
   reports to.
   */
  method LayoutChart(agents: seq<Agent>, collate: string -> int) returns (entries: seq<Entry>, width: nat)
    requires IsForest(agents)
    ensures Tidy(agents, entries, width) && Readable(agents, entries) && InRoleOrder(entries, collate)
    ensures width == 232 * (if |Leaves(agents)| > 1 then |Leaves(agents)| else 1)
  {
    var l := new Layout();
    l.Group(agents, collate);
    ghost var c := ForestIsLayered(agents, collate);
    var roots := Roots(agents, agents);
    RootsReady(c, Links(agents), roots);
    ghost var slots := l.PlaceAll(roots, 0, c, 0);
    width, entries := DrawingWidth(l.cursor), l.entries;
    DrawnWell(c, roots, slots, l.cursor, entries);
  }
}
