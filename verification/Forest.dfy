/**
 The parent-pointer table behind the org chart (modules/identity/org.py), as a value: ancestors,
 acyclicity, and what one changed pointer does to them.
 */
module Forest {
  import opened Common

  type Id = string

  datatype Role = CEO | HR | SECURITY | MEMBER
  datatype Status = ACTIVE | FIRED
  datatype Agent = Agent(role: Role, reportsTo: Option<Id>, status: Status)

  type Table = map<Id, Agent>

  predicate Active(t: Table, a: Id) {
    a in t && t[a].status == ACTIVE
  }

  function Parent(t: Table, a: Id): Option<Id> {
    if a in t then t[a].reportsTo else None
  }

  /** The agent n levels above a, if the chain is that long. */
  function Up(t: Table, a: Id, n: nat): Option<Id> {
    if n == 0 then Some(a)
    else
      match Up(t, a, n - 1)
      case None => None
      case Some(b) => Parent(t, b)
  }

  /** x sits strictly below a. */
  ghost predicate Below(t: Table, x: Id, a: Id) {
    exists n: nat :: n >= 1 && Up(t, x, n) == Some(a)
  }

  /** No dangling manager ids. */
  ghost predicate Closed(t: Table) {
    forall a :: a in t && t[a].reportsTo.Some? ==> t[a].reportsTo.value in t
  }

  /** Nobody is their own ancestor. */
  ghost predicate Acyclic(t: Table) {
    forall a :: a in t ==> !Below(t, a, a)
  }

  lemma {:induction false} UpAdd(t: Table, a: Id, m: nat, n: nat)
    requires Up(t, a, m).Some?
    ensures Up(t, a, m + n) == Up(t, Up(t, a, m).value, n)
  {
    if n != 0 {
      UpAdd(t, a, m, n - 1);
    }
  }

  /** A chain that reaches level n passes through every lower level. */
  lemma {:induction false} UpPrefix(t: Table, a: Id, m: nat, n: nat)
    requires m <= n && Up(t, a, n).Some?
    ensures Up(t, a, m).Some?
    decreases n
  {
    if m < n {
      UpPrefix(t, a, m, n - 1);
    }
  }

  lemma BelowTrans(t: Table, x: Id, y: Id, z: Id)
    requires Below(t, x, y) && Below(t, y, z)
    ensures Below(t, x, z)
  {
    var m: nat :| m >= 1 && Up(t, x, m) == Some(y);
    var n: nat :| n >= 1 && Up(t, y, n) == Some(z);
    UpAdd(t, x, m, n);
    assert m + n >= 1 && Up(t, x, m + n) == Some(z);
  }

  lemma BelowParent(t: Table, x: Id)
    requires Parent(t, x).Some?
    ensures Below(t, x, Parent(t, x).value)
  {
    assert Up(t, x, 0) == Some(x);
    assert Up(t, x, 1) == Parent(t, x);
  }

  /** Below, one step at a time from the bottom. */
  lemma BelowUnfold(t: Table, x: Id, a: Id)
    ensures Below(t, x, a) <==> Parent(t, x).Some? && (Parent(t, x).value == a || Below(t, Parent(t, x).value, a))
  {
    assert Up(t, x, 0) == Some(x);
    assert Up(t, x, 1) == Parent(t, x);
    if Below(t, x, a) {
      var n: nat :| n >= 1 && Up(t, x, n) == Some(a);
      UpPrefix(t, x, 1, n);
      UpAdd(t, x, 1, n - 1);
      if n > 1 {
        assert Up(t, Parent(t, x).value, n - 1) == Some(a);
      }
    }
    if Parent(t, x).Some? && Below(t, Parent(t, x).value, a) {
      BelowParent(t, x);
      BelowTrans(t, x, Parent(t, x).value, a);
    }
  }

  lemma {:induction false} BelowInTable(t: Table, x: Id, a: Id)
    requires Closed(t) && Below(t, x, a)
    ensures x in t && a in t
  {
    var n: nat :| n >= 1 && Up(t, x, n) == Some(a);
    UpPrefix(t, x, n - 1, n);
    UpPrefix(t, x, 1, n);
    assert Up(t, x, 0) == Some(x);
  }

  // ------------------------------------------------------------ ranks

  /** Every pointer leads to a smaller rank. */
  ghost predicate Ranked(t: Table, rank: map<Id, nat>) {
    && t.Keys <= rank.Keys
    && forall a :: a in t && t[a].reportsTo.Some? && t[a].reportsTo.value in t ==>
         rank[t[a].reportsTo.value] < rank[a]
  }

  lemma {:induction false} RankFalls(t: Table, rank: map<Id, nat>, a: Id, n: nat)
    requires Closed(t) && Ranked(t, rank) && a in t && Up(t, a, n).Some?
    ensures Up(t, a, n).value in t
    ensures rank[Up(t, a, n).value] + n <= rank[a]
  {
    if n != 0 {
      RankFalls(t, rank, a, n - 1);
    }
  }

  /** A ranking rules cycles out. */
  lemma RankedIsAcyclic(t: Table, rank: map<Id, nat>)
    requires Closed(t) && Ranked(t, rank)
    ensures Acyclic(t)
  {
    forall a | a in t && Below(t, a, a)
      ensures false
    {
      var n: nat :| n >= 1 && Up(t, a, n) == Some(a);
      RankFalls(t, rank, a, n);
    }
  }

  /** How many levels sit above a, never stepping back into seen. */
  ghost function Height(t: Table, a: Id, seen: set<Id>): nat
    decreases t.Keys - seen
  {
    if a !in t || a in seen || Parent(t, a).None? then 0
    else 1 + Height(t, Parent(t, a).value, seen + {a})
  }

  /** In an acyclic table the guard of Height never bites. */
  lemma {:induction false} HeightIgnoresSeen(t: Table, a: Id, seen: set<Id>, more: set<Id>)
    requires Acyclic(t) && seen <= more
    requires forall s :: s in more ==> s != a && !Below(t, a, s)
    ensures Height(t, a, seen) == Height(t, a, more)
    decreases t.Keys - more
  {
    if a in t && Parent(t, a).Some? {
      var p := Parent(t, a).value;
      BelowParent(t, a);
      forall s | s in more + {a}
        ensures s != p && !Below(t, p, s)
      {
        if s == p || Below(t, p, s) {
          BelowUnfold(t, a, s);
          assert false;
        }
      }
      HeightIgnoresSeen(t, p, seen + {a}, more + {a});
    }
  }

  /** An acyclic table has a ranking: the number of levels above each agent. */
  lemma AcyclicIsRanked(t: Table) returns (rank: map<Id, nat>)
    requires Closed(t) && Acyclic(t)
    ensures Ranked(t, rank)
  {
    rank := map a | a in t :: Height(t, a, {});
    forall a | a in t && t[a].reportsTo.Some?
      ensures rank[t[a].reportsTo.value] < rank[a]
    {
      var p := t[a].reportsTo.value;
      BelowParent(t, a);
      if p == a || Below(t, p, a) {
        BelowUnfold(t, a, a);
        assert false;
      }
      HeightIgnoresSeen(t, p, {}, {a});
      assert {} + {a} == {a};
    }
  }

  // ------------------------------------------------------------ changes to the table

  /** Changes to other columns of the rows, and a new leaf, keep the table a forest. */
  lemma KeepsForest(t: Table, t': Table)
    requires Closed(t) && Acyclic(t) && Closed(t')
    requires forall a :: a in t' && t'[a].reportsTo.Some? ==>
               t'[a].reportsTo.value in t && (a in t ==> t[a].reportsTo == t'[a].reportsTo)
    ensures Acyclic(t')
  {
    var rank := AcyclicIsRanked(t);
    var top := MaxRank(rank, t.Keys);
    var rank' := map a | a in t' :: if a in t then rank[a] else top + 1;
    RankedIsAcyclic(t', rank');
  }

  lemma MaxRank(rank: map<Id, nat>, s: set<Id>) returns (top: nat)
    requires s <= rank.Keys
    ensures forall a :: a in s ==> rank[a] <= top
    decreases s
  {
    top := 0;
    if s != {} {
      var a :| a in s;
      var rest := MaxRank(rank, s - {a});
      top := if rank[a] > rest then rank[a] else rest;
    }
  }

  function Repoint(t: Table, x: Id, m: Id): Table
    requires x in t
  {
    t[x := t[x].(reportsTo := Some(m))]
  }

  /**
   Moving x under m keeps the table acyclic exactly when m is neither x nor below x: the cycle walk
   of reassign refuses precisely the pointers that would close a loop.
   */
  lemma RepointAcyclicIff(t: Table, x: Id, m: Id)
    requires Closed(t) && Acyclic(t) && x in t && m in t
    ensures Closed(Repoint(t, x, m))
    ensures Acyclic(Repoint(t, x, m)) <==> m != x && !Below(t, m, x)
  {
    var t' := Repoint(t, x, m);
    if m == x || Below(t, m, x) {
      RepointClosesLoop(t, x, m);
    } else {
      var rank := AcyclicIsRanked(t);
      var rank' := map a | a in t :: if a == x || Below(t, a, x) then rank[a] + rank[m] + 1 else rank[a];
      forall a | a in t' && t'[a].reportsTo.Some?
        ensures t'[a].reportsTo.value in t && rank'[t'[a].reportsTo.value] < rank'[a]
      {
        if a != x {
          BelowUnfold(t, a, x);
        }
      }
      RankedIsAcyclic(t', rank');
    }
  }

  /** If m is x or below x, pointing x at m puts m below itself. */
  lemma RepointClosesLoop(t: Table, x: Id, m: Id)
    requires Closed(t) && Acyclic(t) && x in t && m in t
    requires m == x || Below(t, m, x)
    ensures !Acyclic(Repoint(t, x, m))
  {
    var t' := Repoint(t, x, m);
    assert Parent(t', x) == Some(m);
    BelowParent(t', x);
    if m != x {
      var n: nat :| n >= 1 && Up(t, m, n) == Some(x);
      LoopBelow(t, x, m, n);
      BelowTrans(t', x, m, x);
    }
    assert Below(t', x, x);
  }

  /** The chain from m up to x does not use x's own pointer, so moving x leaves it in place. */
  lemma {:induction false} LoopBelow(t: Table, x: Id, m: Id, n: nat)
    requires Closed(t) && Acyclic(t) && x in t && n >= 1 && Up(t, m, n) == Some(x)
    ensures Below(Repoint(t, x, m), m, x)
  {
    var t' := Repoint(t, x, m);
    forall k: nat | k < n && Up(t, m, k).Some?
      ensures Up(t, m, k) != Some(x)
    {
      if Up(t, m, k) == Some(x) {
        UpAdd(t, m, k, n - k);
        assert Below(t, x, x);
      }
    }
    SameUntil(t, x, m, n);
    assert Up(t', m, n) == Some(x);
  }

  lemma {:induction false} SameUntil(t: Table, x: Id, m: Id, n: nat)
    requires x in t
    requires forall k: nat :: k < n ==> Up(t, m, k) != Some(x)
    ensures Up(Repoint(t, x, m), m, n) == Up(t, m, n)
  {
    if n != 0 {
      SameUntil(t, x, m, n - 1);
    }
  }
}
