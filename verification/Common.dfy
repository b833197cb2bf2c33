/** Small shared vocabulary: optional values, duplicate-free sequences, finite sums. */
module Common {

  datatype Option<+T> = None | Some(value: T)

  /** No element occurs at two positions. */
  ghost predicate NoDup<T>(s: seq<T>) {
    forall i, j :: 0 <= i < j < |s| ==> s[i] != s[j]
  }

  /** The elements of a sequence, as a set. */
  ghost function Elems<T>(s: seq<T>): set<T> {
    set x | x in s
  }

  lemma NoDupAppend<T>(s: seq<T>, x: T)
    requires NoDup(s) && x !in s
    ensures NoDup(s + [x])
    ensures Elems(s + [x]) == Elems(s) + {x}
  {
  }

  lemma SubsetCard<T>(a: set<T>, b: set<T>)
    requires a <= b
    ensures |a| <= |b|
    decreases a
  {
    if a != {} {
      var x :| x in a;
      SubsetCard(a - {x}, b - {x});
    }
  }

  /** Sum of the values of a finite map. */
  ghost function Total<K>(m: map<K, int>): int
    decreases m.Keys
  {
    if m.Keys == {} then 0
    else
      var k :| k in m.Keys;
      m[k] + Total(m - {k})
  }

  /** Any key may be split off the sum, not only the one the definition picks. */
  lemma {:induction false} TotalSplit<K>(m: map<K, int>, k: K)
    requires k in m
    ensures Total(m) == m[k] + Total(m - {k})
    decreases m.Keys
  {
    var p :| p in m.Keys && Total(m) == m[p] + Total(m - {p});
    if p != k {
      TotalSplit(m - {p}, k);
      TotalSplit(m - {k}, p);
      assert m - {p} - {k} == m - {k} - {p};
    }
  }

  lemma TotalUpdate<K>(m: map<K, int>, k: K, v: int)
    ensures Total(m[k := v]) == Total(m) - (if k in m then m[k] else 0) + v
  {
    var m' := m[k := v];
    TotalSplit(m', k);
    if k in m {
      TotalSplit(m, k);
      assert m' - {k} == m - {k};
    } else {
      assert m' - {k} == m;
    }
  }

  lemma TotalRemove<K>(m: map<K, int>, k: K)
    ensures Total(m - {k}) == Total(m) - (if k in m then m[k] else 0)
  {
    if k in m {
      TotalSplit(m, k);
    } else {
      assert m - {k} == m;
    }
  }

  /** A part of a map with smaller values, and nothing negative left out, sums to no more than the whole. */
  lemma {:induction false} TotalMonotone<K>(a: map<K, int>, b: map<K, int>)
    requires a.Keys <= b.Keys
    requires forall k :: k in a ==> a[k] <= b[k]
    requires forall k :: k in b && k !in a ==> b[k] >= 0
    ensures Total(a) <= Total(b)
    decreases b.Keys
  {
    if b.Keys != {} {
      var k :| k in b.Keys;
      TotalSplit(b, k);
      if k in a {
        TotalSplit(a, k);
        TotalMonotone(a - {k}, b - {k});
      } else {
        TotalMonotone(a, b - {k});
      }
    }
  }

  lemma TotalNonNegative<K>(m: map<K, int>)
    requires forall k :: k in m ==> m[k] >= 0
    ensures Total(m) >= 0
    ensures forall k :: k in m ==> m[k] <= Total(m)
  {
    TotalMonotone(map[], m);
    forall k | k in m
      ensures m[k] <= Total(m)
    {
      TotalSplit(m, k);
      TotalMonotone(map[], m - {k});
    }
  }

  lemma ConcatSnoc<T>(a: seq<T>, b: seq<T>, x: T)
    ensures a + (b + [x]) == a + b + [x]
  {
  }

  /** How often x occurs in s. */
  ghost function Count<T>(s: seq<T>, x: T): nat {
    if s == [] then 0 else (if s[|s| - 1] == x then 1 else 0) + Count(s[..|s| - 1], x)
  }

  lemma CountSnoc<T>(s: seq<T>, y: T, x: T)
    ensures Count(s + [y], x) == Count(s, x) + (if x == y then 1 else 0)
  {
    assert (s + [y])[..|s|] == s;
  }

  // ------------------------------------------------------------ ordering by time

  /** No key of the set has an earlier time. */
  predicate NoneEarlier<K(==)>(times: map<K, int>, keys: set<K>, k: K) {
    k in times && forall other :: other in keys && other in times ==> times[k] <= times[other]
  }

  ghost predicate EarliestFirst<K>(times: map<K, int>, keys: seq<K>) {
    forall i, j :: 0 <= i < j < |keys| && keys[i] in times && keys[j] in times ==> times[keys[i]] <= times[keys[j]]
  }

  lemma EarliestExists<K>(times: map<K, int>, keys: set<K>)
    requires keys != {} && keys <= times.Keys
    ensures exists k :: k in keys && NoneEarlier(times, keys, k)
    decreases keys
  {
    var some :| some in keys;
    if keys == {some} {
      assert NoneEarlier(times, keys, some);
    } else {
      var rest := keys - {some};
      assert rest != {};
      EarliestExists(times, rest);
      var k :| k in rest && NoneEarlier(times, rest, k);
      assert NoneEarlier(times, keys, if times[some] <= times[k] then some else k);
    }
  }

  /** The keys in an order in which no time comes before an earlier one. */
  method SortedByTime<K(==)>(times: map<K, int>) returns (keys: seq<K>)
    ensures NoDup(keys) && EarliestFirst(times, keys)
    ensures forall k :: k in keys <==> k in times
  {
    keys := [];
    var todo := times.Keys;
    while todo != {}
      invariant NoDup(keys) && todo <= times.Keys && forall k :: k in keys <==> k in times && k !in todo
      invariant forall k :: k in keys ==> NoneEarlier(times, todo, k)
      invariant EarliestFirst(times, keys)
      decreases todo
    {
      EarliestExists(times, todo);
      var k :| k in todo && NoneEarlier(times, todo, k);
      NoDupAppend(keys, k);
      keys, todo := keys + [k], todo - {k};
    }
  }

  // ------------------------------------------------------------ adding up along a run

  /** The sum of what each step of a run contributes, in the state it starts from. */
  ghost function Along<W, O>(ws: seq<W>, ops: seq<O>, part: (W, O) -> int): int
    requires |ws| >= |ops|
    decreases |ops|
  {
    if ops == [] then 0
    else
      var n := |ops| - 1;
      Along(ws[..|ops|], ops[..n], part) + part(ws[n], ops[n])
  }

  ghost function UnionAlong<W, O, T>(ws: seq<W>, ops: seq<O>, part: (W, O) -> set<T>): set<T>
    requires |ws| >= |ops|
    decreases |ops|
  {
    if ops == [] then {}
    else
      var n := |ops| - 1;
      UnionAlong(ws[..|ops|], ops[..n], part) + part(ws[n], ops[n])
  }

  /** What grows in each step by its part at most, or by just that, grows over the run by the sum. */
  lemma {:induction false} AddsUp<W, O>(ws: seq<W>, ops: seq<O>, value: W -> int, part: (W, O) -> int)
    requires |ws| == |ops| + 1
    requires forall i :: 0 <= i < |ops| ==> value(ws[i + 1]) <= value(ws[i]) + part(ws[i], ops[i])
    ensures value(ws[|ops|]) <= value(ws[0]) + Along(ws, ops, part)
    ensures (forall i :: 0 <= i < |ops| ==> value(ws[i + 1]) == value(ws[i]) + part(ws[i], ops[i])) ==>
              value(ws[|ops|]) == value(ws[0]) + Along(ws, ops, part)
    decreases |ops|
  {
    if ops != [] {
      var n := |ops| - 1;
      AddsUp(ws[..|ops|], ops[..n], value, part);
      assert ws[..|ops|][n] == ws[n] && ws[..|ops|][0] == ws[0];
    }
  }

  lemma {:induction false} UnitesUp<W, O, T>(ws: seq<W>, ops: seq<O>, value: W -> set<T>, part: (W, O) -> set<T>)
    requires |ws| == |ops| + 1
    requires forall i :: 0 <= i < |ops| ==> value(ws[i + 1]) == value(ws[i]) + part(ws[i], ops[i])
    ensures value(ws[|ops|]) == value(ws[0]) + UnionAlong(ws, ops, part)
    decreases |ops|
  {
    if ops != [] {
      var n := |ops| - 1;
      UnitesUp(ws[..|ops|], ops[..n], value, part);
      assert ws[..|ops|][n] == ws[n] && ws[..|ops|][0] == ws[0];
    }
  }

  lemma {:induction false} AlongMonotone<W, O>(ws: seq<W>, ops: seq<O>, a: (W, O) -> int, b: (W, O) -> int)
    requires |ws| >= |ops|
    requires forall i :: 0 <= i < |ops| ==> a(ws[i], ops[i]) <= b(ws[i], ops[i])
    ensures Along(ws, ops, a) <= Along(ws, ops, b)
    decreases |ops|
  {
    if ops != [] {
      AlongMonotone(ws[..|ops|], ops[..|ops| - 1], a, b);
    }
  }
}
