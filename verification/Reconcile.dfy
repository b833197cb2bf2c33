/** Bringing a detector's findings in line with what it reports (modules/efficiency/service.py, _reconcile). */
module Reconciliation {
  import opened Common
  import opened Findings

  /** The keys a detector reports; candidates of other detectors are ignored. */
  function Firing(code: string, cs: seq<Candidate>): set<Key> {
    set c | c in cs && c.key.detector == code :: c.key
  }

  function LiveKeys(rows: seq<Finding>, code: string): set<Key> {
    set f | f in rows && Live(f) && f.key.detector == code :: f.key
  }

  /** The finding of a key after those candidates: the first opens it if it was not there, the others refresh it. */
  function Told(start: Option<Finding>, key: Key, cs: seq<Candidate>): (r: Option<Finding>)
    requires start.Some? ==> start.value.key == key
    ensures r.Some? ==> r.value.key == key && r.value.status == if start.Some? then start.value.status else OPEN
    ensures r.None? <==> start.None? && forall c :: c in cs ==> c.key != key
    decreases |cs|
  {
    if cs == [] then start
    else
      var c, before := cs[|cs| - 1], Told(start, key, cs[..|cs| - 1]);
      assert cs == cs[..|cs| - 1] + [c];
      if c.key != key then before
      else if before.None? then Some(NewFinding(c))
      else Some(Refreshed(before.value, c))
  }

  lemma ToldSnoc(start: Option<Finding>, key: Key, cs: seq<Candidate>, c: Candidate)
    requires start.Some? ==> start.value.key == key
    ensures
      var before := Told(start, key, cs);
      Told(start, key, cs + [c]) == (
        if c.key != key then before
        else if before.None? then Some(NewFinding(c))
        else Some(Refreshed(before.value, c)))
  {
    assert (cs + [c])[..|cs|] == cs;
  }

  /** What an earlier finding of the table looks like once the candidates were heard. */
  predicate KeptRow(was: Finding, now: Finding, code: string, cs: seq<Candidate>) {
    if Live(was) && was.key.detector == code then Told(Some(was), was.key, cs) == Some(now) else now == was
  }

  /** A row opened for the candidates. */
  ghost predicate NewRow(rows0: seq<Finding>, now: Finding, code: string, cs: seq<Candidate>) {
    && now.key.detector == code && Told(None, now.key, cs) == Some(now)
    && forall id: Id :: !LiveAt(rows0, id, now.key)
  }

  ghost predicate Heard(rows0: seq<Finding>, rows: seq<Finding>, code: string, cs: seq<Candidate>) {
    && |rows0| <= |rows|
    && (forall id: Id :: id < |rows0| ==> KeptRow(rows0[id], rows[id], code, cs))
    && (forall id: Id :: |rows0| <= id < |rows| ==> NewRow(rows0, rows[id], code, cs))
    && (forall c :: c in cs && c.key.detector == code ==> exists id: Id :: LiveAt(rows, id, c.key))
  }

  /** Hearing one candidate more, about this detector or another. */
  lemma HearOne(rows0: seq<Finding>, b: Board, code: string, cs: seq<Candidate>, c: Candidate, b': Board)
    requires BoardOk(b) && Heard(rows0, b.rows, code, cs)
    requires if c.key.detector == code then Upserted(b, c, b') else b' == b
    ensures Heard(rows0, b'.rows, code, cs + [c])
  {
    forall id: Id | id < |rows0|
      ensures KeptRow(rows0[id], b'.rows[id], code, cs + [c])
    {
      ToldSnoc(Some(rows0[id]), rows0[id].key, cs, c);
      SameRow(b, c, b', id, code);
    }
    forall id: Id | |rows0| <= id < |b'.rows|
      ensures NewRow(rows0, b'.rows[id], code, cs + [c])
    {
      ToldSnoc(None, b'.rows[id].key, cs, c);
      if id < |b.rows| {
        SameRow(b, c, b', id, code);
      } else {
        NothingHeard(rows0, b.rows, code, cs, c);
      }
    }
    forall d | d in cs + [c] && d.key.detector == code
      ensures exists id: Id :: LiveAt(b'.rows, id, d.key)
    {
      if d in cs {
        var id: Id :| LiveAt(b.rows, id, d.key);
        SameRow(b, c, b', id, code);
        assert LiveAt(b'.rows, id, d.key);
      } else {
        UpsertedIsLive(b, c, b');
      }
    }
  }

  lemma UpsertedIsLive(b: Board, c: Candidate, b': Board)
    requires Upserted(b, c, b')
    ensures exists id: Id :: LiveAt(b'.rows, id, c.key)
  {
    if b' == Open(b, c) {
      assert LiveAt(b'.rows, |b.rows|, c.key);
    } else {
      var id: Id :| LiveAt(b.rows, id, c.key) && b' == Refresh(b, id, c);
      assert LiveAt(b'.rows, id, c.key);
    }
  }

  /** An earlier row is refreshed if it is the live one of the candidate's key, and stays as it is otherwise. */
  lemma SameRow(b: Board, c: Candidate, b': Board, id: Id, code: string)
    requires BoardOk(b) && id < |b.rows|
    requires if c.key.detector == code then Upserted(b, c, b') else b' == b
    ensures |b.rows| <= |b'.rows|
    ensures b'.rows[id] == (
      if Live(b.rows[id]) && b.rows[id].key == c.key && c.key.detector == code then Refreshed(b.rows[id], c)
      else b.rows[id])
  {
    if c.key.detector == code && LiveAt(b.rows, id, c.key) {
      var at: Id :| LiveAt(b.rows, at, c.key) && b' == Refresh(b, at, c);
      assert at == id;
    }
  }

  /** Where a key has no live finding, none was there before and no candidate heard has it. */
  lemma NothingHeard(rows0: seq<Finding>, rows: seq<Finding>, code: string, cs: seq<Candidate>, c: Candidate)
    requires Heard(rows0, rows, code, cs) && c.key.detector == code
    requires forall id: Id :: !LiveAt(rows, id, c.key)
    ensures Told(None, c.key, cs).None?
    ensures forall id: Id :: !LiveAt(rows0, id, c.key)
  {
    forall id: Id | LiveAt(rows0, id, c.key)
      ensures false
    {
      assert KeptRow(rows0[id], rows[id], code, cs);
      assert LiveAt(rows, id, c.key);
    }
  }

  // ------------------------------------------------------------ what the log gains

  function OpenedEvents(rows: seq<Finding>, from: nat): seq<Event> {
    if |rows| <= from then []
    else OpenedEvents(rows[..|rows| - 1], from) + [Opened(|rows| - 1, rows[|rows| - 1].key)]
  }

  function ClosedEvents(ids: seq<Id>, code: string): seq<Event> {
    if ids == [] then [] else ClosedEvents(ids[..|ids| - 1], code) + [Closed(ids[|ids| - 1], code, false)]
  }

  lemma {:induction false} OpenedByKeys(rows: seq<Finding>, rows': seq<Finding>, from: nat)
    requires |rows| == |rows'| && forall i :: 0 <= i < |rows| ==> rows[i].key == rows'[i].key
    ensures OpenedEvents(rows, from) == OpenedEvents(rows', from)
  {
    if |rows| > from {
      OpenedByKeys(rows[..|rows| - 1], rows'[..|rows| - 1], from);
    }
  }

  lemma OpenedSnoc(rows: seq<Finding>, f: Finding, from: nat)
    requires from <= |rows|
    ensures OpenedEvents(rows + [f], from) == OpenedEvents(rows, from) + [Opened(|rows|, f.key)]
  {
    assert (rows + [f])[..|rows|] == rows;
  }

  // ------------------------------------------------------------ the result

  /** The ids a reconciliation closes: live before, of this detector, not firing. */
  ghost predicate Stale(rows0: seq<Finding>, id: Id, code: string, cs: seq<Candidate>) {
    id < |rows0| && Live(rows0[id]) && rows0[id].key.detector == code && rows0[id].key !in Firing(code, cs)
  }

  /** Every row after a reconciliation, from the row before. */
  ghost predicate Settled(rows0: seq<Finding>, rows: seq<Finding>, code: string, cs: seq<Candidate>) {
    && |rows0| <= |rows|
    && (forall id: Id :: id < |rows0| ==>
          if Stale(rows0, id, code, cs) then rows[id] == rows0[id].(status := CLOSED)
          else KeptRow(rows0[id], rows[id], code, cs))
    && (forall id: Id :: |rows0| <= id < |rows| ==> NewRow(rows0, rows[id], code, cs))
  }

  /** The detector's rows that do not fire are closed, after the candidates were heard. */
  ghost predicate Swept(rows1: seq<Finding>, rows: seq<Finding>, code: string, firing: set<Key>) {
    && |rows| == |rows1|
    && forall id: Id :: id < |rows1| ==>
         rows[id] == if Live(rows1[id]) && rows1[id].key.detector == code && rows1[id].key !in firing
                     then rows1[id].(status := CLOSED) else rows1[id]
  }

  lemma SweptIsSettled(rows0: seq<Finding>, rows1: seq<Finding>, rows: seq<Finding>, code: string, cs: seq<Candidate>)
    requires Heard(rows0, rows1, code, cs) && Swept(rows1, rows, code, Firing(code, cs))
    ensures Settled(rows0, rows, code, cs)
    ensures LiveKeys(rows, code) == Firing(code, cs)
  {
    forall id: Id | id < |rows0|
      ensures
        if Stale(rows0, id, code, cs) then rows[id] == rows0[id].(status := CLOSED)
        else KeptRow(rows0[id], rows[id], code, cs)
    {
      assert KeptRow(rows0[id], rows1[id], code, cs);
      if Stale(rows0, id, code, cs) {
        Unheard(Some(rows0[id]), rows0[id].key, cs);
      }
    }
    forall id: Id | |rows0| <= id < |rows|
      ensures NewRow(rows0, rows[id], code, cs)
    {
      assert NewRow(rows0, rows1[id], code, cs);
    }
    forall key | key in Firing(code, cs)
      ensures key in LiveKeys(rows, code)
    {
      var c :| c in cs && c.key.detector == code && c.key == key;
      var id: Id :| LiveAt(rows1, id, c.key);
      assert rows[id] == rows1[id] && rows[id] in rows;
    }
    forall key | key in LiveKeys(rows, code)
      ensures key in Firing(code, cs)
    {
      var f :| f in rows && Live(f) && f.key.detector == code && f.key == key;
      var id: Id :| id < |rows| && rows[id] == f;
      assert Live(rows1[id]);
    }
  }

  lemma {:induction false} Unheard(start: Option<Finding>, key: Key, cs: seq<Candidate>)
    requires start.Some? ==> start.value.key == key
    requires forall c :: c in cs ==> c.key != key
    ensures Told(start, key, cs) == start
    decreases |cs|
  {
    if cs != [] {
      assert cs == cs[..|cs| - 1] + [cs[|cs| - 1]];
      Unheard(start, key, cs[..|cs| - 1]);
    }
  }

  lemma FiringSnoc(code: string, cs: seq<Candidate>, c: Candidate)
    ensures Firing(code, cs + [c]) == Firing(code, cs) + if c.key.detector == code then {c.key} else {}
  {
  }

  lemma GainsOpened(b0: Board, b: Board, c: Candidate, b': Board)
    requires |b0.rows| <= |b.rows| && b.events == b0.events + OpenedEvents(b.rows, |b0.rows|)
    requires Upserted(b, c, b')
    ensures b'.events == b0.events + OpenedEvents(b'.rows, |b0.rows|)
  {
    if b' == Open(b, c) {
      OpenedSnoc(b.rows, NewFinding(c), |b0.rows|);
      ConcatSnoc(b0.events, OpenedEvents(b.rows, |b0.rows|), Opened(|b.rows|, c.key));
    } else {
      OpenedByKeys(b.rows, b'.rows, |b0.rows|);
    }
  }

  lemma HeardEvolves(b0: Board, b: Board, code: string, cs: seq<Candidate>)
    requires Heard(b0.rows, b.rows, code, cs) && b0.events <= b.events
    ensures Evolves(b0, b)
  {
    forall id: Id | id < |b0.rows|
      ensures b.rows[id].key == b0.rows[id].key && (!Live(b0.rows[id]) ==> b.rows[id] == b0.rows[id])
    {
      assert KeptRow(b0.rows[id], b.rows[id], code, cs);
    }
  }

  /** The findings of stale, and no others, have been closed. */
  ghost predicate ClosedFrom(b: Board, stale: seq<Id>, code: string, b': Board) {
    && |b'.rows| == |b.rows|
    && (forall id: Id :: id < |b.rows| ==> b'.rows[id] == if id in stale then b.rows[id].(status := CLOSED) else b.rows[id])
    && b'.events == b.events + ClosedEvents(stale, code)
  }

  lemma ClosedOneMore(b: Board, stale: seq<Id>, code: string, b1: Board, id: Id)
    requires ClosedFrom(b, stale, code, b1) && id < |b.rows| && id !in stale && b.rows[id].key.detector == code
    ensures ClosedFrom(b, stale + [id], code, AutoClose(b1, id))
  {
    assert (stale + [id])[..|stale|] == stale;
    ConcatSnoc(b.events, ClosedEvents(stale, code), Closed(id, code, false));
  }

  ghost predicate OpenedInOrder(rows: seq<Finding>, ids: seq<Id>) {
    forall i, j :: 0 <= i < j < |ids| && ids[i] < |rows| && ids[j] < |rows| ==> rows[ids[i]].openedAt <= rows[ids[j]].openedAt
  }

  /** The store of findings together with the service that drives it. */
  class Efficiency {
    var rows: seq<Finding>
    var events: seq<Event>

    ghost function Contents(): Board
      reads this
    {
      Board(rows, events)
    }

    ghost predicate Valid()
      reads this
    {
      BoardOk(Contents())
    }

    constructor ()
      ensures Valid() && rows == [] && events == []
    {
      rows, events := [], [];
    }

    method FindOpen(key: Key) returns (r: Option<Id>)
      ensures r.Some? ==> r.value < |rows| && rows[r.value].status != CLOSED && rows[r.value].key == key
      ensures r.None? ==> forall f :: f in rows && f.status != CLOSED ==> f.key != key
    {
      for id := 0 to |rows|
        invariant forall i: Id :: i < id && rows[i].status != CLOSED ==> rows[i].key != key
      {
        if rows[id].status != CLOSED && rows[id].key == key {
          return Some(id);
        }
      }
      r := None;
    }

    /** The detector's live findings, in the order of their opening. */
    method ListOpen(code: string) returns (ids: seq<Id>)
      ensures NoDup(ids)
      ensures forall id: Id :: id in ids <==> id < |rows| && Live(rows[id]) && rows[id].key.detector == code
      ensures OpenedInOrder(rows, ids)
    {
      var times := map id: Id | id < |rows| && rows[id].status != CLOSED && rows[id].key.detector == code :: rows[id].openedAt;
      ids := SortedByTime(times);
    }

    /** The candidate's finding is refreshed, or opened and announced. */
    method Upsert(c: Candidate) returns (id: Id, isNew: bool)
      requires Valid()
      modifies this
      ensures Upserted(old(Contents()), c, Contents()) && Valid() && Evolves(old(Contents()), Contents())
      ensures LiveAt(rows, id, c.key) && (isNew <==> |rows| > |old(rows)|)
      ensures events == old(events) + if isNew then [Opened(id, c.key)] else []
      ensures isNew ==> id == |old(rows)|
    {
      ghost var b := Contents();
      var existing := FindOpen(c.key);
      if existing.Some? {
        id, isNew := existing.value, false;
        var f := rows[id];
        rows := rows[id := f.(
          occurrences := f.occurrences + 1, lastSeen := c.at, evidence := c.evidence, severity := c.severity,
          recommendation := if c.recommendation.Some? then c.recommendation else f.recommendation)];
        assert LiveAt(b.rows, id, c.key) && Contents() == Refresh(b, id, c);
      } else {
        id, isNew := |rows|, true;
        rows := rows + [Finding(c.key, c.severity, c.evidence, c.recommendation, 1, OPEN, c.at, c.at)];
        events := events + [Opened(id, c.key)];
      }
      StepKeepsBoard(b, OpUpsert(c), Contents());
    }

    /** A live finding ends because nothing fires for it any more. */
    method Resolve(id: Id)
      requires Valid() && id < |rows| && Live(rows[id])
      modifies this
      ensures Contents() == AutoClose(old(Contents()), id) && Valid() && Evolves(old(Contents()), Contents())
    {
      StepKeepsBoard(Contents(), OpAutoClose(id), AutoClose(Contents(), id));
      rows := rows[id := rows[id].(status := CLOSED)];
      events := events + [Closed(id, rows[id].key.detector, false)];
    }

    method Acknowledge(id: Id) returns (ok: bool)
      requires Valid()
      modifies this
      ensures Contents() == Findings.Acknowledge(old(Contents()), id) && Valid() && Evolves(old(Contents()), Contents())
      ensures ok <==> id < |old(rows)| && Live(old(rows)[id])
    {
      StepKeepsBoard(Contents(), OpAcknowledge(id), Findings.Acknowledge(Contents(), id));
      if id >= |rows| || rows[id].status == CLOSED {
        return false;
      }
      rows := rows[id := rows[id].(status := ACKNOWLEDGED)];
      ok := true;
    }

    method Close(id: Id) returns (found: bool)
      requires Valid()
      modifies this
      ensures Contents() == ManualClose(old(Contents()), id) && Valid() && Evolves(old(Contents()), Contents())
      ensures found <==> id < |old(rows)|
    {
      StepKeepsBoard(Contents(), OpManualClose(id), ManualClose(Contents(), id));
      if id >= |rows| {
        return false;
      }
      if rows[id].status != CLOSED {
        rows := rows[id := rows[id].(status := CLOSED)];
      }
      events := events + [Closed(id, rows[id].key.detector, true)];
      found := true;
    }

    /**
     Afterwards the live findings of the detector are exactly those of the keys it reports. Live findings of
     keys still reported were refreshed by each candidate in turn, those of other keys closed, keys without
     one opened; all else, other detectors' findings included, is as it was; and the log gained one event
     per opening and per closing.
     */
    method Reconcile(code: string, candidates: seq<Candidate>) returns (ghost stale: seq<Id>)
      requires Valid()
      modifies this
      ensures Valid() && Evolves(old(Contents()), Contents())
      ensures LiveKeys(rows, code) == Firing(code, candidates)
      ensures Settled(old(rows), rows, code, candidates)
      ensures NoDup(stale) && forall id: Id :: id in stale <==> Stale(old(rows), id, code, candidates)
      ensures events == old(events) + OpenedEvents(rows, |old(rows)|) + ClosedEvents(stale, code)
    {
      var firing := HearAll(code, candidates);
      label heard:
      stale := Sweep(code, firing);
      SweptIsSettled(old(rows), old@heard(rows), rows, code, candidates);
      OpenedByKeys(old@heard(rows), rows, |old(rows)|);
    }

    method HearAll(code: string, candidates: seq<Candidate>) returns (firing: set<Key>)
      requires Valid()
      modifies this
      ensures Valid() && Evolves(old(Contents()), Contents())
      ensures Heard(old(rows), rows, code, candidates) && firing == Firing(code, candidates)
      ensures events == old(events) + OpenedEvents(rows, |old(rows)|)
    {
      firing := {};
      ghost var b0 := Contents();
      for i := 0 to |candidates|
        invariant Valid() && Heard(b0.rows, rows, code, candidates[..i])
        invariant firing == Firing(code, candidates[..i])
        invariant events == b0.events + OpenedEvents(rows, |b0.rows|)
      {
        ghost var b := Contents();
        var c := candidates[i];
        assert candidates[..i + 1] == candidates[..i] + [c];
        FiringSnoc(code, candidates[..i], c);
        if c.key.detector == code {
          firing := firing + {c.key};
          var id, isNew := Upsert(c);
          GainsOpened(b0, b, c, Contents());
        }
        HearOne(b0.rows, b, code, candidates[..i], c, Contents());
      }
      assert candidates[..|candidates|] == candidates;
      HeardEvolves(b0, Contents(), code, candidates);
    }

    method Sweep(code: string, firing: set<Key>) returns (ghost stale: seq<Id>)
      requires Valid()
      modifies this
      ensures Valid() && Evolves(old(Contents()), Contents())
      ensures Swept(old(rows), rows, code, firing)
      ensures NoDup(stale)
      ensures forall id: Id :: id in stale <==>
                id < |rows| && Live(old(rows)[id]) && old(rows)[id].key.detector == code && old(rows)[id].key !in firing
      ensures events == old(events) + ClosedEvents(stale, code)
    {
      stale := [];
      ghost var b := Contents();
      var live := ListOpen(code);
      for i := 0 to |live|
        invariant Valid() && ClosedFrom(b, stale, code, Contents())
        invariant NoDup(stale)
        invariant forall id: Id :: id in stale <==> id in live[..i] && id < |b.rows| && b.rows[id].key !in firing
      {
        var id := live[i];
        assert live[..i + 1] == live[..i] + [id] && id in live && id !in live[..i];
        if rows[id].key !in firing {
          ghost var before := Contents();
          Resolve(id);
          ClosedOneMore(b, stale, code, before, id);
          stale := stale + [id];
        }
      }
      assert live[..|live|] == live;
    }
  }
}
