/** What a finding shows after its detector was heard (modules/efficiency/store.py, service.py). */
module FindingOutcomes {
  import opened Common
  import opened Findings
  import opened Reconciliation

  /**
   Where each key has at most one live finding: a candidate of a key that has one can only refresh it, with one
   occurrence more and what the candidate says; any other opens one, that counts one occurrence and is announced.
   */
  lemma UpsertIs(b: Board, c: Candidate, b': Board, id: Id)
    requires OneLivePerKey(b.rows)
    ensures id < |b.rows| && b.rows[id].status != CLOSED && b.rows[id].key == c.key ==> (
              Upserted(b, c, b') <==>
              b' == Board(
                b.rows[id := Finding(
                  c.key, c.severity, c.evidence, if c.recommendation.Some? then c.recommendation else b.rows[id].recommendation,
                  b.rows[id].occurrences + 1, b.rows[id].status, b.rows[id].openedAt, c.at)],
                b.events))
    ensures (forall f :: f in b.rows && f.status != CLOSED ==> f.key != c.key) ==> (
              Upserted(b, c, b') <==>
              b' == Board(
                b.rows + [Finding(c.key, c.severity, c.evidence, c.recommendation, 1, OPEN, c.at, c.at)],
                b.events + [Opened(|b.rows|, c.key)]))
  {
    if LiveAt(b.rows, id, c.key) {
      assert forall i: Id :: LiveAt(b.rows, i, c.key) ==> i == id;
    } else if forall f :: f in b.rows && f.status != CLOSED ==> f.key != c.key {
      assert forall i: Id :: i < |b.rows| ==> b.rows[i] in b.rows;
    }
  }

  /** Acknowledging marks a live finding and announces nothing; closing by hand ends any finding and announces it, even once more. */
  lemma ByHandIs(b: Board, id: Id)
    ensures
      Acknowledge(b, id) ==
      if id < |b.rows| && b.rows[id].status != CLOSED then Board(b.rows[id := b.rows[id].(status := ACKNOWLEDGED)], b.events) else b
    ensures
      ManualClose(b, id) ==
      if id < |b.rows| then
        Board(b.rows[id := b.rows[id].(status := CLOSED)], b.events + [Closed(id, b.rows[id].key.detector, true)])
      else b
  {
  }

  /** How many of the candidates are about that key. */
  function About(cs: seq<Candidate>, key: Key): nat {
    if cs == [] then 0 else About(cs[..|cs| - 1], key) + if cs[|cs| - 1].key == key then 1 else 0
  }

  /** The last candidate about that key. */
  function Last(cs: seq<Candidate>, key: Key): (c: Candidate)
    requires About(cs, key) > 0
    ensures c in cs && c.key == key
  {
    if cs[|cs| - 1].key == key then cs[|cs| - 1] else Last(cs[..|cs| - 1], key)
  }

  /** The last recommendation that a candidate about that key made, if any did. */
  function LastAdvice(cs: seq<Candidate>, key: Key): Option<string> {
    if cs == [] then None
    else if cs[|cs| - 1].key == key && cs[|cs| - 1].recommendation.Some? then cs[|cs| - 1].recommendation
    else LastAdvice(cs[..|cs| - 1], key)
  }

  /** The first candidate about that key. */
  function First(cs: seq<Candidate>, key: Key): (c: Candidate)
    requires About(cs, key) > 0
    ensures c in cs && c.key == key
  {
    if About(cs[..|cs| - 1], key) > 0 then First(cs[..|cs| - 1], key) else cs[|cs| - 1]
  }

  /**
   A finding that was heard of shows what the last candidate about it said and when, the last recommendation anybody
   made, and one occurrence more for each of them; its opening and whether it was acknowledged stay.
   */
  lemma {:induction false} HeardOf(was: Finding, cs: seq<Candidate>)
    requires About(cs, was.key) > 0
    ensures
      var now := Told(Some(was), was.key, cs);
      && now.Some? && now.value.key == was.key && now.value.status == was.status && now.value.openedAt == was.openedAt
      && now.value.severity == Last(cs, was.key).severity && now.value.evidence == Last(cs, was.key).evidence
      && now.value.lastSeen == Last(cs, was.key).at
      && now.value.occurrences == was.occurrences + About(cs, was.key)
      && now.value.recommendation == (if LastAdvice(cs, was.key).Some? then LastAdvice(cs, was.key) else was.recommendation)
    decreases |cs|
  {
    var front, c := cs[..|cs| - 1], cs[|cs| - 1];
    assert cs == front + [c];
    ToldSnoc(Some(was), was.key, front, c);
    if About(front, was.key) > 0 {
      HeardOf(was, front);
    } else {
      NotHeardOf(Some(was), was.key, front);
    }
  }

  /** A finding that was opened shows the same of the candidates about it, opened by the first of them. */
  lemma {:induction false} OpenedFor(key: Key, cs: seq<Candidate>)
    requires About(cs, key) > 0
    ensures
      var now := Told(None, key, cs);
      && now.Some? && now.value.key == key && now.value.status == OPEN && now.value.openedAt == First(cs, key).at
      && now.value.severity == Last(cs, key).severity && now.value.evidence == Last(cs, key).evidence
      && now.value.lastSeen == Last(cs, key).at
      && now.value.occurrences == About(cs, key)
      && now.value.recommendation == LastAdvice(cs, key)
    decreases |cs|
  {
    var front, c := cs[..|cs| - 1], cs[|cs| - 1];
    assert cs == front + [c];
    ToldSnoc(None, key, front, c);
    if About(front, key) > 0 {
      OpenedFor(key, front);
    } else {
      NotHeardOf(None, key, front);
    }
  }

  lemma {:induction false} NotHeardOf(start: Option<Finding>, key: Key, cs: seq<Candidate>)
    requires About(cs, key) == 0 && (start.Some? ==> start.value.key == key)
    ensures Told(start, key, cs) == start && LastAdvice(cs, key) == None
    decreases |cs|
  {
    if cs != [] {
      NotHeardOf(start, key, cs[..|cs| - 1]);
    }
  }

  lemma {:induction false} AboutIff(cs: seq<Candidate>, key: Key)
    ensures About(cs, key) > 0 <==> exists c :: c in cs && c.key == key
    decreases |cs|
  {
    if cs != [] {
      AboutIff(cs[..|cs| - 1], key);
      assert cs == cs[..|cs| - 1] + [cs[|cs| - 1]];
    }
  }

  /** A reconciliation closes exactly the findings of its detector that are not closed yet and that no candidate is about. */
  lemma ClosedIffSilent(rows0: seq<Finding>, rows: seq<Finding>, code: string, cs: seq<Candidate>, id: Id)
    requires Settled(rows0, rows, code, cs) && id < |rows0|
    ensures
      var was, silent := rows0[id], forall c :: c in cs ==> c.key != rows0[id].key;
      && (Stale(rows0, id, code, cs) <==> was.status != CLOSED && was.key.detector == code && silent)
      && (rows[id].status == CLOSED <==> was.status == CLOSED || (was.key.detector == code && silent))
      && (was.status == CLOSED || was.key.detector != code ==> rows[id] == was)
  {
    assert if Stale(rows0, id, code, cs) then rows[id] == rows0[id].(status := CLOSED) else KeptRow(rows0[id], rows[id], code, cs);
  }

  /**
   After a reconciliation, every live finding of the detector shows severity and evidence of the last candidate of
   its key, and counts one occurrence for each of them on top of what it counted before.
   */
  lemma ReconciledShowsLast(rows0: seq<Finding>, rows: seq<Finding>, code: string, cs: seq<Candidate>, id: Id)
    requires Settled(rows0, rows, code, cs) && LiveKeys(rows, code) == Firing(code, cs)
    requires id < |rows| && Live(rows[id]) && rows[id].key.detector == code
    ensures About(cs, rows[id].key) > 0
    ensures
      var key, last := rows[id].key, Last(cs, rows[id].key);
      && rows[id].severity == last.severity && rows[id].evidence == last.evidence && rows[id].lastSeen == last.at
      && rows[id].occurrences == (if id < |rows0| then rows0[id].occurrences else 0) + About(cs, key)
      && (id < |rows0| ==> Live(rows0[id]) && key == rows0[id].key && rows[id].openedAt == rows0[id].openedAt)
      && (id >= |rows0| ==> rows[id].openedAt == First(cs, key).at && rows[id].status == OPEN)
  {
    var f := rows[id];
    assert f in rows && f.key in LiveKeys(rows, code);
    assert f.key in Firing(code, cs);
    AboutIff(cs, f.key);
    if id < |rows0| {
      assert !Stale(rows0, id, code, cs);
      assert KeptRow(rows0[id], rows[id], code, cs);
      assert rows0[id].key == f.key;
      HeardOf(rows0[id], cs);
    } else {
      assert NewRow(rows0, rows[id], code, cs);
      OpenedFor(f.key, cs);
    }
  }
}
