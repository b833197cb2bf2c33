/**
 The findings table of the efficiency service as a value (modules/efficiency/store.py, service.py). A
 finding's id is its place in the table; each step is one transaction of the store with the event that
 the service emits for it.
 */
module Findings {
  import opened Common

  type Id = nat

  datatype Key = Key(detector: string, subjectType: string, subjectId: Option<string>)

  datatype Status = OPEN | ACKNOWLEDGED | CLOSED

  /** What a detector reports, and when it is heard. */
  datatype Candidate = Candidate(key: Key, severity: string, evidence: string, recommendation: Option<string>, at: int)

  datatype Finding = Finding(
    key: Key, severity: string, evidence: string, recommendation: Option<string>, occurrences: nat, status: Status,
    openedAt: int, lastSeen: int)

  datatype Event = Opened(id: Id, key: Key) | Closed(id: Id, detector: string, manual: bool)

  datatype Board = Board(rows: seq<Finding>, events: seq<Event>)

  predicate Live(f: Finding) {
    f.status != CLOSED
  }

  /** id is a live finding of that key. */
  predicate LiveAt(rows: seq<Finding>, id: Id, key: Key) {
    id < |rows| && Live(rows[id]) && rows[id].key == key
  }

  function NewFinding(c: Candidate): Finding {
    Finding(c.key, c.severity, c.evidence, c.recommendation, 1, OPEN, c.at, c.at)
  }

  function Refreshed(f: Finding, c: Candidate): Finding {
    f.(occurrences := f.occurrences + 1, lastSeen := c.at, evidence := c.evidence, severity := c.severity,
       recommendation := if c.recommendation.Some? then c.recommendation else f.recommendation)
  }

  // ------------------------------------------------------------ steps

  function Refresh(b: Board, id: Id, c: Candidate): Board
    requires id < |b.rows|
  {
    b.(rows := b.rows[id := Refreshed(b.rows[id], c)])
  }

  function Open(b: Board, c: Candidate): Board {
    Board(b.rows + [NewFinding(c)], b.events + [Opened(|b.rows|, c.key)])
  }

  /** A candidate refreshes the open finding of its key, whichever the query found, or opens one. */
  ghost predicate Upserted(b: Board, c: Candidate, b': Board) {
    || (exists id: Id :: LiveAt(b.rows, id, c.key) && b' == Refresh(b, id, c))
    || ((forall id: Id :: !LiveAt(b.rows, id, c.key)) && b' == Open(b, c))
  }

  function AutoClose(b: Board, id: Id): Board {
    if id >= |b.rows| then b
    else Board(b.rows[id := b.rows[id].(status := CLOSED)], b.events + [Closed(id, b.rows[id].key.detector, false)])
  }

  function Acknowledge(b: Board, id: Id): Board {
    if id < |b.rows| && Live(b.rows[id]) then b.(rows := b.rows[id := b.rows[id].(status := ACKNOWLEDGED)]) else b
  }

  /** Closing by hand announces a closed finding once more. */
  function ManualClose(b: Board, id: Id): Board {
    if id >= |b.rows| then b
    else Board(b.rows[id := b.rows[id].(status := CLOSED)], b.events + [Closed(id, b.rows[id].key.detector, true)])
  }

  datatype Op = OpUpsert(c: Candidate) | OpAutoClose(id: Id) | OpAcknowledge(id: Id) | OpManualClose(id: Id)

  /** Detectors close only what they find open. */
  ghost predicate Step(b: Board, op: Op, b': Board) {
    match op
    case OpUpsert(c) => Upserted(b, c, b')
    case OpAutoClose(id) => id < |b.rows| && Live(b.rows[id]) && b' == AutoClose(b, id)
    case OpAcknowledge(id) => b' == Acknowledge(b, id)
    case OpManualClose(id) => b' == ManualClose(b, id)
  }

  // ------------------------------------------------------------ what every run keeps

  ghost predicate OneLivePerKey(rows: seq<Finding>) {
    forall i: Id, j: Id :: i < j < |rows| && Live(rows[i]) && Live(rows[j]) ==> rows[i].key != rows[j].key
  }

  /** The log announced this finding once, and its end just if it has ended; detectors end it at most once. */
  ghost predicate Announced(events: seq<Event>, id: Id, f: Finding) {
    && Count(events, Opened(id, f.key)) == 1
    && (f.status == CLOSED <==> Closed(id, f.key.detector, false) in events || Closed(id, f.key.detector, true) in events)
    && Count(events, Closed(id, f.key.detector, false)) <= 1
  }

  ghost predicate BoardOk(b: Board) {
    && OneLivePerKey(b.rows)
    && (forall id: Id :: id < |b.rows| ==> Announced(b.events, id, b.rows[id]))
    && (forall e :: e in b.events ==> e.id < |b.rows|)
  }

  /** Nothing is removed, no finding changes its key, and a closed one never changes again. */
  ghost predicate Evolves(b: Board, b': Board) {
    && |b.rows| <= |b'.rows|
    && b.events <= b'.events
    && forall id: Id :: id < |b.rows| ==> b'.rows[id].key == b.rows[id].key && (!Live(b.rows[id]) ==> b'.rows[id] == b.rows[id])
  }

  lemma {:induction false} CountNone<T>(s: seq<T>, x: T)
    ensures Count(s, x) == 0 <==> x !in s
  {
    if s != [] {
      CountNone(s[..|s| - 1], x);
      assert s == s[..|s| - 1] + [s[|s| - 1]];
    }
  }

  /** One event more: about finding id, and nobody else hears of it. */
  lemma OneEventMore(events: seq<Event>, e: Event, id: Id, f: Finding)
    requires Announced(events, id, f) && e.id != id
    ensures Announced(events + [e], id, f)
  {
    CountSnoc(events, e, Opened(id, f.key));
    CountSnoc(events, e, Closed(id, f.key.detector, false));
  }

  lemma ClosedAnnounced(events: seq<Event>, id: Id, f: Finding, manual: bool)
    requires Announced(events, id, f) && (manual || Live(f))
    ensures Announced(events + [Closed(id, f.key.detector, manual)], id, f.(status := CLOSED))
  {
    var e := Closed(id, f.key.detector, manual);
    CountSnoc(events, e, Opened(id, f.key));
    CountSnoc(events, e, Closed(id, f.key.detector, false));
    CountNone(events, Closed(id, f.key.detector, false));
    assert e in events + [e];
  }

  lemma ClosingKeeps(b: Board, id: Id, manual: bool)
    requires BoardOk(b) && id < |b.rows| && (manual || Live(b.rows[id]))
    ensures
      var b' := if manual then ManualClose(b, id) else AutoClose(b, id);
      BoardOk(b') && Evolves(b, b')
  {
    var b' := if manual then ManualClose(b, id) else AutoClose(b, id);
    var e := Closed(id, b.rows[id].key.detector, manual);
    forall i: Id | i < |b'.rows|
      ensures Announced(b'.events, i, b'.rows[i])
    {
      if i == id {
        ClosedAnnounced(b.events, id, b.rows[id], manual);
      } else {
        OneEventMore(b.events, e, i, b.rows[i]);
      }
    }
  }

  lemma OpeningKeeps(b: Board, c: Candidate)
    requires BoardOk(b) && forall id :: !LiveAt(b.rows, id, c.key)
    ensures BoardOk(Open(b, c)) && Evolves(b, Open(b, c))
  {
    var b', n := Open(b, c), |b.rows|;
    forall i: Id | i < |b'.rows|
      ensures Announced(b'.events, i, b'.rows[i])
    {
      if i < n {
        OneEventMore(b.events, Opened(n, c.key), i, b.rows[i]);
      } else {
        CountNone(b.events, Opened(n, c.key));
        CountSnoc(b.events, Opened(n, c.key), Opened(n, c.key));
        CountNone(b'.events, Closed(n, c.key.detector, false));
      }
    }
    forall i: Id, j: Id | i < j < |b'.rows| && Live(b'.rows[i]) && Live(b'.rows[j])
      ensures b'.rows[i].key != b'.rows[j].key
    {
      assert !LiveAt(b.rows, i, c.key);
    }
  }

  /** A live finding changes everything but its key and its being live. */
  lemma UpdatingKeeps(b: Board, id: Id, f: Finding)
    requires BoardOk(b) && id < |b.rows| && Live(b.rows[id]) && Live(f) && f.key == b.rows[id].key
    ensures BoardOk(b.(rows := b.rows[id := f])) && Evolves(b, b.(rows := b.rows[id := f]))
  {
    var b' := b.(rows := b.rows[id := f]);
    forall i: Id | i < |b'.rows|
      ensures Announced(b'.events, i, b'.rows[i])
    {
      assert Announced(b.events, i, b.rows[i]);
    }
  }

  lemma StepKeepsBoard(b: Board, op: Op, b': Board)
    requires BoardOk(b) && Step(b, op, b')
    ensures BoardOk(b') && Evolves(b, b')
  {
    match op
    case OpUpsert(c) =>
      if exists id: Id :: LiveAt(b.rows, id, c.key) && b' == Refresh(b, id, c) {
        var id: Id :| LiveAt(b.rows, id, c.key) && b' == Refresh(b, id, c);
        UpdatingKeeps(b, id, Refreshed(b.rows[id], c));
      } else {
        OpeningKeeps(b, c);
      }
    case OpAutoClose(id) => ClosingKeeps(b, id, false);
    case OpAcknowledge(id) =>
      if id < |b.rows| && Live(b.rows[id]) {
        UpdatingKeeps(b, id, b.rows[id].(status := ACKNOWLEDGED));
      }
    case OpManualClose(id) =>
      if id < |b.rows| {
        ClosingKeeps(b, id, true);
      }
  }

  ghost predicate IsRun(trace: seq<Board>, ops: seq<Op>) {
    |trace| == |ops| + 1 && forall i :: 0 <= i < |ops| ==> Step(trace[i], ops[i], trace[i + 1])
  }

  /**
   Over every run each key has at most one live finding, a closed finding stays exactly as it is, and the
   log announces every finding's opening exactly once and its closing iff it is closed.
   */
  lemma {:induction false} RunKeepsBoard(trace: seq<Board>, ops: seq<Op>)
    requires IsRun(trace, ops) && BoardOk(trace[0])
    ensures BoardOk(trace[|ops|]) && Evolves(trace[0], trace[|ops|])
    decreases |ops|
  {
    if ops != [] {
      var n := |ops| - 1;
      assert forall i :: 0 <= i < n ==> Step(trace[..|ops|][i], ops[..n][i], trace[..|ops|][i + 1]);
      RunKeepsBoard(trace[..|ops|], ops[..n]);
      StepKeepsBoard(trace[n], ops[n], trace[n + 1]);
      assert forall id: Id :: id < |trace[0].rows| ==> trace[n].rows[id].key == trace[0].rows[id].key;
    }
  }
}
