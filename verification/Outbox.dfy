/** Replaying the cross-company messages held back by a pause (modules/inter_company/service.py, deliver_pending). */
module Outbox {
  import opened Common
  import opened Utf8
  import opened Mail
  import opened Orchestration
  import MailOutcomes

  datatype CrossStatus = WAITING | DELIVERED | REJECTED

  datatype LinkState = APPROVED | NOT_APPROVED | MISSING

  /** status WAITING is the source's QUEUED; content is the formatted envelope. */
  datatype Row = Row(
    id: Text, link: string, company: string, target: Option<Id>, content: Text, status: CrossStatus, reason: Option<string>)

  /** What the directory of companies and links says during one replay. */
  datatype Surroundings = Surroundings(available: bool, links: map<string, LinkState>, inbox: Option<Id>)

  function LinkOf(s: Surroundings, row: Row): LinkState {
    if row.link in s.links then s.links[row.link] else MISSING
  }

  /** An empty target counts as none. */
  function TargetOf(s: Surroundings, row: Row): Option<Id> {
    if row.target.Some? && row.target.value != [] then row.target else s.inbox
  }

  function MessageOf(row: Row, target: Id): Message {
    Message(None, target, row.content, Some(row.id))
  }

  function MapResult(r: SendResult): CrossStatus {
    if r == QUEUED then DELIVERED else if r == PAUSED then WAITING else REJECTED
  }

  function Reason(r: SendResult): string {
    match r
    case TOO_LARGE => "rejected_too_large"
    case INVALID_TARGET => "rejected_invalid_target"
    case PAUSED => "rejected_paused"
    case RATE_LIMITED => "rejected_rate_limit"
    case LOOPED => "rejected_loop"
    case DUPLICATE => "rejected_duplicate"
    case QUEUED => "queued"
    case RAISED => ""
  }

  predicate Sendable(s: Surroundings, row: Row) {
    LinkOf(s, row) == APPROVED && TargetOf(s, row).Some?
  }

  /** The row after the orchestrator's answer; an error or a pause leaves it waiting. */
  function Answered(row: Row, target: Id, r: SendResult): Row {
    if r == RAISED || MapResult(r) == WAITING then row
    else row.(status := MapResult(r), reason := if r == QUEUED then None else Some(Reason(r)), target := Some(target))
  }

  function Refused(row: Row, reason: string): Row {
    row.(status := REJECTED, reason := Some(reason))
  }

  /** What replaying one waiting row does to it and to the target company's mail. */
  ghost predicate Replayed(o: Surroundings, agents: seq<Id>, suspended: set<Id>, f: Facts, n: Net, n': Net, row: Row, row': Row) {
    if LinkOf(o, row) != APPROVED then row' == Refused(row, "link_not_approved") && n' == n
    else if TargetOf(o, row).None? then row' == Refused(row, "no_inbox_agent") && n' == n
    else
      var target := TargetOf(o, row).value;
      var m := MessageOf(row, target);
      exists passed: nat ::
        && Passes(n, agents, suspended, f, m, passed)
        && row' == Answered(row, target, Refusal(passed))
        && n' == if passed == GATE_COUNT then Queued(n, EnvelopeOf(n, m)) else n
  }

  /** The envelopes of the rows delivered among those ids, numbered from `first` on. */
  function EnvelopesOf(rows: seq<Row>, ids: seq<nat>, first: nat): seq<Envelope> {
    if ids == [] then []
    else
      var before, id := EnvelopesOf(rows, ids[..|ids| - 1], first), ids[|ids| - 1];
      if id < |rows| && rows[id].status == DELIVERED && rows[id].target.Some? then
        before + [EnvelopeFor(rows[id], first + |before|)]
      else before
  }

  lemma {:induction false} EnvelopesIgnore(rows: seq<Row>, rows': seq<Row>, ids: seq<nat>, first: nat)
    requires |rows| == |rows'| && forall id :: id in ids && id < |rows| ==> rows'[id] == rows[id]
    ensures EnvelopesOf(rows, ids, first) == EnvelopesOf(rows', ids, first)
  {
    if ids != [] {
      assert ids[|ids| - 1] in ids && forall id :: id in ids[..|ids| - 1] ==> id in ids;
      EnvelopesIgnore(rows, rows', ids[..|ids| - 1], first);
    }
  }

  function EnvelopeFor(row: Row, msgId: nat): Envelope
    requires row.target.Some?
  {
    Envelope(msgId, None, row.target.value, row.content, Some(row.id), 0)
  }

  lemma OneMoreSettled(rows: seq<Row>, row: Row, ids: seq<nat>, i: nat, sent0: seq<Envelope>)
    requires i < |rows| && i !in ids && (row.status == DELIVERED ==> row.target.Some?)
    ensures
      var rows', sent := rows[i := row], sent0 + EnvelopesOf(rows, ids, |sent0|);
      && EnvelopesOf(rows', ids, |sent0|) == EnvelopesOf(rows, ids, |sent0|)
      && sent0 + EnvelopesOf(rows', ids + [i], |sent0|) ==
         if row.status == DELIVERED then sent + [EnvelopeFor(row, |sent|)] else sent
  {
    var rows', before := rows[i := row], EnvelopesOf(rows, ids, |sent0|);
    EnvelopesIgnore(rows, rows', ids, |sent0|);
    assert (ids + [i])[..|ids|] == ids;
    if row.status == DELIVERED {
      var e := EnvelopeFor(row, |sent0| + |before|);
      assert EnvelopesOf(rows', ids + [i], |sent0|) == before + [e];
      ConcatSnoc(sent0, before, e);
    }
  }

  /** One row replayed: the mail gains its envelope exactly if it is delivered. */
  lemma ReplayedSends(o: Surroundings, agents: seq<Id>, suspended: set<Id>, f: Facts, n: Net, n': Net, row: Row, row': Row)
    requires row.status == WAITING && Replayed(o, agents, suspended, f, n, n', row, row')
    ensures row'.id == row.id && row'.content == row.content && row'.company == row.company && row'.link == row.link
    ensures row'.status == DELIVERED ==> row'.target.Some?
    ensures n'.sent == n.sent + (if row'.status == DELIVERED then [EnvelopeFor(row', |n.sent|)] else [])
    ensures row'.status == WAITING ==> row' == row && (f.accepting ==> !Encodable(row.content))
    ensures !f.accepting ==> row'.status != DELIVERED
  {
    if Sendable(o, row) {
      var target := TargetOf(o, row).value;
      var m := MessageOf(row, target);
      var passed: nat :|
        && Passes(n, agents, suspended, f, m, passed)
        && row' == Answered(row, target, Refusal(passed))
        && n' == if passed == GATE_COUNT then Queued(n, EnvelopeOf(n, m)) else n;
      assert passed == GATE_COUNT ==> Open(n, agents, suspended, f, m, 5);
      assert passed == 0 ==> !Open(n, agents, suspended, f, m, 0);
      assert passed == 5 ==> !Open(n, agents, suspended, f, m, 5);
    }
  }

  /** Where a replayed message goes: to the agent it names, or else to the company's inbox. */
  function Recipient(o: Surroundings, row: Row): Option<Id> {
    if row.target.Some? && row.target.value != [] then row.target else o.inbox
  }

  /** A refusal is true: it names the first thing that is in the message's way. */
  ghost predicate ReasonHolds(agents: seq<Id>, suspended: set<Id>, f: Facts, n: Net, row: Row, to: Id, reason: string) {
    var m := Message(None, to, row.content, Some(row.id));
    || (reason == "rejected_too_large" && |Encode(row.content)| > 262144)
    || (reason == "rejected_invalid_target" && !MailOutcomes.CanReceive(agents, suspended, f, to))
    || (reason == "rejected_duplicate" && MailOutcomes.Repeated(n, m))
  }

  /**
   How a replay ends, told from the tables alone. Over a link that is not approved by then, or with nobody to
   receive it, the row is rejected for that and nothing is sent. Otherwise it is delivered, the message going
   out once under the row's id, from the system and with the row's text; or left as it was; or rejected for a true reason.
   */
  lemma RowEnds(o: Surroundings, agents: seq<Id>, suspended: set<Id>, f: Facts, n: Net, n': Net, row: Row, row': Row)
    requires row.status == WAITING && Replayed(o, agents, suspended, f, n, n', row, row')
    ensures
      if !(row.link in o.links && o.links[row.link] == APPROVED) then
        row' == row.(status := REJECTED, reason := Some("link_not_approved")) && n' == n
      else if Recipient(o, row).None? then
        row' == row.(status := REJECTED, reason := Some("no_inbox_agent")) && n' == n
      else
        var to := Recipient(o, row).value;
        match row'.status
        case DELIVERED =>
          && row' == row.(status := DELIVERED, reason := None, target := Some(to))
          && n'.sent == n.sent + [Envelope(|n.sent|, None, to, row.content, Some(row.id), 0)]
        case WAITING => row' == row && n' == n
        case REJECTED =>
          && row'.reason.Some? && ReasonHolds(agents, suspended, f, n, row, to, row'.reason.value)
          && row' == row.(status := REJECTED, reason := row'.reason, target := Some(to)) && n' == n
  {
    if Sendable(o, row) {
      var target := TargetOf(o, row).value;
      var m := MessageOf(row, target);
      var passed: nat :|
        && Passes(n, agents, suspended, f, m, passed)
        && row' == Answered(row, target, Refusal(passed))
        && n' == if passed == GATE_COUNT then Queued(n, EnvelopeOf(n, m)) else n;
      MailOutcomes.RefusalHolds(n, agents, suspended, f, m, passed);
    }
  }

  /**
   A message that the target's process has queued is not queued by it again, even when its row was never
   updated: the retry is refused and the mail stays as it is.
   */
  lemma QueuedOnce(o: Surroundings, agents: seq<Id>, suspended: set<Id>, f: Facts, n: Net, n': Net, row: Row, row': Row,
      deliver: Envelope -> bool, k: nat)
    requires NetOk(n, deliver) && row.status == WAITING && Replayed(o, agents, suspended, f, n, n', row, row')
    requires row.id != [] && Sendable(o, row)
    requires n.past.since <= k < |n.sent| && n.sent[k].to == TargetOf(o, row).value && n.sent[k].correlation == Some(row.id)
    ensures n' == n && row'.status != DELIVERED
  {
    var m := MessageOf(row, TargetOf(o, row).value);
    assert Tagged(n.sent[k]) && !Open(n, agents, suspended, f, m, 8);
  }

  /** The replay leaves the row waiting: its text cannot be encoded, or only the pause is in its way. */
  predicate LeftWaiting(o: Surroundings, agents: seq<Id>, suspended: set<Id>, f: Facts, row: Row)
    requires Sendable(o, row)
  {
    var target := TargetOf(o, row).value;
    || !Encodable(row.content)
    || (|Encode(row.content)| <= MAX_CONTENT_BYTES && target in f.active && target !in suspended && target in agents && !f.accepting)
  }

  lemma WaitingIff(o: Surroundings, agents: seq<Id>, suspended: set<Id>, f: Facts, n: Net, n': Net, row: Row, row': Row)
    requires row.status == WAITING && Sendable(o, row) && Replayed(o, agents, suspended, f, n, n', row, row')
    ensures row'.status == WAITING <==> LeftWaiting(o, agents, suspended, f, row)
  {
    var target := TargetOf(o, row).value;
    var m := MessageOf(row, target);
    var passed: nat :|
      && Passes(n, agents, suspended, f, m, passed)
      && row' == Answered(row, target, Refusal(passed))
      && n' == if passed == GATE_COUNT then Queued(n, EnvelopeOf(n, m)) else n;
    assert row'.status == WAITING <==> passed == 0 || passed == 5;
    assert passed > 0 ==> Open(n, agents, suspended, f, m, 0);
    assert passed > 1 ==> Open(n, agents, suspended, f, m, 1);
    assert passed > 3 ==> Open(n, agents, suspended, f, m, 3);
    assert passed > 4 ==> Open(n, agents, suspended, f, m, 4);
    assert passed > 5 ==> Open(n, agents, suspended, f, m, 5);
    assert Open(n, agents, suspended, f, m, 2) && !Open(n, agents, suspended, f, m, passed);
  }

  /**
   When a row ends REJECTED although the target's process has its message in the mail: exactly when that
   process had queued the message before, by a replay that did not get to update the row (what has_correlation
   then answers, see Mail.SeenIsSent), and this replay does not leave the row waiting.
   */
  lemma RejectedThoughQueued(o: Surroundings, agents: seq<Id>, suspended: set<Id>, f: Facts, n: Net, n': Net, row: Row, row': Row,
      deliver: Envelope -> bool)
    requires NetOk(n, deliver) && row.status == WAITING && Replayed(o, agents, suspended, f, n, n', row, row')
    requires row.id != [] && Sendable(o, row)
    ensures
      var target := TargetOf(o, row).value;
      (row'.status == REJECTED && WasQueued(n', target, row.id)) <==>
      (WasQueued(n, target, row.id) && !LeftWaiting(o, agents, suspended, f, row))
  {
    var target := TargetOf(o, row).value;
    ReplayedSends(o, agents, suspended, f, n, n', row, row');
    WaitingIff(o, agents, suspended, f, n, n', row, row');
    if WasQueued(n, target, row.id) {
      var k: nat :| n.past.since <= k < |n.sent| && n.sent[k].to == target && n.sent[k].correlation == Some(row.id);
      QueuedOnce(o, agents, suspended, f, n, n', row, row', deliver, k);
    }
  }

  /**
   When a replay delivers: exactly when every gate is open and the target's process has not queued the message
   before. So one queued by an earlier process, its row never updated, is queued and told delivered again.
   */
  lemma DeliveredIff(o: Surroundings, agents: seq<Id>, suspended: set<Id>, f: Facts, n: Net, n': Net, row: Row, row': Row,
      deliver: Envelope -> bool)
    requires NetOk(n, deliver) && row.status == WAITING && Replayed(o, agents, suspended, f, n, n', row, row')
    requires row.id != [] && Sendable(o, row)
    ensures
      var target := TargetOf(o, row).value;
      row'.status == DELIVERED <==>
      (Encodable(row.content) && |Encode(row.content)| <= MAX_CONTENT_BYTES && target in f.active && target !in suspended
       && target in agents && f.accepting && !WasQueued(n, target, row.id))
  {
    var target := TargetOf(o, row).value;
    var m := MessageOf(row, target);
    SeenIsSent(n, deliver, target, row.id);
    var passed: nat :|
      && Passes(n, agents, suspended, f, m, passed)
      && row' == Answered(row, target, Refusal(passed))
      && n' == if passed == GATE_COUNT then Queued(n, EnvelopeOf(n, m)) else n;
    assert row'.status == DELIVERED <==> passed == GATE_COUNT;
    if passed == GATE_COUNT {
      assert Open(n, agents, suspended, f, m, 0) && Open(n, agents, suspended, f, m, 1) && Open(n, agents, suspended, f, m, 3);
      assert Open(n, agents, suspended, f, m, 4) && Open(n, agents, suspended, f, m, 5) && Open(n, agents, suspended, f, m, 8);
    } else {
      assert Open(n, agents, suspended, f, m, 2) && Open(n, agents, suspended, f, m, 6) && Open(n, agents, suspended, f, m, 7);
      assert !Open(n, agents, suspended, f, m, passed);
    }
  }

  /** One message, two replays, the row not updated in between: delivered first, refused as a duplicate then. */
  lemma ReplayedTwice()
    ensures
      var row := Row([1], "link", "company", Some([2]), [3], WAITING, None);
      var o, f := Surroundings(true, map["link" := APPROVED], None), Facts({[2]}, true, true, false);
      var n1 := Queued(NO_MAIL, Envelope(0, None, [2], [3], Some([1]), 0));
      && Replayed(o, [[2]], {}, f, NO_MAIL, n1, row, row.(status := DELIVERED))
      && Replayed(o, [[2]], {}, f, n1, n1, row, row.(status := REJECTED, reason := Some("rejected_duplicate")))
  {
    var row := Row([1], "link", "company", Some([2]), [3], WAITING, None);
    var m := MessageOf(row, [2]);
    var f := Facts({[2]}, true, true, false);
    var n1 := Queued(NO_MAIL, Envelope(0, None, [2], [3], Some([1]), 0));
    assert Encode([3]) == EncodeChar(3) + Encode([]);
    assert Passes(NO_MAIL, [[2]], {}, f, m, GATE_COUNT);
    assert row.(status := DELIVERED) == Answered(row, [2], Refusal(GATE_COUNT));
    assert Passes(n1, [[2]], {}, f, m, 8);
    assert row.(status := REJECTED, reason := Some("rejected_duplicate")) == Answered(row, [2], Refusal(8));
  }

  /** The same with a restart of the target's process in between: queued twice, and told delivered the second time. */
  lemma ReplayedAcrossRestart() returns (n2: Net)
    ensures
      var row := Row([1], "link", "company", Some([2]), [3], WAITING, None);
      var o, f := Surroundings(true, map["link" := APPROVED], None), Facts({[2]}, true, true, false);
      var n1 := Queued(NO_MAIL, Envelope(0, None, [2], [3], Some([1]), 0));
      && Replayed(o, [[2]], {}, f, NO_MAIL, n1, row, row.(status := DELIVERED))
      && Replayed(o, [[2]], {}, f, Restarted(n1), n2, row, row.(status := DELIVERED))
    ensures n2.sent == [Envelope(0, None, [2], [3], Some([1]), 0), Envelope(1, None, [2], [3], Some([1]), 0)]
  {
    var row := Row([1], "link", "company", Some([2]), [3], WAITING, None);
    var m := MessageOf(row, [2]);
    var f := Facts({[2]}, true, true, false);
    var n1 := Queued(NO_MAIL, Envelope(0, None, [2], [3], Some([1]), 0));
    ReplayedTwice();
    n2 := Queued(Restarted(n1), EnvelopeOf(Restarted(n1), m));
    assert Encode([3]) == EncodeChar(3) + Encode([]);
    assert Passes(Restarted(n1), [[2]], {}, f, m, GATE_COUNT);
    assert row.(status := DELIVERED) == Answered(row, [2], Refusal(GATE_COUNT));
  }

  /** The board's table of cross-company messages. */
  class OutboxService {
    var rows: seq<Row>

    constructor (rows: seq<Row>)
      ensures this.rows == rows
    {
      this.rows := rows;
    }

    /**
     Replays the waiting rows of a company in order of creation. The company's mail gains exactly one
     envelope for every row that becomes DELIVERED, in that order; none while it is paused; and while it
     accepts messages no row is left waiting but those whose text cannot be encoded. An unknown link stops
     the replay with an error.
     */
    method DeliverPending(company: string, target: Orchestrator, o: Surroundings, f: Facts)
      returns (flushed: nat, raised: bool, ghost settled: seq<nat>)
      requires target.Valid()
      modifies this, target, target.queue
      ensures target.Valid() && |rows| == |old(rows)| && flushed == |settled| && Ascending(settled)
      ensures forall id: nat :: id < |rows| ==> RowSettled(old(rows)[id], rows[id], company, o, id in settled)
      ensures target.sent == old(target.sent) + EnvelopesOf(rows, settled, |old(target.sent)|)
      ensures !f.accepting ==> target.sent == old(target.sent)
      ensures !o.available ==> !raised && settled == []
      ensures f.accepting && o.available && !raised ==>
                forall id: nat :: id < |rows| ==> !CouldGo(rows[id], company)
      ensures raised ==> exists id: nat :: id < |rows| && rows[id].company == company && rows[id].status == WAITING && LinkOf(o, rows[id]) == MISSING
    {
      flushed, raised, settled := 0, false, [];
      ghost var rows0, sent0 := rows, target.sent;
      var todo := rows;
      for i := 0 to |todo|
        invariant target.Valid() && todo == rows0 && |rows| == |rows0| && flushed == |settled|
        invariant Flushed(rows0, sent0, rows, target.sent, settled, company, o, f, i)
      {
        var row := todo[i];
        NotYetReached(rows0, sent0, rows, target.sent, settled, company, o, f, i);
        if row.company == company && row.status == WAITING {
          if !o.available {
            return;
          }
          if LinkOf(o, row) == MISSING {
            raised := true;
            return;
          }
          DeliverNext(i, target, company, o, f, rows0, sent0, settled);
          if rows[i].status != WAITING {
            flushed, settled := flushed + 1, settled + [i];
          }
        } else {
          SkipRow(rows0, sent0, rows, target.sent, settled, company, o, f, i);
        }
      }
      AllReached(rows0, sent0, rows, target.sent, settled, company, o, f);
    }

    /** The next waiting row; the replay has then looked at one row more. */
    method DeliverNext(i: nat, target: Orchestrator, company: string, o: Surroundings, f: Facts,
        ghost rows0: seq<Row>, ghost sent0: seq<Envelope>, ghost settled: seq<nat>)
      requires target.Valid() && i < |rows| == |rows0| && i !in settled && rows[i] == rows0[i]
      requires o.available && rows[i].company == company && rows[i].status == WAITING && LinkOf(o, rows[i]) != MISSING
      requires Flushed(rows0, sent0, rows, target.sent, settled, company, o, f, i)
      modifies this, target`suspended, target`strikes, target`sent, target.queue
      ensures target.Valid() && |rows| == |rows0|
      ensures Flushed(rows0, sent0, rows, target.sent, if rows[i].status != WAITING then settled + [i] else settled, company, o, f, i + 1)
    {
      ghost var before, n := rows, target.Contents();
      DeliverOne(i, target, o, f);
      NextRow(rows0, sent0, before, n, settled, company, o, f, i, target.agents, target.suspended, target.Contents(), rows[i]);
    }

    method DeliverOne(i: nat, target: Orchestrator, o: Surroundings, f: Facts)
      requires target.Valid() && i < |rows| && rows[i].status == WAITING && LinkOf(o, rows[i]) != MISSING
      modifies this, target`suspended, target`strikes, target`sent, target.queue
      ensures target.Valid() && target.suspended == old(target.suspended)
      ensures |rows| == |old(rows)| && rows == old(rows)[i := rows[i]]
      ensures Replayed(o, target.agents, target.suspended, f, old(target.Contents()), target.Contents(), old(rows)[i], rows[i])
    {
      var row := rows[i];
      if LinkOf(o, row) != APPROVED {
        rows := rows[i := Refused(row, "link_not_approved")];
        return;
      }
      var inbox := TargetOf(o, row);
      if inbox.None? {
        rows := rows[i := Refused(row, "no_inbox_agent")];
        return;
      }
      ghost var n := target.Contents();
      var m := Message(None, inbox.value, row.content, Some(row.id));
      var result, passed := target.Send(m, f);
      assert Open(n, target.agents, old(target.suspended), f, m, LOOP_GATE);
      rows := rows[i := Answered(row, inbox.value, result)];
      assert rows[i] == Answered(row, inbox.value, Refusal(passed));
    }
  }

  ghost predicate AllSettled(was: seq<Row>, now: seq<Row>, company: string, o: Surroundings, settled: seq<nat>) {
    |now| == |was| && forall id: nat :: id < |now| ==> RowSettled(was[id], now[id], company, o, id in settled)
  }

  lemma OneMoreRow(rows0: seq<Row>, was: seq<Row>, now: seq<Row>, company: string, o: Surroundings, settled: seq<nat>, i: nat)
    requires AllSettled(rows0, was, company, o, settled) && i < |was| == |now| && i !in settled && now == was[i := now[i]]
    requires RowSettled(rows0[i], now[i], company, o, now[i].status != WAITING)
    ensures AllSettled(rows0, now, company, o, if now[i].status != WAITING then settled + [i] else settled)
  {
    assert forall id: nat :: id in settled + [i] <==> id in settled || id == i;
  }

  lemma RowSettles(o: Surroundings, agents: seq<Id>, suspended: set<Id>, f: Facts, n: Net, n': Net, row: Row, row': Row)
    requires row.status == WAITING && Replayed(o, agents, suspended, f, n, n', row, row')
    ensures RowSettled(row, row', row.company, o, row'.status != WAITING)
  {
    RowEnds(o, agents, suspended, f, n, n', row, row');
  }

  /** The row is waiting for that company, and its text can be encoded. */
  predicate CouldGo(row: Row, company: string) {
    row.company == company && row.status == WAITING && Encodable(row.content)
  }

  /** The replay has looked at the first i rows. */
  ghost predicate Flushed(rows0: seq<Row>, sent0: seq<Envelope>, rows: seq<Row>, sent: seq<Envelope>, settled: seq<nat>,
      company: string, o: Surroundings, f: Facts, i: nat) {
    && AllSettled(rows0, rows, company, o, settled)
    && Ascending(settled) && (forall id :: id in settled ==> id < i)
    && sent == sent0 + EnvelopesOf(rows, settled, |sent0|)
    && (!f.accepting ==> sent == sent0)
    && (!o.available ==> settled == [])
    && (f.accepting && o.available ==> forall id: nat :: id < i && id < |rows| ==> !CouldGo(rows[id], company))
  }

  lemma NotYetReached(rows0: seq<Row>, sent0: seq<Envelope>, rows: seq<Row>, sent: seq<Envelope>, settled: seq<nat>,
      company: string, o: Surroundings, f: Facts, i: nat)
    requires Flushed(rows0, sent0, rows, sent, settled, company, o, f, i) && i < |rows0|
    ensures i !in settled && |rows| == |rows0| && rows[i] == rows0[i]
  {
  }

  lemma SkipRow(rows0: seq<Row>, sent0: seq<Envelope>, rows: seq<Row>, sent: seq<Envelope>, settled: seq<nat>,
      company: string, o: Surroundings, f: Facts, i: nat)
    requires Flushed(rows0, sent0, rows, sent, settled, company, o, f, i) && i < |rows|
    requires !(rows[i].company == company && rows[i].status == WAITING)
    ensures Flushed(rows0, sent0, rows, sent, settled, company, o, f, i + 1)
  {
  }

  lemma NextRow(rows0: seq<Row>, sent0: seq<Envelope>, rows: seq<Row>, n: Net, settled: seq<nat>, company: string, o: Surroundings,
      f: Facts, i: nat, agents: seq<Id>, suspended: set<Id>, n': Net, row': Row)
    requires Flushed(rows0, sent0, rows, n.sent, settled, company, o, f, i) && i < |rows| && i !in settled && rows[i] == rows0[i]
    requires o.available && rows[i].company == company && rows[i].status == WAITING
    requires Replayed(o, agents, suspended, f, n, n', rows[i], row')
    ensures
      Flushed(rows0, sent0, rows[i := row'], n'.sent, if row'.status != WAITING then settled + [i] else settled, company, o, f, i + 1)
  {
    var row := rows[i];
    ReplayedSends(o, agents, suspended, f, n, n', row, row');
    RowSettles(o, agents, suspended, f, n, n', row, row');
    OneMoreSettled(rows, row', settled, i, sent0);
    OneMoreRow(rows0, rows, rows[i := row'], company, o, settled, i);
    AscendingAppend(settled, i);
  }

  lemma AllReached(rows0: seq<Row>, sent0: seq<Envelope>, rows: seq<Row>, sent: seq<Envelope>, settled: seq<nat>,
      company: string, o: Surroundings, f: Facts)
    requires Flushed(rows0, sent0, rows, sent, settled, company, o, f, |rows|)
    ensures f.accepting && o.available ==> forall id: nat :: id < |rows| ==> !CouldGo(rows[id], company)
  {
  }

  predicate Ascending(ids: seq<nat>) {
    forall p, q :: 0 <= p < q < |ids| ==> ids[p] < ids[q]
  }

  lemma AscendingAppend(ids: seq<nat>, i: nat)
    requires Ascending(ids) && forall id :: id in ids ==> id < i
    ensures Ascending(ids + [i])
  {
    assert forall p :: 0 <= p < |ids| ==> ids[p] in ids;
  }

  /**
   A row that was settled was waiting for that company and is not any more; if it is delivered, its link was approved
   by then and it went where it should. Any other row is as it was.
   */
  predicate RowSettled(was: Row, now: Row, company: string, o: Surroundings, settled: bool) {
    if settled then
      && was.company == company && was.status == WAITING && now.status != WAITING
      && now == was.(status := now.status, reason := now.reason, target := now.target)
      && (now.status == DELIVERED ==>
            was.link in o.links && o.links[was.link] == APPROVED && now.target.Some? && now.target == Recipient(o, was))
    else now == was
  }
}
