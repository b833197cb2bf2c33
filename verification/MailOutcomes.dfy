/**
 What a send comes to, told from the message and the gates alone, and whose words reach an agent over every run
 (modules/orchestrator/orchestrator.py).
 */
module MailOutcomes {
  import opened Common
  import opened Utf8
  import opened Mail
  import opened Orchestration

  // ------------------------------------------------------------ one send

  /** The text can be encoded, in at most 256 KiB. */
  predicate TextFits(m: Message) {
    Encodable(m.content) && |Encode(m.content)| <= 262144
  }

  predicate CanReceive(agents: seq<Id>, suspended: set<Id>, f: Facts, a: Id) {
    a in f.active && a !in suspended && a in agents
  }

  /** The sender, if an agent, is active, within its rate and in no loop. */
  predicate MaySpeak(f: Facts, m: Message) {
    m.from.Some? ==> m.from.value in f.active && f.withinRate && !f.loops
  }

  /** A message with that tag has been seen by its recipient. */
  predicate Repeated(n: Net, m: Message) {
    m.correlation.Some? && m.correlation.value != [] && m.to in n.seen && m.correlation.value in n.seen[m.to]
  }

  /** A message is queued iff its text fits, its recipient can receive, the company accepts, its sender may speak, and it is no repeat. */
  lemma QueuedIff(n: Net, agents: seq<Id>, suspended: set<Id>, f: Facts, m: Message, passed: nat)
    requires Passes(n, agents, suspended, f, m, passed)
    ensures Refusal(passed) == QUEUED <==>
            TextFits(m) && CanReceive(agents, suspended, f, m.to) && f.accepting && MaySpeak(f, m) && !Repeated(n, m)
  {
    if passed == 9 {
      assert Open(n, agents, suspended, f, m, 0) && Open(n, agents, suspended, f, m, 1) && Open(n, agents, suspended, f, m, 2);
      assert Open(n, agents, suspended, f, m, 3) && Open(n, agents, suspended, f, m, 4) && Open(n, agents, suspended, f, m, 5);
      assert Open(n, agents, suspended, f, m, 6) && Open(n, agents, suspended, f, m, 7) && Open(n, agents, suspended, f, m, 8);
    }
  }

  /** Every refusal is true: the gate it names is closed, and those that the source looks at before are open. */
  lemma RefusalHolds(n: Net, agents: seq<Id>, suspended: set<Id>, f: Facts, m: Message, passed: nat)
    requires Passes(n, agents, suspended, f, m, passed)
    ensures
      match Refusal(passed)
      case QUEUED => true
      case RAISED => !Encodable(m.content)
      case TOO_LARGE => Encodable(m.content) && |Encode(m.content)| > 262144
      case INVALID_TARGET => TextFits(m) && ((m.from.Some? && m.from.value !in f.active) || !CanReceive(agents, suspended, f, m.to))
      case PAUSED => TextFits(m) && CanReceive(agents, suspended, f, m.to) && !f.accepting
      case RATE_LIMITED => CanReceive(agents, suspended, f, m.to) && f.accepting && m.from.Some? && !f.withinRate
      case LOOPED => CanReceive(agents, suspended, f, m.to) && f.accepting && m.from.Some? && f.withinRate && f.loops
      case DUPLICATE => CanReceive(agents, suspended, f, m.to) && f.accepting && MaySpeak(f, m) && Repeated(n, m)
  {
    forall gate: nat | gate < passed
      ensures Open(n, agents, suspended, f, m, gate)
    {
    }
    assert passed > 0 ==> Open(n, agents, suspended, f, m, 0);
    assert passed > 1 ==> Open(n, agents, suspended, f, m, 1);
    assert passed > 2 ==> Open(n, agents, suspended, f, m, 2);
    assert passed > 3 ==> Open(n, agents, suspended, f, m, 3);
    assert passed > 4 ==> Open(n, agents, suspended, f, m, 4);
    assert passed > 5 ==> Open(n, agents, suspended, f, m, 5);
    assert passed > 6 ==> Open(n, agents, suspended, f, m, 6);
    assert passed > 7 ==> Open(n, agents, suspended, f, m, 7);
  }

  /** The envelope carries the message as it was sent. */
  predicate Carries(e: Envelope, m: Message) {
    e.from == m.from && e.to == m.to && e.content == m.content && e.correlation == m.correlation
  }

  /** What the system tells a sender: that the recipient cannot be reached, or to slow down. */
  predicate IsNotice(e: Envelope, m: Message, r: SendResult) {
    && m.from.Some? && e.from == None && e.correlation == None
    && ((r == INVALID_TARGET && e.to == m.from.value && e.content == Ascii("Recipient ") + m.to + Ascii(" is not deliverable."))
        || (r == RATE_LIMITED && e.to == (if m.from.value == [] then Ascii("?") else m.from.value)
            && e.content == Ascii("rate limit reached, slow down")))
  }

  /**
   What one send puts in the mail: the message itself, under its own sender, to its recipient and with its text
   and tag, iff it is accepted; at most the notice to its sender, from the system, if it is refused.
   */
  lemma SendCarries(n: Net, agents: seq<Id>, suspended: set<Id>, f: Facts, m: Message, passed: nat)
    requires Passes(n, agents, suspended, f, m, passed)
    ensures
      var n', r := AfterSend(n, agents, suspended, f, m, passed), Refusal(passed);
      && n.sent <= n'.sent && |n'.sent| <= |n.sent| + 1
      && (r == QUEUED ==> n'.sent == n.sent + [Envelope(|n.sent|, m.from, m.to, m.content, m.correlation, 0)])
      && (r != QUEUED && n' != n ==> |n'.sent| == |n.sent| + 1 && n'.sent[|n.sent|].attempts == 0 && IsNotice(n'.sent[|n.sent|], m, r))
      && n'.delivered == n.delivered && n'.dlq == n.dlq && n'.dispatched == n.dispatched && n'.past == n.past
  {
  }

  /** A message of the system is in the mail, provided its text fits, its recipient can receive and the company accepts. */
  predicate GoesOut(n: Net, n': Net, agents: seq<Id>, suspended: set<Id>, f: Facts, to: Id, text: Text) {
    TextFits(Message(None, to, text, None)) && CanReceive(agents, suspended, f, to) && f.accepting
    ==> n'.sent == n.sent + [Envelope(|n.sent|, None, to, text, None, 0)]
  }

  /** A sender who is too fast is told so, whenever a system message reaches it. */
  lemma TooFastIsTold(n: Net, agents: seq<Id>, suspended: set<Id>, f: Facts, m: Message, passed: nat)
    requires Passes(n, agents, suspended, f, m, passed) && m.from.Some? && Refusal(passed) == RATE_LIMITED
    ensures GoesOut(n, AfterSend(n, agents, suspended, f, m, passed), agents, suspended, f,
                    if m.from.value == [] then Ascii("?") else m.from.value, SLOW_DOWN)
  {
    NoticeReaches(n, agents, suspended, f, RateKey(m.from.value), SLOW_DOWN);
  }

  /** A sender whose recipient is not active or is suspended is told so, whenever a system message reaches it. */
  lemma UnreachableIsTold(n: Net, agents: seq<Id>, suspended: set<Id>, f: Facts, m: Message, passed: nat)
    requires Passes(n, agents, suspended, f, m, passed) && m.from.Some? && m.from.value in f.active
    requires Refusal(passed) == INVALID_TARGET && !(m.to in f.active && m.to !in suspended)
    ensures GoesOut(n, AfterSend(n, agents, suspended, f, m, passed), agents, suspended, f,
                    m.from.value, Ascii("Recipient ") + m.to + Ascii(" is not deliverable."))
  {
    UnreachableAtGate(n, agents, suspended, f, m, passed);
    NoticeReaches(n, agents, suspended, f, m.from.value, Undeliverable(m.to));
  }

  lemma UnreachableAtGate(n: Net, agents: seq<Id>, suspended: set<Id>, f: Facts, m: Message, passed: nat)
    requires Passes(n, agents, suspended, f, m, passed) && m.from.Some? && m.from.value in f.active
    requires Refusal(passed) == INVALID_TARGET && !(m.to in f.active && m.to !in suspended)
    ensures passed == RECIPIENT_GATE
  {
    assert Open(n, agents, suspended, f, m, 2);
    assert passed == 4 ==> Open(n, agents, suspended, f, m, 3);
  }

  lemma NoticeReaches(n: Net, agents: seq<Id>, suspended: set<Id>, f: Facts, to: Id, text: Text)
    ensures GoesOut(n, Noticed(n, agents, suspended, f, to, text), agents, suspended, f, to, text)
  {
    if TextFits(Message(None, to, text, None)) && CanReceive(agents, suspended, f, to) && f.accepting {
      assert Passes(n, agents, suspended, f, Message(None, to, text, None), GATE_COUNT);
    }
  }

  /** The texts of the system are plain ASCII: one byte for each character, its own code. */
  lemma SystemTexts()
    ensures |Ascii("?")| == 1 && Ascii("?")[0] == 63
    ensures forall i :: 0 <= i < |SLOW_DOWN| ==> SLOW_DOWN[i] == "rate limit reached, slow down"[i] as int
    ensures |SLOW_DOWN| == 29
  {
    assert '?' as int == 63;
  }

  // ------------------------------------------------------------ loops

  /** After one loop was found for each of the agents, in this order. */
  function StruckAll(found: seq<Id>): Loops {
    if found == [] then Loops(map[], {}) else Struck(StruckAll(found[..|found| - 1]), found[|found| - 1])
  }

  /** An agent is suspended iff loops were found for it three times, however they alternate with those of others. */
  lemma {:induction false} ThirdStrikeSuspends(found: seq<Id>, a: Id)
    ensures a in StruckAll(found).suspended <==> Count(found, a) >= 3
    ensures Count(found, a) == if a in StruckAll(found).strikes then StruckAll(found).strikes[a] else 0
  {
    if found != [] {
      var front, last := found[..|found| - 1], found[|found| - 1];
      assert found == front + [last];
      CountSnoc(front, last, a);
      ThirdStrikeSuspends(front, a);
    }
  }

  // ------------------------------------------------------------ over runs

  datatype Op =
    | OpSend(agents: seq<Id>, suspended: set<Id>, f: Facts, m: Message, passed: nat)
    | OpTurn(a: Id, accepting: bool)
    | OpRestart

  ghost predicate Steps(n: Net, op: Op, n': Net, deliver: Envelope -> bool) {
    match op
    case OpSend(agents, suspended, f, m, passed) =>
      Passes(n, agents, suspended, f, m, passed) && n' == AfterSend(n, agents, suspended, f, m, passed)
    case OpTurn(a, accepting) => n' == Mail.Turn(n, a, accepting, deliver)
    case OpRestart => n' == Restarted(n)
  }

  ghost predicate Trace(ns: seq<Net>, ops: seq<Op>, deliver: Envelope -> bool) {
    |ns| == |ops| + 1 && forall i :: 0 <= i < |ops| ==> Steps(ns[i], ops[i], ns[i + 1], deliver)
  }

  /** The envelope goes back to that send: it carries its accepted message, or is the notice about its refusal. */
  predicate Wrote(op: Op, e: Envelope) {
    op.OpSend? && (if Refusal(op.passed) == QUEUED then Carries(e, op.m) else IsNotice(e, op.m, Refusal(op.passed)))
  }

  /** Every message sent since place k goes back to one of the operations. */
  ghost predicate AllWritten(n: Net, k: nat, ops: seq<Op>) {
    forall i :: k <= i < |n.sent| ==> SomeWrote(ops, n.sent[i])
  }

  ghost predicate SomeWrote(ops: seq<Op>, e: Envelope) {
    exists op :: op in ops && Wrote(op, e)
  }

  lemma StepWrites(n: Net, op: Op, n': Net, deliver: Envelope -> bool)
    requires Steps(n, op, n', deliver) && NetOk(n, deliver)
    ensures NetOk(n', deliver) && n.sent <= n'.sent
    ensures forall i :: |n.sent| <= i < |n'.sent| ==> Wrote(op, n'.sent[i])
  {
    match op
    case OpSend(agents, suspended, f, m, passed) =>
      SendCarries(n, agents, suspended, f, m, passed);
      SendQueuesAtMostOne(n, agents, suspended, f, m, passed);
      if n' != n {
        var e :| Queueable(n, e) && n' == Queued(n, e);
        QueuedOk(n, e, deliver);
      }
    case OpTurn(a, accepting) => TurnWorks(n, a, accepting, deliver);
    case OpRestart => RestartOk(n, deliver);
  }

  lemma {:induction false} RunWrites(ns: seq<Net>, ops: seq<Op>, deliver: Envelope -> bool)
    requires Trace(ns, ops, deliver) && NetOk(ns[0], deliver)
    ensures NetOk(ns[|ops|], deliver) && ns[0].sent <= ns[|ops|].sent && AllWritten(ns[|ops|], |ns[0].sent|, ops)
    decreases |ops|
  {
    if ops != [] {
      var k := |ops| - 1;
      RunWrites(ns[..|ops|], ops[..k], deliver);
      assert ns[..|ops|][k] == ns[k] && ns[..|ops|][0] == ns[0] && Steps(ns[k], ops[k], ns[k + 1], deliver);
      StepWrites(ns[k], ops[k], ns[k + 1], deliver);
      var n, n' := ns[k], ns[k + 1];
      forall i | |ns[0].sent| <= i < |n'.sent|
        ensures SomeWrote(ops, n'.sent[i])
      {
        if i < |n.sent| {
          assert n'.sent[i] == n.sent[i] && SomeWrote(ops[..k], n.sent[i]);
          var op :| op in ops[..k] && Wrote(op, n.sent[i]);
          assert op in ops;
        } else {
          assert ops[k] in ops && Wrote(ops[k], n'.sent[i]);
        }
      }
    }
  }

  /**
   Over every run of sends, turns and restarts from an empty mail: whatever has been delivered, waits or is dead
   has the sender, recipient, text and tag of a message that was accepted, or is a notice of the system about one
   that was refused. Nobody is heard under another name.
   */
  lemma HeardAsSent(ns: seq<Net>, ops: seq<Op>, deliver: Envelope -> bool, e: Envelope)
    requires Trace(ns, ops, deliver) && ns[0] == NO_MAIL
    requires e in ns[|ops|].delivered || e in ns[|ops|].dlq || e in Bucket(ns[|ops|], e.to)
    ensures SomeWrote(ops, e)
  {
    var n := ns[|ops|];
    NoMailOk(deliver);
    RunWrites(ns, ops, deliver);
    assert e in n.delivered ==> DeliveredOk(n, e, deliver);
    assert e in n.dlq ==> DeadOk(n, e, deliver);
    assert e in Bucket(n, e.to) ==> PendingOk(n, e.to, e, deliver);
    var first := n.sent[e.msgId];
    assert SomeWrote(ops, first);
    var op :| op in ops && Wrote(op, first);
    assert e == first.(attempts := e.attempts);
    assert Wrote(op, e);
  }

  // ------------------------------------------------------------ the runs of Mail are these

  /** One operation is at most one step of the mail; a send that is accepted, or refused with a notice, is one that queues. */
  lemma OneStep(n: Net, op: Op, n': Net, deliver: Envelope -> bool) returns (steps: seq<Mail.Op>)
    requires Steps(n, op, n', deliver)
    ensures |steps| <= 1 && Mail.Run(n, steps, deliver) == n'
    ensures op.OpSend? && Refusal(op.passed) == QUEUED ==> |n'.sent| == |n.sent| + 1
  {
    match op
    case OpSend(agents, suspended, f, m, passed) =>
      SendQueuesAtMostOne(n, agents, suspended, f, m, passed);
      if n' == n {
        steps := [];
      } else {
        var e :| Queueable(n, e) && n' == Queued(n, e);
        steps := [Mail.OpQueue(e)];
        RunOne(n, Mail.OpQueue(e), deliver);
      }
    case OpTurn(a, accepting) =>
      steps := [if accepting then Mail.OpDispatch(a) else Mail.OpRotate(a)];
      RunOne(n, steps[0], deliver);
    case OpRestart =>
      steps := [Mail.OpRestart];
      RunOne(n, Mail.OpRestart, deliver);
  }

  lemma RunOne(n: Net, step: Mail.Op, deliver: Envelope -> bool)
    ensures Mail.Run(n, [step], deliver) == Mail.Step(n, step, deliver)
  {
    assert [step][1..] == [];
  }

  lemma {:induction false} RunConcat(n: Net, a: seq<Mail.Op>, b: seq<Mail.Op>, deliver: Envelope -> bool)
    ensures Mail.Run(n, a + b, deliver) == Mail.Run(Mail.Run(n, a, deliver), b, deliver)
    decreases |a|
  {
    if a == [] {
      assert a + b == b;
    } else {
      assert (a + b)[0] == a[0] && (a + b)[1..] == a[1..] + b;
      RunConcat(Mail.Step(n, a[0], deliver), a[1..], b, deliver);
    }
  }

  /** So every run of sends, turns and restarts is a run of the mail, and all that is proved of those holds of it. */
  lemma {:induction false} TraceIsRun(ns: seq<Net>, ops: seq<Op>, deliver: Envelope -> bool) returns (steps: seq<Mail.Op>)
    requires Trace(ns, ops, deliver)
    ensures Mail.Run(ns[0], steps, deliver) == ns[|ops|]
    decreases |ops|
  {
    if ops == [] {
      steps := [];
    } else {
      var k := |ops| - 1;
      assert forall i :: 0 <= i < k ==> Steps(ns[..|ops|][i], ops[..k][i], ns[..|ops|][i + 1], deliver);
      var before := TraceIsRun(ns[..|ops|], ops[..k], deliver);
      assert Steps(ns[k], ops[k], ns[k + 1], deliver);
      var last := OneStep(ns[k], ops[k], ns[k + 1], deliver);
      RunConcat(ns[0], before, last, deliver);
      steps := before + last;
    }
  }

  /** A queue of n envelopes has at most 3 n attempts left, exactly that many if none was tried, and none iff it is empty or worn out. */
  lemma {:induction false} AttemptsLeft(s: seq<Envelope>)
    ensures Work(s) <= 3 * |s|
    ensures Work(s) == 3 * |s| <==> forall e :: e in s ==> e.attempts == 0
    ensures Work(s) == 0 <==> forall e :: e in s ==> e.attempts >= 3
  {
    if s != [] {
      assert s == s[..|s| - 1] + [s[|s| - 1]];
      AttemptsLeft(s[..|s| - 1]);
    }
  }
}
