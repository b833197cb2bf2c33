/**
 The message queue of one company as a value (modules/orchestrator/streams.py), with the history of what
 was sent, dispatched and delivered, and what dispatching and draining do to it
 (modules/orchestrator/orchestrator.py).
 */
module Mail {
  import opened Common
  import opened Utf8

  type Id = Text

  const MAX_ATTEMPTS := 3

  datatype Envelope = Envelope(msgId: nat, from: Option<Id>, to: Id, content: Text, correlation: Option<Text>, attempts: nat)

  /** The messages that were lost with earlier processes, and how many had been sent before this one. */
  datatype Past = Past(lost: set<nat>, since: nat)

  /** sent, dispatched, delivered and past are histories; the queue, which lives in memory, keeps the other three. */
  datatype Net = Net(
    queues: map<Id, seq<Envelope>>, seen: map<Id, set<Text>>, dlq: seq<Envelope>,
    sent: seq<Envelope>, dispatched: seq<Envelope>, delivered: seq<Envelope>, past: Past)

  const NO_MAIL := Net(map[], map[], [], [], [], [], Past({}, 0))

  function Bucket(n: Net, a: Id): seq<Envelope> {
    if a in n.queues then n.queues[a] else []
  }

  function Seen(n: Net, a: Id): set<Text> {
    if a in n.seen then n.seen[a] else {}
  }

  /** Empty correlation ids count as none. */
  predicate Tagged(e: Envelope) {
    e.correlation.Some? && e.correlation.value != []
  }

  function Push(n: Net, e: Envelope): Net {
    n.(queues := n.queues[e.to := Bucket(n, e.to) + [e]],
       seen := if Tagged(e) then n.seen[e.to := Seen(n, e.to) + {e.correlation.value}] else n.seen)
  }

  /** Looking into a bucket that is not there makes an empty one. */
  function Pop(n: Net, a: Id): Net {
    n.(queues := n.queues[a := if Bucket(n, a) == [] then [] else Bucket(n, a)[1..]])
  }

  /** A new envelope joins the queue. */
  function Queued(n: Net, e: Envelope): Net {
    Push(n, e).(sent := n.sent + [e])
  }

  /** What may be queued: a fresh id, never tried, its tag not seen by the recipient before. */
  predicate Queueable(n: Net, e: Envelope) {
    e.msgId == |n.sent| && e.attempts == 0 && (Tagged(e) ==> e.correlation.value !in Seen(n, e.to))
  }

  /** One delivery attempt of the envelope just popped. */
  function Dispatched(n: Net, e: Envelope, ok: bool): Net {
    var n1 := n.(dispatched := n.dispatched + [e]);
    if ok then n1.(delivered := n.delivered + [e])
    else if e.attempts + 1 >= MAX_ATTEMPTS then n1.(dlq := n.dlq + [e])
    else Push(n1, e.(attempts := e.attempts + 1))
  }

  /** deliver tells, for each envelope at each attempt, whether the agent takes it. */
  function DispatchNext(n: Net, a: Id, deliver: Envelope -> bool): Net {
    if Bucket(n, a) == [] then Pop(n, a) else Dispatched(Pop(n, a), Bucket(n, a)[0], deliver(Bucket(n, a)[0]))
  }

  /** While the company is paused, the head goes back to the tail. */
  function Rotate(n: Net, a: Id): Net {
    if Bucket(n, a) == [] then Pop(n, a) else Push(Pop(n, a), Bucket(n, a)[0])
  }

  /** What is in memory of message i: waiting, or among the dead letters. */
  predicate InMemory(n: Net, i: nat) {
    i < |n.sent| && (Occ(Bucket(n, n.sent[i].to), i) > 0 || Occ(n.dlq, i) > 0)
  }

  /** The company's next process: queues, dead letters and seen tags are gone with the last one. */
  function Restarted(n: Net): Net {
    var lost := set i: nat | i < |n.sent| && InMemory(n, i);
    Net(map[], map[], [], n.sent, n.dispatched, n.delivered, Past(n.past.lost + lost, |n.sent|))
  }

  // ------------------------------------------------------------ runs

  datatype Op = OpQueue(e: Envelope) | OpDispatch(a: Id) | OpRotate(a: Id) | OpRestart

  function Step(n: Net, op: Op, deliver: Envelope -> bool): Net {
    match op
    case OpQueue(e) => if Queueable(n, e) then Queued(n, e) else n
    case OpDispatch(a) => DispatchNext(n, a, deliver)
    case OpRotate(a) => Rotate(n, a)
    case OpRestart => Restarted(n)
  }

  function Run(n: Net, ops: seq<Op>, deliver: Envelope -> bool): Net
    decreases |ops|
  {
    if ops == [] then n else Run(Step(n, ops[0], deliver), ops[1..], deliver)
  }

  /** How often message i occurs. */
  function Occ(s: seq<Envelope>, i: nat): nat {
    if s == [] then 0 else Occ(s[..|s| - 1], i) + (if s[|s| - 1].msgId == i then 1 else 0)
  }

  lemma OccSnoc(s: seq<Envelope>, e: Envelope, i: nat)
    ensures Occ(s + [e], i) == Occ(s, i) + (if e.msgId == i then 1 else 0)
  {
    assert (s + [e])[..|s|] == s;
  }

  lemma OccMaybe(s: seq<Envelope>, e: Envelope, there: bool, i: nat)
    ensures Occ(s + (if there then [e] else []), i) == Occ(s, i) + (if there && e.msgId == i then 1 else 0)
  {
    OccSnoc(s, e, i);
    assert s + [] == s;
  }

  lemma {:induction false} OccTail(s: seq<Envelope>, i: nat)
    requires s != []
    ensures Occ(s[1..], i) == Occ(s, i) - (if s[0].msgId == i then 1 else 0)
    ensures s[0].msgId == i ==> Occ(s, i) >= 1
  {
    if |s| > 1 {
      OccTail(s[..|s| - 1], i);
      assert s[1..][..|s| - 2] == s[..|s| - 1][1..];
    } else {
      assert s[1..] == [] && s[..0] == [];
    }
  }

  lemma {:induction false} OccIn(s: seq<Envelope>, i: nat)
    ensures Occ(s, i) >= 1 <==> exists e :: e in s && e.msgId == i
  {
    if s != [] {
      OccIn(s[..|s| - 1], i);
      if exists e :: e in s && e.msgId == i {
        var e :| e in s && e.msgId == i;
        assert e == s[|s| - 1] || e in s[..|s| - 1];
      }
      assert s[|s| - 1] in s && forall e :: e in s[..|s| - 1] ==> e in s;
    }
  }

  /** e is the message sent under its id, tried some number of times since. */
  predicate Genuine(n: Net, e: Envelope) {
    e.msgId < |n.sent| && e == n.sent[e.msgId].(attempts := e.attempts)
  }

  /** All attempts before the k-th have failed. */
  ghost predicate FailedBefore(e: Envelope, k: nat, deliver: Envelope -> bool) {
    forall j: nat :: j < k ==> !deliver(e.(attempts := j))
  }

  ghost predicate PendingOk(n: Net, a: Id, e: Envelope, deliver: Envelope -> bool) {
    && e.to == a && Genuine(n, e) && e.msgId >= n.past.since && e.attempts < MAX_ATTEMPTS
    && Occ(n.dispatched, e.msgId) == e.attempts
    && FailedBefore(e, e.attempts, deliver)
  }

  ghost predicate DeliveredOk(n: Net, e: Envelope, deliver: Envelope -> bool) {
    && Genuine(n, e) && e.attempts < MAX_ATTEMPTS
    && Occ(n.dispatched, e.msgId) == e.attempts + 1
    && FailedBefore(e, e.attempts, deliver) && deliver(e)
  }

  ghost predicate DeadOk(n: Net, e: Envelope, deliver: Envelope -> bool) {
    && Genuine(n, e)
    && Occ(n.dispatched, e.msgId) == MAX_ATTEMPTS
    && FailedBefore(e, MAX_ATTEMPTS, deliver)
  }

  /** Every message sent is in exactly one place: its recipient's queue, delivered, dead, or lost with a process. */
  ghost predicate InOnePlace(n: Net, i: nat) {
    if i < |n.sent| then
      Occ(Bucket(n, n.sent[i].to), i) + Occ(n.delivered, i) + Occ(n.dlq, i) + (if i in n.past.lost then 1 else 0) == 1
    else Occ(n.dispatched, i) == 0 && Occ(n.delivered, i) == 0 && Occ(n.dlq, i) == 0 && i !in n.past.lost
  }

  /** A message with that tag has been queued for that agent since the process started. */
  ghost predicate WasQueued(n: Net, a: Id, tag: Text) {
    exists i: nat :: n.past.since <= i < |n.sent| && n.sent[i].to == a && n.sent[i].correlation == Some(tag)
  }

  /** The tags seen are those of the messages this process has sent, and no recipient was sent one of them twice. */
  ghost predicate TagsUnique(n: Net) {
    && n.past.since <= |n.sent|
    && (forall a, tag :: tag in Seen(n, a) ==> WasQueued(n, a, tag))
    && (forall i :: n.past.since <= i < |n.sent| && Tagged(n.sent[i]) ==> n.sent[i].correlation.value in Seen(n, n.sent[i].to))
    && (forall i, j :: n.past.since <= i < j < |n.sent| && Tagged(n.sent[i]) && n.sent[i].to == n.sent[j].to ==>
          n.sent[i].correlation != n.sent[j].correlation)
  }

  ghost predicate NetOk(n: Net, deliver: Envelope -> bool) {
    && (forall i :: 0 <= i < |n.sent| ==> n.sent[i].msgId == i && n.sent[i].attempts == 0)
    && (forall a, e :: e in Bucket(n, a) ==> PendingOk(n, a, e, deliver))
    && (forall e :: e in n.delivered ==> DeliveredOk(n, e, deliver))
    && (forall e :: e in n.dlq ==> DeadOk(n, e, deliver))
    && (forall i: nat :: InOnePlace(n, i))
    && TagsUnique(n)
  }

  /** The first process starts as any other. */
  lemma NoMailOk(deliver: Envelope -> bool)
    ensures NetOk(NO_MAIL, deliver) && Restarted(NO_MAIL) == NO_MAIL
  {
    assert Restarted(NO_MAIL).past.lost == {};
  }

  // ------------------------------------------------------------ queueing a message

  lemma QueuedOk(n: Net, e: Envelope, deliver: Envelope -> bool)
    requires NetOk(n, deliver) && Queueable(n, e)
    ensures NetOk(Queued(n, e), deliver)
  {
    var n' := Queued(n, e);
    assert forall x :: Genuine(n, x) ==> Genuine(n', x);
    assert InOnePlace(n, e.msgId);
    QueuedTags(n, e);
    forall a, x | x in Bucket(n', a)
      ensures PendingOk(n', a, x, deliver)
    {
      if a == e.to && x == e {
      } else {
        assert x in Bucket(n, a) && PendingOk(n, a, x, deliver);
      }
    }
    forall x | x in n'.delivered
      ensures DeliveredOk(n', x, deliver)
    {
      assert DeliveredOk(n, x, deliver);
    }
    forall x | x in n'.dlq
      ensures DeadOk(n', x, deliver)
    {
      assert DeadOk(n, x, deliver);
    }
    forall i: nat
      ensures InOnePlace(n', i)
    {
      QueuedOnePlace(n, e, i, deliver);
    }
  }

  lemma QueuedTags(n: Net, e: Envelope)
    requires TagsUnique(n) && Queueable(n, e)
    ensures TagsUnique(Queued(n, e))
  {
    var n' := Queued(n, e);
    forall a, tag | tag in Seen(n', a)
      ensures WasQueued(n', a, tag)
    {
      if tag in Seen(n, a) {
        var i: nat :| n.past.since <= i < |n.sent| && n.sent[i].to == a && n.sent[i].correlation == Some(tag);
        assert n'.sent[i] == n.sent[i];
      } else {
        assert n'.sent[|n.sent|] == e;
      }
    }
  }

  /** has_correlation tells whether a message with that tag has been queued for the agent since the process started. */
  lemma SeenIsSent(n: Net, deliver: Envelope -> bool, a: Id, tag: Text)
    requires NetOk(n, deliver) && tag != []
    ensures tag in Seen(n, a) <==> WasQueued(n, a, tag)
  {
    if WasQueued(n, a, tag) {
      var i: nat :| n.past.since <= i < |n.sent| && n.sent[i].to == a && n.sent[i].correlation == Some(tag);
      assert Tagged(n.sent[i]);
    }
  }

  lemma QueuedOnePlace(n: Net, e: Envelope, i: nat, deliver: Envelope -> bool)
    requires NetOk(n, deliver) && Queueable(n, e)
    ensures InOnePlace(Queued(n, e), i)
  {
    assert InOnePlace(n, i);
    OccSnoc(Bucket(n, e.to), e, i);
    if i == e.msgId {
      NotYetPending(n, e.to, i, deliver);
    }
  }

  lemma NotYetPending(n: Net, a: Id, i: nat, deliver: Envelope -> bool)
    requires NetOk(n, deliver) && i >= |n.sent|
    ensures Occ(Bucket(n, a), i) == 0
  {
    OccIn(Bucket(n, a), i);
    forall e | e in Bucket(n, a)
      ensures e.msgId != i
    {
      assert PendingOk(n, a, e, deliver);
    }
  }

  // ------------------------------------------------------------ dispatching and rotating

  /** The one pending copy of the head's id is the head. */
  lemma HeadIsOnly(n: Net, a: Id, deliver: Envelope -> bool)
    requires NetOk(n, deliver) && Bucket(n, a) != []
    ensures
      var e := Bucket(n, a)[0];
      && PendingOk(n, a, e, deliver)
      && (forall x :: x in Bucket(n, a)[1..] ==> x.msgId != e.msgId)
      && (forall x :: x in n.delivered ==> x.msgId != e.msgId)
      && (forall x :: x in n.dlq ==> x.msgId != e.msgId)
      && (forall b, x :: b != a && x in Bucket(n, b) ==> x.msgId != e.msgId)
  {
    var e := Bucket(n, a)[0];
    assert e in Bucket(n, a) && PendingOk(n, a, e, deliver);
    assert InOnePlace(n, e.msgId);
    OccTail(Bucket(n, a), e.msgId);
    OccIn(Bucket(n, a)[1..], e.msgId);
    OccIn(n.delivered, e.msgId);
    OccIn(n.dlq, e.msgId);
    forall b, x | b != a && x in Bucket(n, b)
      ensures x.msgId != e.msgId
    {
      assert PendingOk(n, b, x, deliver);
    }
  }

  lemma PopNothingOk(n: Net, a: Id, deliver: Envelope -> bool)
    requires NetOk(n, deliver) && Bucket(n, a) == []
    ensures NetOk(Pop(n, a), deliver)
  {
    var n' := Pop(n, a);
    assert forall b :: Bucket(n', b) == Bucket(n, b);
    assert forall b, x :: PendingOk(n, b, x, deliver) ==> PendingOk(n', b, x, deliver);
    assert forall b, tag :: WasQueued(n, b, tag) ==> WasQueued(n', b, tag);
    assert forall x :: DeliveredOk(n, x, deliver) ==> DeliveredOk(n', x, deliver);
    assert forall x :: DeadOk(n, x, deliver) ==> DeadOk(n', x, deliver);
    assert forall i: nat :: InOnePlace(n, i) ==> InOnePlace(n', i);
  }

  /** The head e of a's queue went through one attempt. */
  ghost predicate Tried(n: Net, n': Net, a: Id, e: Envelope, ok: bool) {
    var dies := e.attempts + 1 >= MAX_ATTEMPTS;
    && Bucket(n, a) != [] && e == Bucket(n, a)[0]
    && n'.sent == n.sent && n'.past == n.past && n'.dispatched == n.dispatched + [e]
    && (forall b :: b != a ==> Bucket(n', b) == Bucket(n, b))
    && Bucket(n', a) == Bucket(n, a)[1..] + (if ok || dies then [] else [e.(attempts := e.attempts + 1)])
    && n'.delivered == n.delivered + (if ok then [e] else [])
    && n'.dlq == n.dlq + (if !ok && dies then [e] else [])
  }

  /** At most the tag of e was seen in addition. */
  ghost predicate SeenGrows(n: Net, n': Net, e: Envelope) {
    && (forall a :: Seen(n, a) <= Seen(n', a))
    && (forall a, tag :: tag in Seen(n', a) ==> Accounted(n, e, a, tag))
  }

  predicate Accounted(n: Net, e: Envelope, a: Id, tag: Text) {
    tag in Seen(n, a) || (a == e.to && e.correlation == Some(tag))
  }

  lemma DispatchTries(n: Net, a: Id, deliver: Envelope -> bool)
    requires Bucket(n, a) != [] && Bucket(n, a)[0].to == a
    ensures Tried(n, DispatchNext(n, a, deliver), a, Bucket(n, a)[0], deliver(Bucket(n, a)[0]))
    ensures SeenGrows(n, DispatchNext(n, a, deliver), Bucket(n, a)[0])
  {
  }

  lemma DispatchOk(n: Net, a: Id, deliver: Envelope -> bool)
    requires NetOk(n, deliver)
    ensures NetOk(DispatchNext(n, a, deliver), deliver)
  {
    if Bucket(n, a) == [] {
      PopNothingOk(n, a, deliver);
    } else {
      HeadIsOnly(n, a, deliver);
      DispatchTries(n, a, deliver);
      TriedOk(n, DispatchNext(n, a, deliver), a, Bucket(n, a)[0], deliver);
    }
  }

  lemma TriedOk(n: Net, n': Net, a: Id, e: Envelope, deliver: Envelope -> bool)
    requires NetOk(n, deliver) && Tried(n, n', a, e, deliver(e))
    requires SeenGrows(n, n', e)
    ensures NetOk(n', deliver)
  {
    HeadIsOnly(n, a, deliver);
    forall b, x | x in Bucket(n', b)
      ensures PendingOk(n', b, x, deliver)
    {
      TriedPending(n, n', a, e, deliver, b, x);
    }
    forall x | x in n'.delivered
      ensures DeliveredOk(n', x, deliver)
    {
      OccSnoc(n.dispatched, e, x.msgId);
      assert x == e || DeliveredOk(n, x, deliver);
    }
    forall x | x in n'.dlq
      ensures DeadOk(n', x, deliver)
    {
      OccSnoc(n.dispatched, e, x.msgId);
      assert x == e || DeadOk(n, x, deliver);
    }
    forall i: nat
      ensures InOnePlace(n', i)
    {
      TriedOnePlace(n, n', a, e, deliver, i);
    }
    SeenKeepsTags(n, n', e);
  }

  lemma TriedPending(n: Net, n': Net, a: Id, e: Envelope, deliver: Envelope -> bool, b: Id, x: Envelope)
    requires NetOk(n, deliver) && Tried(n, n', a, e, deliver(e)) && x in Bucket(n', b)
    ensures PendingOk(n', b, x, deliver)
  {
    HeadIsOnly(n, a, deliver);
    OccSnoc(n.dispatched, e, x.msgId);
    var again := e.(attempts := e.attempts + 1);
    if b == a && x == again && x !in Bucket(n, a)[1..] {
      forall j: nat | j < again.attempts
        ensures !deliver(again.(attempts := j))
      {
        assert again.(attempts := j) == e.(attempts := j);
      }
    } else {
      assert x in Bucket(n, b) && PendingOk(n, b, x, deliver);
    }
  }

  lemma TriedOnePlace(n: Net, n': Net, a: Id, e: Envelope, deliver: Envelope -> bool, i: nat)
    requires NetOk(n, deliver) && Tried(n, n', a, e, deliver(e))
    ensures InOnePlace(n', i)
  {
    var popped := Bucket(n, a)[1..];
    assert e in Bucket(n, a) && PendingOk(n, a, e, deliver);
    assert InOnePlace(n, i);
    var ok, dies, again := deliver(e), e.attempts + 1 >= MAX_ATTEMPTS, e.(attempts := e.attempts + 1);
    OccSnoc(n.dispatched, e, i);
    OccMaybe(n.delivered, e, ok, i);
    OccMaybe(n.dlq, e, !ok && dies, i);
    OccMaybe(popped, again, !(ok || dies), i);
    assert Bucket(n', a) == popped + (if !(ok || dies) then [again] else []);
    MovedOnce(n, n', a, i);
  }

  /** The head of a's queue moved to one of the three places, and nothing else moved. */
  lemma MovedOnce(n: Net, n': Net, a: Id, i: nat)
    requires Bucket(n, a) != [] && InOnePlace(n, i)
    requires var e := Bucket(n, a)[0]; e.msgId < |n.sent| && n.sent[e.msgId].to == a
    requires n'.sent == n.sent && n'.past == n.past
    requires forall b :: b != a ==> Bucket(n', b) == Bucket(n, b)
    requires Bucket(n, a)[0].msgId != i ==> Occ(n'.dispatched, i) == Occ(n.dispatched, i)
    requires Occ(n'.delivered, i) >= Occ(n.delivered, i) && Occ(n'.dlq, i) >= Occ(n.dlq, i)
    requires var e := Bucket(n, a)[0]; var hit := if e.msgId == i then 1 else 0;
      && Occ(Bucket(n', a), i) + Occ(n'.delivered, i) + Occ(n'.dlq, i)
         == Occ(Bucket(n, a)[1..], i) + Occ(n.delivered, i) + Occ(n.dlq, i) + hit
      && (hit == 0 ==> Occ(Bucket(n', a), i) == Occ(Bucket(n, a)[1..], i))
    ensures InOnePlace(n', i)
  {
    OccTail(Bucket(n, a), i);
  }

  /** Seeing the tag of a message once more, which was sent before. */
  lemma SeenKeepsTags(n: Net, n': Net, e: Envelope)
    requires TagsUnique(n) && n'.sent == n.sent && n'.past == n.past && SeenGrows(n, n', e)
    requires Genuine(n, e) && e.msgId >= n.past.since
    ensures TagsUnique(n')
  {
    forall a, tag | tag in Seen(n', a)
      ensures WasQueued(n', a, tag)
    {
      assert Accounted(n, e, a, tag);
      if tag in Seen(n, a) {
        assert WasQueued(n, a, tag);
        var i: nat :| n.past.since <= i < |n.sent| && n.sent[i].to == a && n.sent[i].correlation == Some(tag);
        assert n'.sent[i].to == a;
      } else {
        var first := n.sent[e.msgId];
        assert e == first.(attempts := e.attempts);
        assert n'.sent[e.msgId] == first;
      }
    }
  }

  lemma RotateOk(n: Net, a: Id, deliver: Envelope -> bool)
    requires NetOk(n, deliver)
    ensures NetOk(Rotate(n, a), deliver)
  {
    if Bucket(n, a) == [] {
      PopNothingOk(n, a, deliver);
    } else {
      var n', e := Rotate(n, a), Bucket(n, a)[0];
      assert e in Bucket(n, a) && PendingOk(n, a, e, deliver);
      TurnedOk(n, n', a, e, deliver);
    }
  }

  lemma TurnedOk(n: Net, n': Net, a: Id, e: Envelope, deliver: Envelope -> bool)
    requires NetOk(n, deliver) && e in Bucket(n, a) && PendingOk(n, a, e, deliver) && Bucket(n, a)[0] == e
    requires Bucket(n', a) == Bucket(n, a)[1..] + [e] && (forall b :: b != a ==> Bucket(n', b) == Bucket(n, b))
    requires n'.sent == n.sent && n'.past == n.past
    requires n'.dispatched == n.dispatched && n'.delivered == n.delivered && n'.dlq == n.dlq
    requires SeenGrows(n, n', e)
    ensures NetOk(n', deliver)
  {
    var popped := Bucket(n, a)[1..];
    assert Bucket(n, a) == [e] + popped;
    forall b, x | x in Bucket(n', b)
      ensures PendingOk(n', b, x, deliver)
    {
      if b == a {
        assert x in [e] + popped;
      }
      assert x in Bucket(n, b) && PendingOk(n, b, x, deliver);
    }
    forall i: nat
      ensures InOnePlace(n', i)
    {
      OccSnoc(popped, e, i);
      MovedOnce(n, n', a, i);
    }
    assert forall x :: DeliveredOk(n, x, deliver) ==> DeliveredOk(n', x, deliver);
    assert forall x :: DeadOk(n, x, deliver) ==> DeadOk(n', x, deliver);
    SeenKeepsTags(n, n', e);
  }

  /** A restart loses what is in memory, and nothing else. */
  lemma RestartOk(n: Net, deliver: Envelope -> bool)
    requires NetOk(n, deliver)
    ensures NetOk(Restarted(n), deliver)
    ensures forall i: nat :: i in Restarted(n).past.lost <==> i in n.past.lost || InMemory(n, i)
  {
    var n' := Restarted(n);
    forall e | e in n'.delivered
      ensures DeliveredOk(n', e, deliver)
    {
      assert DeliveredOk(n, e, deliver);
    }
    forall i: nat
      ensures InOnePlace(n', i)
    {
      assert InOnePlace(n, i);
    }
  }

  /**
   Conservation, over every run of queueing, dispatching, rotating and restarting: each message sent is in
   exactly one of its recipient's queue, the delivered, the dead and those lost with a process; one in the
   queue has been tried once per recorded attempt and at most three times; one is delivered after failed
   attempts only, dead after three failed ones; and no process sends a recipient two messages with one tag.
   */
  lemma {:induction false} RunConservesMail(n: Net, ops: seq<Op>, deliver: Envelope -> bool)
    requires NetOk(n, deliver)
    ensures NetOk(Run(n, ops, deliver), deliver)
    decreases |ops|
  {
    if ops != [] {
      match ops[0] {
        case OpQueue(e) => if Queueable(n, e) { QueuedOk(n, e, deliver); }
        case OpDispatch(a) => DispatchOk(n, a, deliver);
        case OpRotate(a) => RotateOk(n, a, deliver);
        case OpRestart => RestartOk(n, deliver);
      }
      RunConservesMail(Step(n, ops[0], deliver), ops[1..], deliver);
    }
  }

  /** The fate of a message that is neither pending nor lost depends on its three possible attempts alone. */
  lemma FateOfMessage(n: Net, i: nat, deliver: Envelope -> bool)
    requires NetOk(n, deliver) && i < |n.sent| && i !in n.past.lost && Occ(Bucket(n, n.sent[i].to), i) == 0
    ensures Occ(n.delivered, i) == 1 <==> exists k: nat :: k < MAX_ATTEMPTS && deliver(n.sent[i].(attempts := k))
    ensures Occ(n.dlq, i) == 1 <==> FailedBefore(n.sent[i], MAX_ATTEMPTS, deliver)
    ensures 1 <= Occ(n.dispatched, i) <= MAX_ATTEMPTS
  {
    assert InOnePlace(n, i);
    OccIn(n.delivered, i);
    OccIn(n.dlq, i);
    if Occ(n.delivered, i) == 1 {
      var e :| e in n.delivered && e.msgId == i;
      assert DeliveredOk(n, e, deliver);
      assert e == n.sent[i].(attempts := e.attempts);
    } else {
      var e :| e in n.dlq && e.msgId == i;
      assert DeadOk(n, e, deliver);
      forall k: nat | k < MAX_ATTEMPTS
        ensures !deliver(n.sent[i].(attempts := k))
      {
        assert n.sent[i].(attempts := k) == e.(attempts := k);
      }
    }
  }

  // ------------------------------------------------------------ draining

  /** How many attempts the envelopes of a bucket still have. */
  function Work(s: seq<Envelope>): nat {
    if s == [] then 0
    else Work(s[..|s| - 1]) + (if s[|s| - 1].attempts < MAX_ATTEMPTS then MAX_ATTEMPTS - s[|s| - 1].attempts else 0)
  }

  lemma WorkSnoc(s: seq<Envelope>, e: Envelope)
    ensures Work(s + [e]) == Work(s) + (if e.attempts < MAX_ATTEMPTS then MAX_ATTEMPTS - e.attempts else 0)
  {
    assert (s + [e])[..|s|] == s;
  }

  lemma {:induction false} WorkTail(s: seq<Envelope>)
    requires s != []
    ensures Work(s) == Work(s[1..]) + (if s[0].attempts < MAX_ATTEMPTS then MAX_ATTEMPTS - s[0].attempts else 0)
  {
    if |s| > 1 {
      WorkTail(s[..|s| - 1]);
      assert s[1..][..|s| - 2] == s[..|s| - 1][1..];
    } else {
      assert s[1..] == [] && s[..0] == [];
    }
  }

  function Rotated(s: seq<Envelope>): seq<Envelope> {
    if s == [] then [] else s[1..] + [s[0]]
  }

  /** What one turn does to the queue of its agent. */
  ghost predicate Turned(n: Net, n': Net, a: Id, accepting: bool) {
    if accepting then Work(Bucket(n', a)) < Work(Bucket(n, a)) || (Bucket(n, a) == [] && Bucket(n', a) == [])
    else Bucket(n', a) == Rotated(Bucket(n, a))
  }

  function Turn(n: Net, a: Id, accepting: bool, deliver: Envelope -> bool): Net {
    if accepting then DispatchNext(n, a, deliver) else Rotate(n, a)
  }

  /** Each turn uses up at least one attempt of its own agent's queue, or leaves it empty, and no other queue changes. */
  lemma TurnWorks(n: Net, a: Id, accepting: bool, deliver: Envelope -> bool)
    requires NetOk(n, deliver)
    ensures
      var n' := Turn(n, a, accepting, deliver);
      && NetOk(n', deliver) && n'.sent == n.sent && n'.past == n.past && Turned(n, n', a, accepting)
      && (forall b :: b != a ==> Bucket(n', b) == Bucket(n, b))
      && |n'.dispatched| == |n.dispatched| + (if accepting && Bucket(n, a) != [] then 1 else 0)
      && (!accepting ==> n'.dispatched == n.dispatched && n'.delivered == n.delivered && n'.dlq == n.dlq)
  {
    if Bucket(n, a) != [] {
      HeadIsOnly(n, a, deliver);
    }
    if accepting {
      DispatchOk(n, a, deliver);
      if Bucket(n, a) != [] {
        DispatchTries(n, a, deliver);
        TriedWorks(n, DispatchNext(n, a, deliver), a, deliver);
      }
    } else {
      RotateOk(n, a, deliver);
    }
  }

  lemma TriedWorks(n: Net, n': Net, a: Id, deliver: Envelope -> bool)
    requires Bucket(n, a) != [] && Bucket(n, a)[0].attempts < MAX_ATTEMPTS
    requires Tried(n, n', a, Bucket(n, a)[0], deliver(Bucket(n, a)[0]))
    ensures Work(Bucket(n', a)) < Work(Bucket(n, a))
  {
    var e, popped := Bucket(n, a)[0], Bucket(n, a)[1..];
    WorkTail(Bucket(n, a));
    WorkSnoc(popped, e.(attempts := e.attempts + 1));
    assert popped + [] == popped;
  }

  lemma MailIsWork(n: Net, a: Id, deliver: Envelope -> bool)
    requires NetOk(n, deliver)
    ensures Bucket(n, a) != [] ==> Work(Bucket(n, a)) > 0
  {
    if Bucket(n, a) != [] {
      var e := Bucket(n, a)[|Bucket(n, a)| - 1];
      assert e in Bucket(n, a) && PendingOk(n, a, e, deliver);
    }
  }

  /** The first i agents had their turn since start, nobody else. */
  ghost predicate TurnsTaken(start: Net, n: Net, agents: seq<Id>, i: nat, accepting: bool)
    requires i <= |agents|
  {
    && (forall k :: 0 <= k < i ==> Turned(start, n, agents[k], accepting))
    && (forall a :: a !in agents[..i] ==> Bucket(n, a) == Bucket(start, a))
  }

  lemma NextTurn(start: Net, n: Net, n': Net, agents: seq<Id>, i: nat, accepting: bool)
    requires i < |agents| && NoDup(agents) && TurnsTaken(start, n, agents, i, accepting)
    requires Turned(n, n', agents[i], accepting)
    requires forall b :: b != agents[i] ==> Bucket(n', b) == Bucket(n, b)
    ensures TurnsTaken(start, n', agents, i + 1, accepting)
  {
    assert agents[..i + 1] == agents[..i] + [agents[i]];
    assert Bucket(n, agents[i]) == Bucket(start, agents[i]);
    forall k | 0 <= k < i + 1
      ensures Turned(start, n', agents[k], accepting)
    {
      assert k < i ==> agents[k] != agents[i] && Turned(start, n, agents[k], accepting);
    }
  }
}
