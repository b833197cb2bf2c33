/** Sending, dispatching and draining messages (modules/orchestrator/orchestrator.py, streams.py). */
module Orchestration {
  import opened Common
  import opened Utf8
  import opened Mail

  const MAX_CONTENT_BYTES := 256 * 1024
  const STRIKES_BEFORE_SUSPEND := 3

  /** RAISED is the encoding error a lone surrogate in the content raises. */
  datatype SendResult =
    TOO_LARGE | INVALID_TARGET | PAUSED | RATE_LIMITED | LOOPED | DUPLICATE | QUEUED | RAISED

  /** What the org, the clock, the rate limiter and the loop detector say during one call. */
  datatype Facts = Facts(active: set<Id>, accepting: bool, withinRate: bool, loops: bool)

  function Ascii(s: string): Text {
    seq(|s|, i requires 0 <= i < |s| => var c: int := s[i] as int; if c < 0x80 then c else 0)
  }

  function Undeliverable(to: Id): Text {
    Ascii("Recipient ") + to + Ascii(" is not deliverable.")
  }

  const SLOW_DOWN := Ascii("rate limit reached, slow down")

  /** The first-in first-out buckets, one per agent. */
  class MessageQueue {
    var queues: map<Id, seq<Envelope>>
    var seen: map<Id, set<Text>>
    var dlq: seq<Envelope>

    constructor ()
      ensures queues == map[] && seen == map[] && dlq == []
    {
      queues, seen, dlq := map[], map[], [];
    }

    method Push(e: Envelope)
      modifies this`queues, this`seen
      ensures queues == old(queues)[e.to := (if e.to in old(queues) then old(queues)[e.to] else []) + [e]]
      ensures seen == (if Tagged(e)
                then old(seen)[e.to := (if e.to in old(seen) then old(seen)[e.to] else {}) + {e.correlation.value}]
                else old(seen))
    {
      var bucket := if e.to in queues then queues[e.to] else [];
      queues := queues[e.to := bucket + [e]];
      if e.correlation.Some? && e.correlation.value != [] {
        var tags := if e.to in seen then seen[e.to] else {};
        seen := seen[e.to := tags + {e.correlation.value}];
      }
    }

    /** An empty bucket is left behind where there was none. */
    method Pop(a: Id) returns (e: Option<Envelope>)
      modifies this`queues
      ensures e == if a in old(queues) && old(queues)[a] != [] then Some(old(queues)[a][0]) else None
      ensures queues == old(queues)[a := if e.Some? then old(queues)[a][1..] else []]
    {
      if a !in queues || queues[a] == [] {
        queues := queues[a := []];
        return None;
      }
      e := Some(queues[a][0]);
      queues := queues[a := queues[a][1..]];
    }

    method HasCorrelation(a: Id, tag: Text) returns (r: bool)
      ensures r <==> a in seen && tag in seen[a]
    {
      r := a in seen && tag in seen[a];
    }

    method ToDlq(e: Envelope)
      modifies this`dlq
      ensures dlq == old(dlq) + [e]
    {
      dlq := dlq + [e];
    }
  }

  // ------------------------------------------------------------ sending

  datatype Message = Message(from: Option<Id>, to: Id, content: Text, correlation: Option<Text>)

  const GATE_COUNT := 9
  const RECIPIENT_GATE := 3
  const RATE_GATE := 6
  const LOOP_GATE := 7

  /** The gates a message must pass, in this order; a message of the system has no sender to be checked. */
  predicate Open(n: Net, agents: seq<Id>, suspended: set<Id>, f: Facts, m: Message, gate: nat) {
    match gate
    case 0 => Encodable(m.content)
    case 1 => |Encode(m.content)| <= MAX_CONTENT_BYTES
    case 2 => m.from.Some? ==> m.from.value in f.active
    case 3 => m.to in f.active && m.to !in suspended
    case 4 => m.to in agents
    case 5 => f.accepting
    case 6 => m.from.Some? ==> f.withinRate
    case 7 => m.from.Some? ==> !f.loops
    case 8 => m.correlation.Some? && m.correlation.value != [] ==> m.correlation.value !in Seen(n, m.to)
    case _ => false
  }

  /** What the sender is told when that gate is the first closed one. */
  function Refusal(gate: nat): SendResult {
    match gate
    case 0 => RAISED
    case 1 => TOO_LARGE
    case 5 => PAUSED
    case 6 => RATE_LIMITED
    case 7 => LOOPED
    case 8 => DUPLICATE
    case _ => if gate < GATE_COUNT then INVALID_TARGET else QUEUED
  }

  /** Exactly the first `passed` gates are open before the first closed one, or all of them. */
  ghost predicate Passes(n: Net, agents: seq<Id>, suspended: set<Id>, f: Facts, m: Message, passed: nat) {
    && passed <= GATE_COUNT
    && !Open(n, agents, suspended, f, m, passed)
    && (forall gate: nat :: gate < passed ==> Open(n, agents, suspended, f, m, gate))
  }

  function EnvelopeOf(n: Net, m: Message): Envelope {
    Envelope(|n.sent|, m.from, m.to, m.content, m.correlation, 0)
  }

  /** A message of the system is queued if every gate is open and has no other effect. */
  ghost function Noticed(n: Net, agents: seq<Id>, suspended: set<Id>, f: Facts, to: Id, content: Text): Net {
    var m := Message(None, to, content, None);
    if Passes(n, agents, suspended, f, m, GATE_COUNT) then Queued(n, EnvelopeOf(n, m)) else n
  }

  function Strikes(strikes: map<Id, nat>, a: Id): nat {
    if a in strikes then strikes[a] else 0
  }

  /** How often each agent was found in a loop, and who is suspended. */
  datatype Loops = Loops(strikes: map<Id, nat>, suspended: set<Id>)

  function Struck(l: Loops, a: Id): Loops {
    var n := Strikes(l.strikes, a) + 1;
    Loops(l.strikes[a := n], if n >= STRIKES_BEFORE_SUSPEND then l.suspended + {a} else l.suspended)
  }

  /** Whom the rate limiter knows the sender as. */
  function RateKey(from: Id): Id {
    if from == [] then Ascii("?") else from
  }

  /** What one send leaves in the mail, by how many gates it passed. */
  ghost function AfterSend(n: Net, agents: seq<Id>, suspended: set<Id>, f: Facts, m: Message, passed: nat): Net {
    if passed == GATE_COUNT then Queued(n, EnvelopeOf(n, m))
    else if passed == RECIPIENT_GATE && m.from.Some? then
      Noticed(n, agents, suspended, f, m.from.value, Undeliverable(m.to))
    else if passed == RATE_GATE && m.from.Some? then
      Noticed(n, agents, suspended, f, RateKey(m.from.value), SLOW_DOWN)
    else n
  }

  /** At most one envelope is queued by a send, none while the company is not accepting, none twice for one tag. */
  lemma SendQueuesAtMostOne(n: Net, agents: seq<Id>, suspended: set<Id>, f: Facts, m: Message, passed: nat)
    requires Passes(n, agents, suspended, f, m, passed)
    ensures
      var n' := AfterSend(n, agents, suspended, f, m, passed);
      || n' == n
      || exists e ::
           && Queueable(n, e) && n' == Queued(n, e)
           && f.accepting && e.to in agents && e.to in f.active && e.to !in suspended
           && Encodable(e.content) && |Encode(e.content)| <= MAX_CONTENT_BYTES
           && (passed < GATE_COUNT ==> e.from.None?)
  {
    var n' := AfterSend(n, agents, suspended, f, m, passed);
    if n' != n {
      var q :=
        if passed == GATE_COUNT then m
        else if passed == RECIPIENT_GATE then Message(None, m.from.value, Undeliverable(m.to), None)
        else Message(None, RateKey(m.from.value), SLOW_DOWN, None);
      assert Passes(n, agents, suspended, f, q, GATE_COUNT);
      assert Open(n, agents, suspended, f, q, 0) && Open(n, agents, suspended, f, q, 1) && Open(n, agents, suspended, f, q, 3);
      assert Open(n, agents, suspended, f, q, 4) && Open(n, agents, suspended, f, q, 5) && Open(n, agents, suspended, f, q, 8);
      assert Queueable(n, EnvelopeOf(n, q)) && n' == Queued(n, EnvelopeOf(n, q));
    }
  }

  class Orchestrator {
    const queue: MessageQueue
    const deliver: Envelope -> bool
    var agents: seq<Id>
    var suspended: set<Id>
    var strikes: map<Id, nat>
    var sent: seq<Envelope>
    ghost var dispatched: seq<Envelope>
    ghost var delivered: seq<Envelope>
    ghost const past: Past

    ghost function Contents(): Net
      reads this`sent, this`dispatched, this`delivered, queue
    {
      Net(queue.queues, queue.seen, queue.dlq, sent, dispatched, delivered, past)
    }

    ghost predicate Valid()
      reads this, queue
    {
      NoDup(agents) && NetOk(Contents(), deliver)
    }

    /**
     A new process, before being the mail the last one left behind: nobody registered, nothing queued. deliver
     stands for the agents: whether they take an envelope at an attempt.
     */
    constructor (deliver: Envelope -> bool, before: Net)
      requires NetOk(before, deliver)
      ensures Valid() && fresh(queue) && Contents() == Restarted(before) && this.deliver == deliver
      ensures agents == [] && suspended == {} && strikes == map[]
    {
      this.deliver := deliver;
      queue := new MessageQueue();
      agents, suspended, strikes, sent := [], {}, map[], before.sent;
      dispatched, delivered, past := before.dispatched, before.delivered, Restarted(before).past;
      new;
      RestartOk(before, deliver);
    }

    /** Registering again keeps the agent's place in the rounds. */
    method Register(a: Id)
      requires Valid()
      modifies this`agents
      ensures Valid() && agents == if a in old(agents) then old(agents) else old(agents) + [a]
    {
      if a !in agents {
        NoDupAppend(agents, a);
        agents := agents + [a];
      }
    }

    /** A message of the system itself. */
    method Notify(to: Id, content: Text, f: Facts) returns (raised: bool)
      requires Valid()
      modifies this`suspended, this`strikes, this`sent, queue
      ensures Valid() && suspended == old(suspended) && strikes == old(strikes)
      ensures Contents() == Noticed(old(Contents()), agents, suspended, f, to, content)
      ensures raised <==> !Encodable(content)
      decreases 0, 1
    {
      var r, passed := Send(Message(None, to, content, None), f);
      ghost var m := Message(None, to, content, None);
      assert Open(old(Contents()), agents, old(suspended), f, m, LOOP_GATE);
      assert passed > 0 ==> Open(old(Contents()), agents, old(suspended), f, m, 0);
      raised := r == RAISED;
    }

    method Send(m: Message, f: Facts) returns (r: SendResult, ghost passed: nat)
      requires Valid()
      modifies this`suspended, this`strikes, this`sent, queue
      ensures Valid()
      ensures Passes(old(Contents()), agents, old(suspended), f, m, passed)
      ensures Contents() == AfterSend(old(Contents()), agents, old(suspended), f, m, passed)
      ensures r == QUEUED ==> sent == old(sent) + [Envelope(|old(sent)|, m.from, m.to, m.content, m.correlation, 0)]
      ensures r == (
        if passed == RECIPIENT_GATE && m.from.Some? && !Encodable(Undeliverable(m.to)) then RAISED
        else Refusal(passed))
      ensures Loops(strikes, suspended) == old(if passed == LOOP_GATE then Struck(Loops(strikes, suspended), m.to) else Loops(strikes, suspended))
      decreases if m.from.Some? then 1 else 0, 0
    {
      passed := 0;
      if !Encodable(m.content) {
        return RAISED, 0;
      }
      if |Encode(m.content)| > MAX_CONTENT_BYTES {
        return TOO_LARGE, 1;
      }
      if m.from.Some? && m.from.value !in f.active {
        return INVALID_TARGET, 2;
      }
      if m.to !in f.active || m.to in suspended {
        r, passed := INVALID_TARGET, RECIPIENT_GATE;
        if m.from.Some? {
          var raised := Notify(m.from.value, Undeliverable(m.to), f);
          if raised {
            r := RAISED;
          }
        }
        return;
      }
      if m.to !in agents {
        return INVALID_TARGET, 4;
      }
      if !f.accepting {
        return PAUSED, 5;
      }
      if m.from.Some? && !f.withinRate {
        var _ := Notify(RateKey(m.from.value), SLOW_DOWN, f);
        return RATE_LIMITED, RATE_GATE;
      }
      if m.from.Some? && f.loops {
        HandleLoop(m.to);
        return LOOPED, LOOP_GATE;
      }
      if m.correlation.Some? && m.correlation.value != [] {
        var seen := queue.HasCorrelation(m.to, m.correlation.value);
        if seen {
          return DUPLICATE, 8;
        }
      }
      Enqueue(m);
      r, passed := QUEUED, GATE_COUNT;
    }

    method HandleLoop(a: Id)
      modifies this`suspended, this`strikes
      ensures Loops(strikes, suspended) == Struck(old(Loops(strikes, suspended)), a)
    {
      strikes := strikes[a := Strikes(strikes, a) + 1];
      if strikes[a] >= STRIKES_BEFORE_SUSPEND {
        suspended := suspended + {a};
      }
    }

    method Enqueue(m: Message)
      requires Valid() && Queueable(Contents(), EnvelopeOf(Contents(), m))
      modifies this`sent, queue
      ensures Valid() && Contents() == Queued(old(Contents()), EnvelopeOf(old(Contents()), m))
    {
      var e := Envelope(|sent|, m.from, m.to, m.content, m.correlation, 0);
      QueuedOk(Contents(), e, deliver);
      queue.Push(e);
      sent := sent + [e];
    }

    /** One delivery attempt; a failed envelope is queued again until its third attempt. */
    method Dispatch(e: Envelope)
      modifies this`dispatched, this`delivered, queue
      ensures Contents() == Dispatched(old(Contents()), e, deliver(e))
    {
      dispatched := dispatched + [e];
      if deliver(e) {
        delivered := delivered + [e];
      } else {
        var attempts := e.attempts + 1;
        if attempts >= 3 {
          queue.ToDlq(e);
        } else {
          queue.Push(e.(attempts := attempts));
        }
      }
    }

    method Turn(a: Id, accepting: bool) returns (worked: bool)
      requires Valid()
      modifies this`dispatched, this`delivered, queue
      ensures Valid() && Contents() == Mail.Turn(old(Contents()), a, accepting, deliver)
      ensures worked <==> accepting && Bucket(old(Contents()), a) != []
    {
      TurnWorks(Contents(), a, accepting, deliver);
      var e := queue.Pop(a);
      if e.None? {
        return false;
      }
      if !accepting {
        queue.Push(e.value);
        return false;
      }
      Dispatch(e.value);
      worked := true;
    }

    /** One turn per registered agent, in order of registration. */
    method Round(accepting: bool) returns (count: nat, progressed: bool)
      requires Valid()
      modifies this`dispatched, this`delivered, queue
      ensures Valid() && sent == old(sent)
      ensures forall a :: a in agents ==> Turned(old(Contents()), Contents(), a, accepting)
      ensures forall a :: a !in agents ==> Bucket(Contents(), a) == Bucket(old(Contents()), a)
      ensures |dispatched| == |old(dispatched)| + count
      ensures progressed <==> count > 0
      ensures !progressed && accepting ==> forall a :: a in agents ==> Bucket(Contents(), a) == []
      ensures !accepting ==> count == 0 && dispatched == old(dispatched) && delivered == old(delivered) && queue.dlq == old(queue.dlq)
    {
      count, progressed := 0, false;
      ghost var start := Contents();
      for i := 0 to |agents|
        invariant Valid() && sent == old(sent) && TurnsTaken(start, Contents(), agents, i, accepting)
        invariant |dispatched| == |old(dispatched)| + count && (progressed <==> count > 0)
        invariant !progressed && accepting ==> forall k :: 0 <= k < i ==> Bucket(start, agents[k]) == []
        invariant !accepting ==> count == 0 && dispatched == old(dispatched) && delivered == old(delivered) && queue.dlq == old(queue.dlq)
      {
        ghost var before := Contents();
        TurnWorks(before, agents[i], accepting, deliver);
        var worked := Turn(agents[i], accepting);
        NextTurn(start, before, Contents(), agents, i, accepting);
        if worked {
          count, progressed := count + 1, true;
        }
      }
      assert agents[..|agents|] == agents;
    }

    /**
     Dispatches in rounds until one makes no progress. While the company accepts messages, every registered
     agent whose queue has no more attempts left than there are rounds allowed ends with an empty queue; the
     count is that of the attempts, failed ones included. While it is paused nothing is dispatched, and the
     one round there is moves every head to the tail.
     */
    method Drain(maxIters: nat, accepting: bool) returns (count: nat)
      requires Valid()
      modifies this`dispatched, this`delivered, queue
      ensures Valid() && sent == old(sent)
      ensures |dispatched| == |old(dispatched)| + count
      ensures accepting ==> forall a :: a in agents && Work(Bucket(old(Contents()), a)) <= maxIters ==> Bucket(Contents(), a) == []
      ensures !accepting ==> dispatched == old(dispatched) && delivered == old(delivered) && queue.dlq == old(queue.dlq)
      ensures !accepting && maxIters > 0 ==> forall a :: a in agents ==> Bucket(Contents(), a) == Rotated(Bucket(old(Contents()), a))
      ensures forall a :: a !in agents ==> Bucket(Contents(), a) == Bucket(old(Contents()), a)
    {
      count := 0;
      ghost var start := Contents();
      for i := 0 to maxIters
        invariant Valid() && sent == old(sent)
        invariant |dispatched| == |old(dispatched)| + count
        invariant accepting || i == 0
        invariant accepting ==> forall a :: a in agents ==>
                    Bucket(Contents(), a) == [] || Work(Bucket(Contents(), a)) + i <= Work(Bucket(start, a))
        invariant !accepting ==> Contents() == start
        invariant forall a :: a !in agents ==> Bucket(Contents(), a) == Bucket(start, a)
      {
        ghost var before := Contents();
        var delivered, progressed := Round(accepting);
        count := count + delivered;
        if !progressed {
          return;
        }
        assert forall a :: a in agents ==> Turned(before, Contents(), a, accepting);
      }
      forall a | a in agents && accepting && Work(Bucket(start, a)) <= maxIters
        ensures Bucket(Contents(), a) == []
      {
        MailIsWork(Contents(), a, deliver);
      }
    }
  }
}
