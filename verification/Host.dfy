/** The host around a session: it carries out access decisions, keeps the metered set and the
    outgoing queues, and tears down peers that have gone quiet. */
module Host {
  import opened Machine
  import opened Wrappers
  import opened Sequences
  import opened Protocol
  import opened Session
  import opened GateLaws

  // ---- Outgoing queues ----

  function WithoutReports(queue: seq<Message>): seq<Message>
    decreases |queue|
  {
    if queue == [] then []
    else WithoutReports(queue[..|queue| - 1])
         + (if queue[|queue| - 1].MeteringReport? then [] else [queue[|queue| - 1]])
  }

  /** A fresh report replaces the one still waiting; everything else queues up. */
  function Enqueued(queue: seq<Message>, m: Message): seq<Message> {
    (if m.MeteringReport? then WithoutReports(queue) else queue) + [m]
  }

  /** The queue for `peer` after a list of actions. */
  function Posted(queue: seq<Message>, actions: seq<Action>, peer: PeerId): seq<Message>
    decreases |actions|
  {
    if actions == [] then queue
    else
      var k := |actions| - 1;
      var q := Posted(queue, actions[..k], peer);
      if actions[k].Send? && actions[k].peer == peer then Enqueued(q, actions[k].message) else q
  }

  lemma {:induction false} PostsNothing(actions: seq<Action>)
    requires forall a | a in actions :: !a.Send?
    ensures forall queue, peer :: Posted(queue, actions, peer) == queue
    decreases |actions|
  {
    if actions != [] {
      PostsNothing(actions[..|actions| - 1]);
    }
  }

  /** The first report among received messages, which is what a client looks at. */
  function FindMeteringReport(messages: seq<Message>): Option<Message>
    decreases |messages|
  {
    if messages == [] then None
    else if messages[0].MeteringReport? then Some(messages[0])
    else FindMeteringReport(messages[1..])
  }

  datatype OutboxOp = Put(message: Message) | Drain

  /** A queue together with all that was ever drained from it. */
  datatype Outbox = Outbox(queue: seq<Message>, drained: seq<Message>)

  function OutboxStep(b: Outbox, op: OutboxOp): Outbox {
    match op
    case Put(m) => b.(queue := Enqueued(b.queue, m))
    case Drain => Outbox([], b.drained + b.queue)
  }

  function OutboxRun(ops: seq<OutboxOp>): Outbox
    decreases |ops|
  {
    if ops == [] then Outbox([], []) else OutboxStep(OutboxRun(ops[..|ops| - 1]), ops[|ops| - 1])
  }

  function AllPut(ops: seq<OutboxOp>): seq<Message>
    decreases |ops|
  {
    if ops == [] then []
    else AllPut(ops[..|ops| - 1]) + (if ops[|ops| - 1].Put? then [ops[|ops| - 1].message] else [])
  }

  /** The latest report put since the last drain. */
  function NewestReport(ops: seq<OutboxOp>): Option<Message>
    decreases |ops|
  {
    if ops == [] || ops[|ops| - 1].Drain? then None
    else if ops[|ops| - 1].message.MeteringReport? then Some(ops[|ops| - 1].message)
    else NewestReport(ops[..|ops| - 1])
  }

  function CountReports(queue: seq<Message>): nat
    decreases |queue|
  {
    if queue == [] then 0
    else CountReports(queue[..|queue| - 1]) + if queue[|queue| - 1].MeteringReport? then 1 else 0
  }

  lemma {:induction false} WithoutReportsConcat(a: seq<Message>, b: seq<Message>)
    ensures WithoutReports(a + b) == WithoutReports(a) + WithoutReports(b)
    decreases |b|
  {
    if b == [] {
      assert a + b == a;
    } else {
      WithoutReportsConcat(a, b[..|b| - 1]);
      assert (a + b)[..|a + b| - 1] == a + b[..|b| - 1];
    }
  }

  lemma {:induction false} WithoutReportsHasNone(queue: seq<Message>)
    ensures forall m | m in WithoutReports(queue) :: !m.MeteringReport?
    ensures WithoutReports(WithoutReports(queue)) == WithoutReports(queue)
    ensures CountReports(WithoutReports(queue)) == 0
    decreases |queue|
  {
    if queue != [] {
      var n := |queue| - 1;
      WithoutReportsHasNone(queue[..n]);
      if !queue[n].MeteringReport? {
        assert WithoutReports(queue)[..|WithoutReports(queue)| - 1] == WithoutReports(queue[..n]);
      } else {
        assert WithoutReports(queue) == WithoutReports(queue[..n]);
      }
    }
  }

  lemma {:induction false} FindInConcat(a: seq<Message>, m: Message)
    ensures FindMeteringReport(a + [m])
         == if FindMeteringReport(a).Some? then FindMeteringReport(a) else if m.MeteringReport? then Some(m) else None
    decreases |a|
  {
    if a == [] {
      assert [m][1..] == [] && a + [m] == [m];
    } else {
      FindInConcat(a[1..], m);
      assert (a + [m])[1..] == a[1..] + [m];
    }
  }

  lemma {:induction false} FindsNothing(a: seq<Message>)
    requires forall m | m in a :: !m.MeteringReport?
    ensures FindMeteringReport(a) == None
    decreases |a|
  {
    if a != [] {
      FindsNothing(a[1..]);
    }
  }

  /** Over any puts and drains: every message that is not a report comes out once, in order; at most
      one report waits; and the report a client finds in the next drain is the newest one put. */
  lemma {:induction false} OutboxRefines(ops: seq<OutboxOp>)
    ensures var b := OutboxRun(ops);
            && WithoutReports(b.drained + b.queue) == WithoutReports(AllPut(ops))
            && CountReports(b.queue) <= 1
            && FindMeteringReport(b.queue) == NewestReport(ops)
    decreases |ops|
  {
    if ops != [] {
      var before, op := ops[..|ops| - 1], ops[|ops| - 1];
      OutboxRefines(before);
      match op
      case Drain =>
        var b := OutboxRun(before);
        assert OutboxRun(ops).drained + [] == b.drained + b.queue;
        assert AllPut(ops) == AllPut(before);
      case Put(m) =>
        PutRefines(OutboxRun(before), m, AllPut(before), NewestReport(before));
    }
  }

  lemma PutRefines(b: Outbox, m: Message, put: seq<Message>, newest: Option<Message>)
    requires WithoutReports(b.drained + b.queue) == WithoutReports(put)
    requires CountReports(b.queue) <= 1 && FindMeteringReport(b.queue) == newest
    ensures WithoutReports(b.drained + Enqueued(b.queue, m)) == WithoutReports(put + [m])
    ensures CountReports(Enqueued(b.queue, m)) <= 1
    ensures FindMeteringReport(Enqueued(b.queue, m)) == if m.MeteringReport? then Some(m) else newest
  {
    PutKeepsOrder(b, m, put);
    var kept := if m.MeteringReport? then WithoutReports(b.queue) else b.queue;
    WithoutReportsHasNone(b.queue);
    CountSnoc(kept, m);
    FindInConcat(kept, m);
    if m.MeteringReport? {
      FindsNothing(kept);
    }
  }

  lemma PutKeepsOrder(b: Outbox, m: Message, put: seq<Message>)
    requires WithoutReports(b.drained + b.queue) == WithoutReports(put)
    ensures WithoutReports(b.drained + Enqueued(b.queue, m)) == WithoutReports(put + [m])
  {
    var kept := if m.MeteringReport? then WithoutReports(b.queue) else b.queue;
    assert WithoutReports(b.drained + kept) == WithoutReports(put) by {
      WithoutReportsHasNone(b.queue);
      WithoutReportsConcat(b.drained, b.queue);
      WithoutReportsConcat(b.drained, kept);
    }
    calc {
      WithoutReports(b.drained + (kept + [m]));
      { Regroup(b.drained, kept, [m]); }
      WithoutReports(b.drained + kept + [m]);
      { WithoutReportsConcat(b.drained + kept, [m]); }
      WithoutReports(put) + WithoutReports([m]);
      { WithoutReportsConcat(put, [m]); }
      WithoutReports(put + [m]);
    }
  }

  lemma CountSnoc(queue: seq<Message>, m: Message)
    ensures CountReports(queue + [m]) == CountReports(queue) + if m.MeteringReport? then 1 else 0
  {
    assert (queue + [m])[..|queue|] == queue;
  }

  // ---- The host ----

  class Driver {
    const session: Session
    const priceSheet: Option<Message>
    /** The last access decision carried out for each peer. */
    var access: map<PeerId, AccessLevel>
    var metered: set<PeerId>
    var outbox: map<PeerId, seq<Message>>
    var lastSeen: map<PeerId, Millis>
    /** Verifications running at a mint, by peer. */
    var verifying: multiset<PeerId>
    /** Every action carried out so far. */
    ghost var log: seq<Action>

    /** The host has carried out exactly what the session asked, and reports only verifications it runs. */
    ghost predicate Valid()
      reads `access, `metered, `verifying, `log, session
    {
      && session.Valid()
      && log == NodeRun(session.history).1
      && (forall peer :: Enforces(peer))
      && (forall peer :: AnswersWereAsked(session.history, peer))
      && (forall peer :: verifying[peer] == Outstanding(session.history, peer))
    }

    ghost predicate Enforces(peer: PeerId)
      reads `access, `metered, `log
    {
      && LevelOf(peer) == GateAfter(CLOSED_GATE, log, peer).level
      && (peer in metered <==> GateAfter(CLOSED_GATE, log, peer).metered)
    }

    function LevelOf(peer: PeerId): AccessLevel
      reads `access
    {
      if peer in access then access[peer] else NoAccess
    }

    function PhaseOf(peer: PeerId): Option<PeerPhase>
      reads session
    {
      if peer in session.peers then Some(session.peers[peer].phase) else None
    }

    function QueueOf(peer: PeerId): seq<Message>
      reads `outbox
    {
      if peer in outbox then outbox[peer] else []
    }

    constructor (priceSheet: Option<Message>)
      ensures Valid() && fresh(session)
      ensures session.history == [] && lastSeen == map[] && outbox == map[]
    {
      this.priceSheet := priceSheet;
      session := new Session();
      access, metered, outbox, lastSeen := map[], {}, map[], map[];
      verifying := multiset{};
      log := [];
    }

    method Enqueue(peer: PeerId, message: Message)
      modifies `outbox
      ensures QueueOf(peer) == Enqueued(old(QueueOf(peer)), message)
      ensures forall other | other != peer :: QueueOf(other) == old(QueueOf(other))
    {
      var queue := if peer in outbox then outbox[peer] else [];
      if message.MeteringReport? {
        queue := WithoutReports(queue);
      }
      outbox := outbox[peer := queue + [message]];
    }

    method DrainOutbox(peer: PeerId) returns (messages: seq<Message>)
      modifies `outbox
      ensures messages == old(QueueOf(peer)) && QueueOf(peer) == []
      ensures forall other | other != peer :: QueueOf(other) == old(QueueOf(other))
    {
      messages := if peer in outbox then outbox[peer] else [];
      outbox := outbox - {peer};
    }

    method Execute(action: Action)
      modifies `access, `metered, `outbox, `verifying, `log
      ensures log == old(log) + [action]
      ensures verifying == if action.VerifyBootstrapToken? then old(verifying) + multiset{action.peer} else old(verifying)
      ensures forall peer | old(Enforces(peer)) :: Enforces(peer)
      ensures !action.Send? ==> outbox == old(outbox)
      ensures forall peer :: QueueOf(peer)
                == if action.Send? && action.peer == peer then Enqueued(old(QueueOf(peer)), action.message) else old(QueueOf(peer))
    {
      match action {
        case SetAccess(peer, level) => access := access[peer := level];
        case Send(peer, message) => Enqueue(peer, message);
        case StartMetering(peer) => metered := metered + {peer};
        case StopMetering(peer) => metered := metered - {peer};
        case VerifyBootstrapToken(peer, _) => verifying := verifying + multiset{peer};
      }
      log := log + [action];
      assert log[..|log| - 1] == old(log);
    }

    /** Runs one event through the session and carries out everything it asks for. */
    method Dispatch(event: Event, now: Millis)
      requires session.Valid() && log == NodeRun(session.history).1
      requires forall peer :: Enforces(peer)
      requires forall peer :: AnswersWereAsked(session.history + [Deliver(event, now)], peer)
      requires forall peer :: verifying[peer] == Outstanding(session.history, peer)
                              - if IsAnswer(Deliver(event, now), peer) then 1 else 0
      modifies session, `access, `metered, `outbox, `verifying, `log
      ensures Valid() && session.history == old(session.history) + [Deliver(event, now)]
      ensures session.View() == NodeStep(old(session.View()), Deliver(event, now)).0
      ensures event.PeerDisconnected? ==> outbox == old(outbox)
      ensures forall peer :: QueueOf(peer)
                == Posted(old(QueueOf(peer)), NodeStep(old(session.View()), Deliver(event, now)).1, peer)
    {
      var actions := Ask(event, now);
      ExecuteAll(actions);
    }

    /** Runs the event through the session alone. */
    method Ask(event: Event, now: Millis) returns (actions: seq<Action>)
      requires session.Valid() && log == NodeRun(session.history).1
      modifies session
      ensures session.Valid() && session.history == old(session.history) + [Deliver(event, now)]
      ensures (session.View(), actions) == NodeStep(old(session.View()), Deliver(event, now))
      ensures event.PeerDisconnected? ==> forall a | a in actions :: !a.Send?
      ensures NodeRun(session.history).1 == log + actions
      ensures forall peer :: Outstanding(session.history, peer)
                == old(Outstanding(session.history, peer)) + AskedIn(actions, peer)
                   - if IsAnswer(Deliver(event, now), peer) then 1 else 0
    {
      actions := session.Handle(event, now);
      OutstandingAfter(old(session.history), Deliver(event, now), []);
      forall peer
        ensures Outstanding(session.history, peer)
             == old(Outstanding(session.history, peer)) + AskedIn(actions, peer)
                - if IsAnswer(Deliver(event, now), peer) then 1 else 0
      {
        OutstandingAfter(old(session.history), Deliver(event, now), peer);
      }
    }

    static lemma OutstandingAfter(before: seq<Input>, input: Input, peer: PeerId)
      ensures NodeRun(before + [input]).1 == NodeRun(before).1 + NodeStep(NodeRun(before).0, input).1
      ensures Outstanding(before + [input], peer)
           == Outstanding(before, peer) + AskedIn(NodeStep(NodeRun(before).0, input).1, peer)
              - if IsAnswer(input, peer) then 1 else 0
    {
      assert (before + [input])[..|before|] == before;
      AskedCounts(CLOSED_GATE, NodeRun(before).1, NodeStep(NodeRun(before).0, input).1, peer);
    }

    method ExecuteAll(actions: seq<Action>)
      modifies `access, `metered, `outbox, `verifying, `log
      ensures log == old(log) + actions
      ensures forall peer | old(Enforces(peer)) :: Enforces(peer)
      ensures forall peer :: verifying[peer] == old(verifying)[peer] + AskedIn(actions, peer)
      ensures (forall a | a in actions :: !a.Send?) ==> outbox == old(outbox)
      ensures forall peer :: QueueOf(peer) == Posted(old(QueueOf(peer)), actions, peer)
    {
      var i := 0;
      while i < |actions|
        invariant 0 <= i <= |actions|
        invariant log == old(log) + actions[..i]
        invariant forall peer | old(Enforces(peer)) :: Enforces(peer)
        invariant forall peer :: verifying[peer] == old(verifying)[peer] + AskedIn(actions[..i], peer)
        invariant (forall a | a in actions :: !a.Send?) ==> outbox == old(outbox)
        invariant forall peer :: QueueOf(peer) == Posted(old(QueueOf(peer)), actions[..i], peer)
      {
        Execute(actions[i]);
        assert actions[..i + 1] == actions[..i] + [actions[i]];
        assert actions[..i + 1][..i] == actions[..i];
        i := i + 1;
      }
      assert actions[..i] == actions;
    }

    static ghost function AskedIn(actions: seq<Action>, peer: PeerId): nat
      decreases |actions|
    {
      if actions == [] then 0
      else AskedIn(actions[..|actions| - 1], peer)
           + if actions[|actions| - 1].VerifyBootstrapToken? && actions[|actions| - 1].peer == peer then 1 else 0
    }

    static lemma {:induction false} AskedCounts(g: Gate, a: seq<Action>, b: seq<Action>, peer: PeerId)
      ensures GateAfter(g, a + b, peer).asked == GateAfter(g, a, peer).asked + AskedIn(b, peer)
      decreases |b|
    {
      if b == [] {
        assert a + b == a;
      } else {
        AskedCounts(g, a, b[..|b| - 1], peer);
        assert (a + b)[..|a + b| - 1] == a + b[..|b| - 1];
      }
    }

    lemma OrdinaryEvent(event: Event, now: Millis)
      requires Valid() && !event.BootstrapVerified?
      ensures forall peer :: AnswersWereAsked(session.history + [Deliver(event, now)], peer)
    {
      assert (session.history + [Deliver(event, now)])[..|session.history|] == session.history;
    }

    /** A poll from a peer: announce ourselves back, and our prices if we sell anything. */
    method OnPeerConnected(peer: PeerId, now: Millis) returns (isNew: bool)
      requires Valid()
      modifies this, session
      ensures Valid() && lastSeen == old(lastSeen)[peer := now]
      ensures isNew <==> old(PhaseOf(peer)).None?
      ensures session.View() == NodeStep(old(session.View()), Deliver(PeerConnected(peer), now)).0
      ensures session.history == old(session.history) + [Deliver(PeerConnected(peer), now)]
      ensures QueueOf(peer) == Greeted(old(QueueOf(peer)))
      ensures forall other | other != peer :: QueueOf(other) == old(QueueOf(other))
    {
      lastSeen := lastSeen[peer := now];
      isNew := peer !in session.peers;
      OrdinaryEvent(PeerConnected(peer), now);
      PostsNothing(NodeStep(session.View(), Deliver(PeerConnected(peer), now)).1);
      Dispatch(PeerConnected(peer), now);
      Greet(peer);
    }

    method Greet(peer: PeerId)
      modifies `outbox
      ensures QueueOf(peer) == Greeted(old(QueueOf(peer)))
      ensures forall other | other != peer :: QueueOf(other) == old(QueueOf(other))
    {
      Enqueue(peer, Announce);
      if priceSheet.Some? {
        Enqueue(peer, priceSheet.value);
      }
    }

    /** A queue after our own announcement and, if we sell anything, our prices. */
    function Greeted(queue: seq<Message>): (greeted: seq<Message>)
      ensures priceSheet.None? ==> greeted == queue + [Announce]
      ensures priceSheet.Some? && !priceSheet.value.MeteringReport? ==> greeted == queue + [Announce, priceSheet.value]
    {
      var announced := Enqueued(queue, Announce);
      if priceSheet.Some? then Enqueued(announced, priceSheet.value) else announced
    }

    method OnMessageReceived(peer: PeerId, message: Message, now: Millis)
      requires Valid()
      modifies this, session
      ensures Valid() && lastSeen == old(lastSeen)[peer := now]
      ensures session.View() == NodeStep(old(session.View()), Deliver(MessageReceived(peer, message), now)).0
      ensures session.history == old(session.history) + [Deliver(MessageReceived(peer, message), now)]
      ensures forall other :: QueueOf(other)
                == Posted(old(QueueOf(other)), NodeStep(old(session.View()), Deliver(MessageReceived(peer, message), now)).1, other)
    {
      lastSeen := lastSeen[peer := now];
      OrdinaryEvent(MessageReceived(peer, message), now);
      Dispatch(MessageReceived(peer, message), now);
    }

    method Meter(peer: PeerId, counters: Counters, now: Millis)
      requires Valid()
      modifies this, session
      ensures Valid() && lastSeen == old(lastSeen)
      ensures session.View() == NodeStep(old(session.View()), Deliver(MeterSample(peer, counters), now)).0
      ensures session.history == old(session.history) + [Deliver(MeterSample(peer, counters), now)]
      ensures forall other :: QueueOf(other)
                == Posted(old(QueueOf(other)), NodeStep(old(session.View()), Deliver(MeterSample(peer, counters), now)).1, other)
    {
      OrdinaryEvent(MeterSample(peer, counters), now);
      Dispatch(MeterSample(peer, counters), now);
    }

    /** The mint has answered one running verification. */
    method OnVerified(peer: PeerId, amount: u64, ok: bool, now: Millis)
      requires Valid() && peer in verifying
      modifies this, session
      ensures Valid() && lastSeen == old(lastSeen)
      ensures session.View() == NodeStep(old(session.View()), Deliver(BootstrapVerified(peer, amount, ok), now)).0
      ensures session.history == old(session.history) + [Deliver(BootstrapVerified(peer, amount, ok), now)]
      ensures forall other :: QueueOf(other)
                == Posted(old(QueueOf(other)), NodeStep(old(session.View()), Deliver(BootstrapVerified(peer, amount, ok), now)).1, other)
    {
      ghost var event := BootstrapVerified(peer, amount, ok);
      assert (session.history + [Deliver(event, now)])[..|session.history|] == session.history;
      verifying := verifying - multiset{peer};
      Dispatch(BootstrapVerified(peer, amount, ok), now);
    }

    /** Revoke first, then forget everything about the peer. */
    method OnPeerDisconnected(peer: PeerId, now: Millis)
      requires Valid()
      modifies this, session
      ensures Valid()
      ensures lastSeen == old(lastSeen) - {peer} && outbox == old(outbox) - {peer}
      ensures session.peers == old(session.peers) - {peer}
    {
      OrdinaryEvent(PeerDisconnected(peer), now);
      Dispatch(PeerDisconnected(peer), now);
      EnforcedAccess(peer);
      lastSeen := lastSeen - {peer};
      assert metered - {peer} == metered;
      metered := metered - {peer};
      outbox := outbox - {peer};
    }

    predicate IsReaped(peer: PeerId, nowMs: Millis, idleMs: u64)
      reads this, session
    {
      peer in lastSeen && idleMs <= Since(nowMs, lastSeen[peer]) && PhaseOf(peer) != Some(Active)
    }

    function Reapable(nowMs: Millis, idleMs: u64): set<PeerId>
      reads this, session
    {
      set peer | peer in lastSeen && IsReaped(peer, nowMs, idleMs)
    }

    /** One sweep tears down exactly the peers that are idle and not active: a paid-up peer survives
        its own silence, and nobody else is forgotten. */
    method ReapIdle(nowMs: Millis, idleMs: u64)
      requires Valid()
      modifies this, session
      ensures Valid()
      ensures forall peer :: peer in lastSeen <==>
                peer in old(lastSeen)
                && ((0 < idleMs && nowMs - old(lastSeen[peer]) < idleMs)
                    || (peer in old(session.peers) && old(session.peers[peer].phase) == Active))
      ensures lastSeen == old(lastSeen) - old(Reapable(nowMs, idleMs))
      ensures session.peers == old(session.peers) - old(Reapable(nowMs, idleMs))
      ensures outbox == old(outbox) - old(Reapable(nowMs, idleMs))
      ensures forall peer | peer in old(Reapable(nowMs, idleMs)) :: !AllowsDelivery(LevelOf(peer)) && peer !in metered
    {
      ghost var doomed := Reapable(nowMs, idleMs);
      var idle := set peer | peer in lastSeen && idleMs <= Since(nowMs, lastSeen[peer]);
      ghost var reaped: set<PeerId> := {};
      while idle != {}
        invariant Valid()
        invariant doomed <= idle + reaped && reaped <= doomed && idle !! reaped
        invariant idle <= old(set peer | peer in lastSeen && idleMs <= Since(nowMs, lastSeen[peer]))
        invariant lastSeen == old(lastSeen) - reaped
        invariant session.peers == old(session.peers) - reaped
        invariant outbox == old(outbox) - reaped
        decreases idle
      {
        var peer :| peer in idle;
        idle := idle - {peer};
        assert peer in doomed <==> PhaseOf(peer) != Some(Active);
        if PhaseOf(peer) != Some(Active) {
          OnPeerDisconnected(peer, nowMs);
          reaped := reaped + {peer};
        }
      }
      assert reaped == doomed;
      forall peer | peer in doomed ensures !AllowsDelivery(LevelOf(peer)) && peer !in metered {
        EnforcedAccess(peer);
      }
    }

    /** What the host enforces at any moment: with no verification running for a peer, its last access
        decision allows delivery if and only if the peer is active; and an active peer is always metered. */
    lemma EnforcedAccess(peer: PeerId)
      requires Valid()
      ensures peer !in verifying ==> (AllowsDelivery(LevelOf(peer)) <==> PhaseOf(peer) == Some(Active))
      ensures PhaseOf(peer) == Some(Active) ==> LevelOf(peer) == ActiveAccess && peer in metered
      ensures PhaseOf(peer) == Some(Suspended) ==> LevelOf(peer) == SuspendedAccess && peer !in metered
      ensures PhaseOf(peer) == None ==> !AllowsDelivery(LevelOf(peer)) && peer !in metered
    {
      GateInvariant(session.history, peer);
      assert Enforces(peer);
    }
  }
}
