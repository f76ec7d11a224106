/** Who may receive service: the access decisions a session asks its host to enforce. */
module GateLaws {
  import opened Machine
  import opened Wrappers
  import opened Pricing
  import opened Protocol
  import opened Session
  import opened SessionLaws

  /** One peer at the host: the last access decision, whether it is metered, and how many
      token verifications have been asked for. */
  datatype Gate = Gate(level: AccessLevel, metered: bool, asked: nat)

  const CLOSED_GATE := Gate(NoAccess, false, 0)

  function GateStep(g: Gate, a: Action, peer: PeerId): Gate {
    if a.peer != peer then g
    else match a
      case SetAccess(_, level) => g.(level := level)
      case StartMetering(_) => g.(metered := true)
      case StopMetering(_) => g.(metered := false)
      case VerifyBootstrapToken(_, _) => g.(asked := g.asked + 1)
      case Send(_, _) => g
  }

  function GateAfter(g: Gate, actions: seq<Action>, peer: PeerId): Gate
    decreases |actions|
  {
    if actions == [] then g
    else GateStep(GateAfter(g, actions[..|actions| - 1], peer), actions[|actions| - 1], peer)
  }

  lemma {:induction false} GateConcat(g: Gate, a: seq<Action>, b: seq<Action>, peer: PeerId)
    ensures GateAfter(g, a + b, peer) == GateAfter(GateAfter(g, a, peer), b, peer)
    decreases |b|
  {
    if b == [] {
      assert a + b == a;
    } else {
      GateConcat(g, a, b[..|b| - 1], peer);
      assert (a + b)[..|a + b| - 1] == a + b[..|b| - 1];
    }
  }

  lemma {:induction false} GateIdle(g: Gate, actions: seq<Action>, peer: PeerId)
    requires forall a | a in actions :: a.peer != peer || a.Send?
    ensures GateAfter(g, actions, peer) == g
    decreases |actions|
  {
    if actions != [] {
      GateIdle(g, actions[..|actions| - 1], peer);
    }
  }

  lemma GateOne(g: Gate, a: Action, peer: PeerId)
    ensures GateAfter(g, [a], peer) == GateStep(g, a, peer)
  {
    assert [a][..0] == [];
  }

  lemma GateTwo(g: Gate, a: Action, b: Action, peer: PeerId)
    ensures GateAfter(g, [a, b], peer) == GateStep(GateStep(g, a, peer), b, peer)
  {
    GateOne(g, a, peer);
    assert [a, b][..1] == [a];
  }

  // ---- Verifications in flight ----

  function Answers(inputs: seq<Input>, peer: PeerId): nat
    decreases |inputs|
  {
    if inputs == [] then 0
    else Answers(inputs[..|inputs| - 1], peer) + if IsAnswer(inputs[|inputs| - 1], peer) then 1 else 0
  }

  predicate IsAnswer(input: Input, peer: PeerId) { Concerns(input, peer) && input.event.BootstrapVerified? }

  function GateOf(inputs: seq<Input>, peer: PeerId): Gate { GateAfter(CLOSED_GATE, NodeRun(inputs).1, peer) }

  /** Verifications asked for and not answered yet. */
  function Outstanding(inputs: seq<Input>, peer: PeerId): int { GateOf(inputs, peer).asked - Answers(inputs, peer) }

  /** The host reports a verification only when one is outstanding. */
  predicate AnswersWereAsked(inputs: seq<Input>, peer: PeerId)
    decreases |inputs|
  {
    inputs != [] ==>
      var before := inputs[..|inputs| - 1];
      && AnswersWereAsked(before, peer)
      && (IsAnswer(inputs[|inputs| - 1], peer) ==> 0 < Outstanding(before, peer))
  }

  // ---- The gate ----

  predicate IsActive(o: Option<PeerSession>) { o.Some? && o.value.phase == Active }

  /** What an outstanding count of `due` allows for a peer's session and gate. */
  predicate GateHolds(o: Option<PeerSession>, g: Gate, due: int) {
    && 0 <= due
    && (o.None? ==> !AllowsDelivery(g.level) && !g.metered)
    && (o.Some? && o.value.phase == Active ==> g.level == ActiveAccess && g.metered)
    && (o.Some? && o.value.phase == Suspended ==> g.level == SuspendedAccess && !g.metered)
    && (o.Some? && o.value.phase == BootstrapPending ==> 0 < due)
    && (o.Some? ==> o.value.phase != Closed)
    && (AllowsDelivery(g.level) != IsActive(o) ==> 0 < due)
  }

  lemma SampleGate(g: Gate, peer: PeerId, s: PeerSession, price: Price, policy: MeteringPolicy, c: Counters, now: Millis)
    ensures GateAfter(g, SampleActions(peer, s, price, policy, c, now), peer)
         == if Charged(s, price, policy, c, now).phase == Suspended then Gate(SuspendedAccess, false, g.asked) else g
  {
    var actions := SampleActions(peer, s, price, policy, c, now);
    if Charged(s, price, policy, c, now).phase == Suspended {
      var k := |actions| - 2;
      assert actions == actions[..k] + [SetAccess(peer, SuspendedAccess), StopMetering(peer)];
      GateIdle(g, actions[..k], peer);
      GateConcat(g, actions[..k], actions[k..], peer);
      GateTwo(g, SetAccess(peer, SuspendedAccess), StopMetering(peer), peer);
    } else {
      GateIdle(g, actions, peer);
    }
  }

  lemma VerifiedGate(g: Gate, peer: PeerId, s: PeerSession, amount: u64, ok: bool, now: Millis)
    ensures GateAfter(g, OnVerified(peer, s, amount, ok, now).1, peer)
         == if ok then Gate(ActiveAccess, true, g.asked) else g.(level := NoAccess)
  {
    var actions := OnVerified(peer, s, amount, ok, now).1;
    if ok {
      assert actions[..2] == [actions[0], actions[1]];
      GateTwo(g, actions[0], actions[1], peer);
    } else {
      GateTwo(g, actions[0], actions[1], peer);
    }
  }

  lemma EventKeepsGate(o: Option<PeerSession>, g: Gate, due: int, price: Price, policy: MeteringPolicy,
                       event: Event, now: Millis)
    requires !event.ClockTick? && GateHolds(o, g, due) && (event.BootstrapVerified? ==> 0 < due)
    ensures var (o', actions) := PeerStep(o, price, policy, event, now);
            var g' := GateAfter(g, actions, event.peer);
            GateHolds(o', g', due + (g'.asked - g.asked) - (if event.BootstrapVerified? then 1 else 0))
  {
    var peer := event.peer;
    match event
    case MeterSample(_, c) =>
      if IsActive(o) && o.value.lastCounters.Some? {
        SampleGate(g, peer, o.value, price, policy, c, now);
      }
    case BootstrapVerified(_, amount, ok) =>
      if o.Some? {
        VerifiedGate(g, peer, o.value, amount, ok, now);
      }
    case MessageReceived(_, message) =>
      if o.Some? {
        MessageKeepsGate(o.value, g, due, peer, message);
      } else {
        GateTwo(g, SetAccess(peer, NoAccess), StopMetering(peer), peer);
      }
    case PeerConnected(_) => GateOne(g, SetAccess(peer, NoAccess), peer);
    case PeerDisconnected(_) => GateTwo(g, SetAccess(peer, NoAccess), StopMetering(peer), peer);
  }

  lemma MessageKeepsGate(s: PeerSession, g: Gate, due: int, peer: PeerId, message: Message)
    requires GateHolds(Some(s), g, due)
    ensures var (o', actions) := OnMessage(peer, s, message);
            var g' := GateAfter(g, actions, peer);
            GateHolds(o', g', due + (g'.asked - g.asked))
  {
    GateTwo(g, SetAccess(peer, NoAccess), StopMetering(peer), peer);
    if message.BootstrapToken? {
      GateOne(g, VerifyBootstrapToken(peer, message.token), peer);
    }
  }

  /** In every run with answers only to what was asked: an active peer is admitted and metered, a
      suspended one is blocked and unmetered, an unknown one is neither, and admission can differ
      from being active only while a verification is outstanding. */
  lemma {:induction false} GateInvariant(inputs: seq<Input>, peer: PeerId)
    requires AnswersWereAsked(inputs, peer)
    ensures GateHolds(SessionOf(inputs, peer), GateOf(inputs, peer), Outstanding(inputs, peer))
    decreases |inputs|
  {
    if inputs != [] {
      var k := |inputs| - 1;
      var before, input := inputs[..k], inputs[k];
      GateInvariant(before, peer);
      var (n, log) := NodeRun(before);
      var actions := NodeStep(n, input).1;
      var g := GateOf(before, peer);
      StepIsLocal(n, input, peer);
      GateConcat(CLOSED_GATE, log, actions, peer);
      if Concerns(input, peer) {
        EventKeepsGate(SessionOf(before, peer), g, Outstanding(before, peer), n.price, n.policy, input.event, input.now);
      } else {
        if input.Deliver? && !input.event.ClockTick? {
          ActionsConcernPeer(Lookup(n.peers, input.event.peer), n.price, n.policy, input.event, input.now);
        }
        GateIdle(g, actions, peer);
      }
    }
  }

  /** With no verification outstanding, delivery is allowed if and only if the peer is active. */
  lemma DeliveryIffActive(inputs: seq<Input>, peer: PeerId)
    requires AnswersWereAsked(inputs, peer) && Outstanding(inputs, peer) == 0
    ensures AllowsDelivery(GateOf(inputs, peer).level) <==> IsActive(SessionOf(inputs, peer))
  {
    GateInvariant(inputs, peer);
  }
}
