/** The per-node session: one prepaid, metered relationship per peer. */
module Session {
  import opened Machine
  import opened Wrappers
  import opened Pricing
  import opened Protocol

  /** A peer's compressed public key. */
  type PeerId = seq<u8>

  datatype AccessLevel = NoAccess | ActiveAccess | ZeroPrice | SuspendedAccess

  predicate AllowsDelivery(level: AccessLevel) { level == ActiveAccess || level == ZeroPrice }

  /** Cumulative meter readings. */
  datatype Counters = Counters(delivered: u64, received: u64)

  datatype MeteringPolicy = MeteringPolicy(toleranceBps: u32, maxStreak: u8)

  datatype Event =
    | PeerConnected(peer: PeerId)
    | PeerDisconnected(peer: PeerId)
    | MessageReceived(peer: PeerId, message: Message)
    | MeterSample(peer: PeerId, counters: Counters)
    | BootstrapVerified(peer: PeerId, amount: u64, ok: bool)
    | ClockTick

  datatype Action =
    | Send(peer: PeerId, message: Message)
    | SetAccess(peer: PeerId, level: AccessLevel)
    | VerifyBootstrapToken(peer: PeerId, token: Bytes)
    | StartMetering(peer: PeerId)
    | StopMetering(peer: PeerId)

  datatype PeerPhase = New | BootstrapPending | Active | Suspended | Closed

  datatype PeerSession = PeerSession(
    phase: PeerPhase,
    balance: u64,
    lastCounters: Option<Counters>,
    lastMeterAt: Millis,
    meteringBaseline: Counters,
    meteringStart: Millis,
    peerReport: Option<Counters>,
    billedUnits: u64,
    overToleranceStreak: u8,
    lastPriceSheet: Option<Message>,
    acceptedProduct: Option<Bytes>)

  const FRESH_SESSION := PeerSession(New, 0, None, 0, Counters(0, 0), 0, None, 0, 0, None, None)

  // ---- What one sample means ----

  function Reconcile(local: u64, remote: u64): u64 { if local > remote then local else remote }

  function OurDelivered(s: PeerSession, c: Counters): u64 { SatSub(c.delivered, s.meteringBaseline.delivered) }

  function OurReceived(s: PeerSession, c: Counters): u64 { SatSub(c.received, s.meteringBaseline.received) }

  /** Units due since the baseline: the higher of our tally and the peer's. */
  function Billable(s: PeerSession, c: Counters): u64 {
    if s.peerReport.Some? then Reconcile(OurDelivered(s, c), s.peerReport.value.received) else OurDelivered(s, c)
  }

  function NewUnits(s: PeerSession, c: Counters): u64 { SatSub(Billable(s, c), s.billedUnits) }

  function IntervalCharge(s: PeerSession, price: Price, c: Counters, now: Millis): u64 {
    Max(CostScaled(price, Since(now, s.lastMeterAt), NewUnits(s, c)), 0)
  }

  /** The peer's tally differs from ours by more than the tolerated fraction of ours. */
  predicate OverTolerance(s: PeerSession, policy: MeteringPolicy, c: Counters) {
    && s.peerReport.Some?
    && OurDelivered(s, c) > 0
    && AbsDiff(OurDelivered(s, c), s.peerReport.value.received) * 10000 > OurDelivered(s, c) * policy.toleranceBps
  }

  function NextStreak(s: PeerSession, policy: MeteringPolicy, c: Counters): u8 {
    if s.peerReport.None? then s.overToleranceStreak
    else if OverTolerance(s, policy, c) then Min(s.overToleranceStreak + 1, U8_MAX)
    else 0
  }

  function WithBaseline(s: PeerSession, c: Counters, now: Millis): PeerSession {
    s.(lastCounters := Some(c), lastMeterAt := now, meteringBaseline := c, meteringStart := now,
       peerReport := None, billedUnits := 0, overToleranceStreak := 0)
  }

  /** A sample after the baseline is charged; the first one only sets it. */
  predicate IsCharged(s: PeerSession) { s.phase == Active && s.lastCounters.Some? }

  /** The charge took the last of the balance. */
  predicate Exhausts(s: PeerSession, price: Price, c: Counters, now: Millis) {
    0 < IntervalCharge(s, price, c, now) && s.balance <= IntervalCharge(s, price, c, now)
  }

  predicate DriftPersists(s: PeerSession, policy: MeteringPolicy, c: Counters) {
    policy.maxStreak <= NextStreak(s, policy, c)
  }

  function Charged(s: PeerSession, price: Price, policy: MeteringPolicy, c: Counters, now: Millis): PeerSession {
    s.(billedUnits := Billable(s, c),
       lastCounters := Some(c),
       lastMeterAt := now,
       balance := SatSub(s.balance, IntervalCharge(s, price, c, now)),
       overToleranceStreak := NextStreak(s, policy, c),
       phase := if Exhausts(s, price, c, now) || DriftPersists(s, policy, c) then Suspended else Active)
  }

  function DriftWarning(peer: PeerId, s: PeerSession, policy: MeteringPolicy, c: Counters): seq<Action> {
    if OverTolerance(s, policy, c) then [Send(peer, Reject(TransitLossToleranceExceeded))] else []
  }

  function UsageReport(peer: PeerId, s: PeerSession, c: Counters, now: Millis): Action {
    Send(peer, MeteringReport(Since(now, s.meteringStart), OurDelivered(s, c), OurReceived(s, c)))
  }

  function CutActions(peer: PeerId, s: PeerSession, price: Price, policy: MeteringPolicy, c: Counters, now: Millis): seq<Action> {
    if !Exhausts(s, price, c, now) && !DriftPersists(s, policy, c) then []
    else
      (if Exhausts(s, price, c, now) then [Send(peer, Reject(BalanceVerificationFailed))] else [])
      + [SetAccess(peer, SuspendedAccess), StopMetering(peer)]
  }

  function SampleActions(peer: PeerId, s: PeerSession, price: Price, policy: MeteringPolicy,
                         c: Counters, now: Millis): seq<Action> {
    DriftWarning(peer, s, policy, c) + [UsageReport(peer, s, c, now)] + CutActions(peer, s, price, policy, c, now)
  }

  // ---- One event, one peer ----

  function OnMessage(peer: PeerId, s: PeerSession, message: Message): (Option<PeerSession>, seq<Action>) {
    match message
    case BootstrapToken(token) =>
      (Some(s.(phase := BootstrapPending)), [VerifyBootstrapToken(peer, token)])
    case Reject(_) =>
      if s.phase == Closed then (Some(s), [])
      else (Some(s.(phase := New)),
            if s.phase == Active then [SetAccess(peer, NoAccess), StopMetering(peer)] else [])
    case PriceSheet(_) => (Some(s.(lastPriceSheet := Some(message))), [])
    case Accept(productId) => (Some(s.(acceptedProduct := if |productId| == 32 then Some(productId) else None)), [])
    case MeteringReport(_, delivered, received) =>
      (Some(s.(peerReport := Some(Counters(delivered, received)))), [])
    case Disconnect => (None, [SetAccess(peer, NoAccess), StopMetering(peer)])
    case Announce => (Some(s), [])
    case BootstrapAck(_) => (Some(s), [])
    case Unrecognised => (Some(s), [])
  }

  function OnVerified(peer: PeerId, s: PeerSession, amount: u64, ok: bool, now: Millis): (PeerSession, seq<Action>) {
    if ok then
      var paid := s.(balance := SatAdd(s.balance, amount), phase := Active);
      (if s.phase == Active then paid else paid.(lastCounters := None, lastMeterAt := now),
       [Send(peer, BootstrapAck(true)), SetAccess(peer, ActiveAccess), StartMetering(peer)])
    else (s.(phase := New), [Send(peer, BootstrapAck(false)), SetAccess(peer, NoAccess)])
  }

  /** The effect of an event on the peer it concerns; None is a peer not tracked. */
  function PeerStep(o: Option<PeerSession>, price: Price, policy: MeteringPolicy, event: Event, now: Millis)
    : (Option<PeerSession>, seq<Action>)
    requires !event.ClockTick?
  {
    var peer := event.peer;
    match event
    case PeerConnected(_) => if o.None? then (Some(FRESH_SESSION), [SetAccess(peer, NoAccess)]) else (o, [])
    case PeerDisconnected(_) => (None, [SetAccess(peer, NoAccess), StopMetering(peer)])
    case MessageReceived(_, message) =>
      if o.Some? then OnMessage(peer, o.value, message)
      else if message.Disconnect? then (None, [SetAccess(peer, NoAccess), StopMetering(peer)])
      else (None, [])
    case BootstrapVerified(_, amount, ok) =>
      if o.None? then (None, [])
      else var (s, actions) := OnVerified(peer, o.value, amount, ok, now); (Some(s), actions)
    case MeterSample(_, c) =>
      if o.None? || o.value.phase != Active then (o, [])
      else if o.value.lastCounters.None? then (Some(WithBaseline(o.value, c, now)), [])
      else (Some(Charged(o.value, price, policy, c, now)), SampleActions(peer, o.value, price, policy, c, now))
  }

  // ---- The whole node ----

  datatype Node = Node(peers: map<PeerId, PeerSession>, price: Price, policy: MeteringPolicy)

  /** What the host may do to a session. */
  datatype Input = Deliver(event: Event, now: Millis) | SetPrice(price: Price) | SetPolicy(policy: MeteringPolicy)

  function Lookup(peers: map<PeerId, PeerSession>, peer: PeerId): Option<PeerSession> {
    if peer in peers then Some(peers[peer]) else None
  }

  function Stored(peers: map<PeerId, PeerSession>, peer: PeerId, o: Option<PeerSession>): map<PeerId, PeerSession> {
    if o.Some? then peers[peer := o.value] else peers - {peer}
  }

  function NodeStep(n: Node, input: Input): (Node, seq<Action>) {
    match input
    case SetPrice(price) => (n.(price := price), [])
    case SetPolicy(policy) => (n.(policy := policy), [])
    case Deliver(event, now) =>
      if event.ClockTick? then (n, [])
      else
        var (o, actions) := PeerStep(Lookup(n.peers, event.peer), n.price, n.policy, event, now);
        (n.(peers := Stored(n.peers, event.peer, o)), actions)
  }

  const EMPTY_NODE := Node(map[], Price(0, 0), MeteringPolicy(500, 3))

  /** The node and everything it has asked of its host, after a history of inputs. */
  function NodeRun(inputs: seq<Input>): (Node, seq<Action>)
    decreases |inputs|
  {
    if inputs == [] then (EMPTY_NODE, [])
    else
      var (n, log) := NodeRun(inputs[..|inputs| - 1]);
      var (n', actions) := NodeStep(n, inputs[|inputs| - 1]);
      (n', log + actions)
  }

  class Session {
    var peers: map<PeerId, PeerSession>
    var price: Price
    var policy: MeteringPolicy
    /** Everything that has happened to this session. */
    ghost var history: seq<Input>

    ghost predicate Valid()
      reads this
    {
      View() == NodeRun(history).0
    }

    function View(): Node
      reads this
    {
      Node(peers, price, policy)
    }

    constructor ()
      ensures Valid() && history == [] && View() == EMPTY_NODE
      ensures peers == map[] && price == Price(0, 0) && policy == MeteringPolicy(500, 3)
    {
      peers, price, policy := map[], Price(0, 0), MeteringPolicy(500, 3);
      history := [];
    }

    method ChangePrice(price: Price)
      requires Valid()
      modifies this
      ensures Valid() && history == old(history) + [SetPrice(price)]
      ensures View() == old(View()).(price := price)
    {
      this.price := price;
      history := history + [SetPrice(price)];
      assert history[..|history| - 1] == old(history);
    }

    method ChangePolicy(policy: MeteringPolicy)
      requires Valid()
      modifies this
      ensures Valid() && history == old(history) + [SetPolicy(policy)]
      ensures View() == old(View()).(policy := policy)
    {
      this.policy := policy;
      history := history + [SetPolicy(policy)];
      assert history[..|history| - 1] == old(history);
    }

    /** One event, and what it asks of the host. */
    method Handle(event: Event, now: Millis) returns (actions: seq<Action>)
      requires Valid()
      modifies this
      ensures Valid() && history == old(history) + [Deliver(event, now)]
      ensures (View(), actions) == NodeStep(old(View()), Deliver(event, now))
    {
      match event {
        case PeerConnected(peer) => actions := HandleConnected(peer, now);
        case MessageReceived(peer, message) => actions := HandleMessage(peer, message, now);
        case BootstrapVerified(peer, amount, ok) => actions := HandleVerified(peer, amount, ok, now);
        case MeterSample(peer, counters) => actions := HandleSample(peer, counters, now);
        case PeerDisconnected(peer) => actions := HandleDisconnected(peer, now);
        case ClockTick => actions := [];
      }
      history := history + [Deliver(event, now)];
      assert history[..|history| - 1] == old(history);
    }

    /** Idempotent: a re-announce leaves a known peer alone. */
    method HandleConnected(peer: PeerId, now: Millis) returns (actions: seq<Action>)
      modifies `peers
      ensures peers == NodeStep(old(View()), Deliver(PeerConnected(peer), now)).0.peers
      ensures actions == NodeStep(old(View()), Deliver(PeerConnected(peer), now)).1
    {
      actions := [];
      if peer !in peers {
        peers := peers[peer := FRESH_SESSION];
        actions := actions + [SetAccess(peer, NoAccess)];
      } else {
        assert peers == peers[peer := peers[peer]];
      }
    }

    method HandleMessage(peer: PeerId, message: Message, now: Millis) returns (actions: seq<Action>)
      modifies `peers
      ensures peers == NodeStep(old(View()), Deliver(MessageReceived(peer, message), now)).0.peers
      ensures actions == NodeStep(old(View()), Deliver(MessageReceived(peer, message), now)).1
    {
      actions := [];
      if peer !in peers {
        assert peers - {peer} == peers;
        if message.Disconnect? {
          actions := [SetAccess(peer, NoAccess), StopMetering(peer)];
        }
        return;
      }
      var s := peers[peer];
      assert peers == peers[peer := s];
      match message {
        case BootstrapToken(token) =>
          peers := peers[peer := s.(phase := BootstrapPending)];
          actions := actions + [VerifyBootstrapToken(peer, token)];
        case Reject(_) =>
          if s.phase != Closed {
            var wasActive := s.phase == Active;
            peers := peers[peer := s.(phase := New)];
            if wasActive {
              actions := actions + [SetAccess(peer, NoAccess)];
              actions := actions + [StopMetering(peer)];
            }
          }
        case Disconnect =>
          peers := peers[peer := s.(phase := Closed)];
          actions := actions + [SetAccess(peer, NoAccess)];
          actions := actions + [StopMetering(peer)];
          peers := peers - {peer};
        case PriceSheet(_) =>
          peers := peers[peer := s.(lastPriceSheet := Some(message))];
        case Accept(productId) =>
          peers := peers[peer := s.(acceptedProduct := if |productId| == 32 then Some(productId) else None)];
        case MeteringReport(_, delivered, received) =>
          peers := peers[peer := s.(peerReport := Some(Counters(delivered, received)))];
        case Announce =>
        case BootstrapAck(_) =>
        case Unrecognised =>
      }
    }

    /** An accepted token activates, and unless the peer was active already the next sample is a new baseline. */
    method HandleVerified(peer: PeerId, amount: u64, ok: bool, now: Millis) returns (actions: seq<Action>)
      modifies `peers
      ensures peers == NodeStep(old(View()), Deliver(BootstrapVerified(peer, amount, ok), now)).0.peers
      ensures actions == NodeStep(old(View()), Deliver(BootstrapVerified(peer, amount, ok), now)).1
    {
      actions := [];
      if peer !in peers {
        assert peers - {peer} == peers;
        return;
      }
      var s := peers[peer];
      if ok {
        var wasActive := s.phase == Active;
        s := s.(balance := SatAdd(s.balance, amount));
        s := s.(phase := Active);
        if !wasActive {
          s := s.(lastCounters := None);
          s := s.(lastMeterAt := now);
        }
        actions := actions + [Send(peer, BootstrapAck(true))];
        actions := actions + [SetAccess(peer, ActiveAccess)];
        actions := actions + [StartMetering(peer)];
      } else {
        s := s.(phase := New);
        actions := actions + [Send(peer, BootstrapAck(false))];
        actions := actions + [SetAccess(peer, NoAccess)];
      }
      peers := peers[peer := s];
    }

    /** Bills the interval, checks drift, reports usage and cuts a spent or drifting peer. */
    method HandleSample(peer: PeerId, counters: Counters, now: Millis) returns (actions: seq<Action>)
      modifies `peers
      ensures peers == NodeStep(old(View()), Deliver(MeterSample(peer, counters), now)).0.peers
      ensures actions == NodeStep(old(View()), Deliver(MeterSample(peer, counters), now)).1
    {
      actions := [];
      if peer !in peers {
        assert peers - {peer} == peers;
        return;
      }
      var s := peers[peer];
      ghost var before := s;
      assert peers == peers[peer := s];
      if s.phase != Active {
        return;
      }
      if s.lastCounters.None? {
        peers := peers[peer := WithBaseline(s, counters, now)];
        return;
      }
      var elapsed := Since(now, s.lastMeterAt);
      var ourDelivered := SatSub(counters.delivered, s.meteringBaseline.delivered);
      var ourReceived := SatSub(counters.received, s.meteringBaseline.received);
      var billable := ourDelivered;
      if s.peerReport.Some? {
        billable := Reconcile(ourDelivered, s.peerReport.value.received);
      }
      var newUnits := SatSub(billable, s.billedUnits);
      var cost := CostScaled(price, elapsed, newUnits);
      s := s.(billedUnits := billable);
      s := s.(lastCounters := Some(counters));
      s := s.(lastMeterAt := now);
      var charging := cost > 0;
      var charge := Max(cost, 0);
      s := s.(balance := SatSub(s.balance, charge));
      var drifted, warning := JudgeDrift(peer, s, ourDelivered, counters);
      s := drifted;
      assert s.overToleranceStreak == NextStreak(before, policy, counters);
      actions := actions + warning;
      actions := actions + [Send(peer, MeteringReport(Since(now, s.meteringStart), ourDelivered, ourReceived))];
      var exhausted := charging && s.balance == 0;
      var driftPersisted := s.overToleranceStreak >= policy.maxStreak;
      assert exhausted == Exhausts(before, price, counters, now);
      assert driftPersisted == DriftPersists(before, policy, counters);
      if exhausted || driftPersisted {
        s := s.(phase := Suspended);
        if exhausted {
          actions := actions + [Send(peer, Reject(BalanceVerificationFailed))];
        }
        actions := actions + [SetAccess(peer, SuspendedAccess)];
        actions := actions + [StopMetering(peer)];
      }
      peers := peers[peer := s];
    }

    /** Compares the tallies of a delivery of `ourDelivered` units, without floating point. */
    method JudgeDrift(peer: PeerId, s: PeerSession, ourDelivered: u64, ghost c: Counters)
      returns (judged: PeerSession, warning: seq<Action>)
      requires ourDelivered == OurDelivered(s, c)
      ensures judged == s.(overToleranceStreak := NextStreak(s, policy, c))
      ensures warning == DriftWarning(peer, s, policy, c)
    {
      judged, warning := s, [];
      if s.peerReport.Some? {
        var diff := AbsDiff(ourDelivered, s.peerReport.value.received);
        var over := ourDelivered > 0 && diff * 10000 > ourDelivered * policy.toleranceBps;
        if over {
          judged := s.(overToleranceStreak := Min(s.overToleranceStreak + 1, U8_MAX));
          warning := [Send(peer, Reject(TransitLossToleranceExceeded))];
        } else {
          judged := s.(overToleranceStreak := 0);
        }
      }
    }

    method HandleDisconnected(peer: PeerId, now: Millis) returns (actions: seq<Action>)
      modifies `peers
      ensures peers == NodeStep(old(View()), Deliver(PeerDisconnected(peer), now)).0.peers
      ensures actions == NodeStep(old(View()), Deliver(PeerDisconnected(peer), now)).1
    {
      actions := [];
      if peer in peers {
        peers := peers[peer := peers[peer].(phase := Closed)];
      }
      actions := actions + [SetAccess(peer, NoAccess)];
      actions := actions + [StopMetering(peer)];
      peers := peers - {peer};
    }
  }
}
