/** Peers do not interfere, and every peer's ledger balances in every run. */
module SessionLaws {
  import opened Machine
  import opened Wrappers
  import opened Sequences
  import opened Pricing
  import opened Session

  // ---- One input seen from one peer ----

  predicate Concerns(input: Input, peer: PeerId) {
    input.Deliver? && !input.event.ClockTick? && input.event.peer == peer
  }

  function SessionOf(inputs: seq<Input>, peer: PeerId): Option<PeerSession> {
    Lookup(NodeRun(inputs).0.peers, peer)
  }

  function EffectOn(o: Option<PeerSession>, n: Node, input: Input, peer: PeerId): (Option<PeerSession>, seq<Action>) {
    if Concerns(input, peer) then PeerStep(o, n.price, n.policy, input.event, input.now) else (o, [])
  }

  /** Actions about one peer. */
  function About(actions: seq<Action>, peer: PeerId): seq<Action>
    decreases |actions|
  {
    if actions == [] then []
    else
      var n := |actions| - 1;
      About(actions[..n], peer) + (if actions[n].peer == peer then [actions[n]] else [])
  }

  lemma {:induction false} AboutConcat(a: seq<Action>, b: seq<Action>, peer: PeerId)
    ensures About(a + b, peer) == About(a, peer) + About(b, peer)
    decreases |b|
  {
    if b == [] {
      assert a + b == a;
    } else {
      var n := |b| - 1;
      AboutConcat(a, b[..n], peer);
      assert (a + b)[..|a| + n] == a + b[..n];
      Regroup(About(a, peer), About(b[..n], peer), if b[n].peer == peer then [b[n]] else []);
    }
  }

  lemma {:induction false} AboutSelf(actions: seq<Action>, peer: PeerId)
    requires forall a | a in actions :: a.peer == peer
    ensures About(actions, peer) == actions
    decreases |actions|
  {
    if actions != [] {
      var n := |actions| - 1;
      AboutSelf(actions[..n], peer);
      assert actions == actions[..n] + [actions[n]];
    }
  }

  lemma {:induction false} AboutOther(actions: seq<Action>, peer: PeerId)
    requires forall a | a in actions :: a.peer != peer
    ensures About(actions, peer) == []
    decreases |actions|
  {
    if actions != [] {
      AboutOther(actions[..|actions| - 1], peer);
    }
  }

  /** An event's actions all concern the event's peer. */
  lemma ActionsConcernPeer(o: Option<PeerSession>, price: Price, policy: MeteringPolicy, event: Event, now: Millis)
    requires !event.ClockTick?
    ensures forall a | a in PeerStep(o, price, policy, event, now).1 :: a.peer == event.peer
  {
    if event.MeterSample? && o.Some? {
      SampleActionsConcernPeer(event.peer, o.value, price, policy, event.counters, now);
    }
  }

  lemma SampleActionsConcernPeer(peer: PeerId, s: PeerSession, price: Price, policy: MeteringPolicy, c: Counters, now: Millis)
    ensures forall a | a in SampleActions(peer, s, price, policy, c, now) :: a.peer == peer
  {
    assert forall a | a in DriftWarning(peer, s, policy, c) :: a.peer == peer;
    assert forall a | a in CutActions(peer, s, price, policy, c, now) :: a.peer == peer;
  }

  lemma AboutEvent(o: Option<PeerSession>, price: Price, policy: MeteringPolicy, event: Event, now: Millis, peer: PeerId)
    requires !event.ClockTick?
    ensures var actions := PeerStep(o, price, policy, event, now).1;
            About(actions, peer) == if event.peer == peer then actions else []
  {
    ActionsConcernPeer(o, price, policy, event, now);
    var actions := PeerStep(o, price, policy, event, now).1;
    if event.peer == peer {
      AboutSelf(actions, peer);
    } else {
      AboutOther(actions, peer);
    }
  }

  lemma StoredElsewhere(peers: map<PeerId, PeerSession>, q: PeerId, o: Option<PeerSession>, peer: PeerId)
    ensures Lookup(Stored(peers, q, o), peer) == if q == peer then o else Lookup(peers, peer)
  {
  }

  /** An input changes a peer's session, and asks anything about it, only through that peer's own events. */
  lemma StepIsLocal(n: Node, input: Input, peer: PeerId)
    ensures var (n', actions) := NodeStep(n, input);
            var (o', mine) := EffectOn(Lookup(n.peers, peer), n, input, peer);
            Lookup(n'.peers, peer) == o' && About(actions, peer) == mine
  {
    if input.Deliver? && !input.event.ClockTick? {
      var o := Lookup(n.peers, input.event.peer);
      AboutEvent(o, n.price, n.policy, input.event, input.now, peer);
      StoredElsewhere(n.peers, input.event.peer, PeerStep(o, n.price, n.policy, input.event, input.now).0, peer);
    }
  }

  // ---- Non-interference ----

  /** The inputs that can matter to a peer: its own events and changes of price or policy. */
  function Only(inputs: seq<Input>, peer: PeerId): seq<Input>
    decreases |inputs|
  {
    if inputs == [] then []
    else
      var n := |inputs| - 1;
      Only(inputs[..n], peer) + (if !inputs[n].Deliver? || Concerns(inputs[n], peer) then [inputs[n]] else [])
  }

  /** Whatever the other peers do, a peer's session and the actions about it are those of a run
      containing its own events alone. */
  lemma {:induction false} NonInterference(inputs: seq<Input>, peer: PeerId)
    ensures var (n, log) := NodeRun(inputs);
            var (alone, mine) := NodeRun(Only(inputs, peer));
            && Lookup(n.peers, peer) == Lookup(alone.peers, peer)
            && n.price == alone.price && n.policy == alone.policy
            && About(log, peer) == mine
    decreases |inputs|
  {
    if inputs != [] {
      var before, input := inputs[..|inputs| - 1], inputs[|inputs| - 1];
      NonInterference(before, peer);
      var (n, log) := NodeRun(before);
      var (alone, mine) := NodeRun(Only(before, peer));
      StepIsLocal(n, input, peer);
      StepIsLocal(alone, input, peer);
      AboutConcat(log, NodeStep(n, input).1, peer);
      if !input.Deliver? || Concerns(input, peer) {
        RunSnoc(Only(before, peer), input);
        OwnActions(alone, input, peer);
      } else {
        assert Only(inputs, peer) == Only(before, peer);
        assert mine + [] == mine;
      }
    }
  }

  lemma RunSnoc(inputs: seq<Input>, input: Input)
    ensures var (n, log) := NodeRun(inputs);
            NodeRun(inputs + [input]) == (NodeStep(n, input).0, log + NodeStep(n, input).1)
  {
    assert (inputs + [input])[..|inputs|] == inputs;
  }

  lemma OwnActions(n: Node, input: Input, peer: PeerId)
    requires !input.Deliver? || Concerns(input, peer)
    ensures NodeStep(n, input).1 == EffectOn(Lookup(n.peers, peer), n, input, peer).1
  {
  }

  /** The inputs without announcements of peers already tracked when they arrive. */
  function WithoutReannounces(inputs: seq<Input>): seq<Input>
    decreases |inputs|
  {
    if inputs == [] then []
    else
      var k := |inputs| - 1;
      var input := inputs[k];
      WithoutReannounces(inputs[..k])
      + (if input.Deliver? && input.event.PeerConnected? && SessionOf(inputs[..k], input.event.peer).Some? then []
         else [input])
  }

  /** Polling peers may re-announce as often as they like: node and actions are the same without. */
  lemma {:induction false} ReannouncesStutter(inputs: seq<Input>)
    ensures NodeRun(WithoutReannounces(inputs)) == NodeRun(inputs)
    decreases |inputs|
  {
    if inputs != [] {
      var k := |inputs| - 1;
      var before, input, kept := inputs[..k], inputs[k], WithoutReannounces(inputs[..k]);
      ReannouncesStutter(before);
      var (n, log) := NodeRun(before);
      if input.Deliver? && input.event.PeerConnected? && SessionOf(before, input.event.peer).Some? {
        assert n.peers[input.event.peer := n.peers[input.event.peer]] == n.peers;
        assert log + [] == log && kept + [] == kept;
      } else {
        assert (kept + [input])[..|kept|] == kept;
      }
    }
  }

  // ---- The ledger of one peer since it was last admitted ----

  /** Money in and out of a peer's account. `lost` is credit refused because the balance was full;
      `forgiven` is charge the balance could not cover. */
  datatype Ledger = Ledger(credits: nat, lost: nat, tokens: nat, charged: nat, collected: nat,
                           forgiven: nat, shortfalls: nat, worstCharge: nat)

  const EMPTY_LEDGER := Ledger(0, 0, 0, 0, 0, 0, 0, 0)

  /** What one event means for the books, given the session before and after it. */
  function Booked(l: Ledger, o: Option<PeerSession>, o': Option<PeerSession>, price: Price, event: Event, now: Millis): Ledger
  {
    if o.None? || o'.None? then EMPTY_LEDGER
    else if event.BootstrapVerified? && event.ok then
      l.(credits := l.credits + event.amount,
         lost := l.lost + SatSub(event.amount, U64_MAX - o.value.balance),
         tokens := l.tokens + 1)
    else if event.MeterSample? && IsCharged(o.value) then
      var charge := IntervalCharge(o.value, price, event.counters, now);
      l.(charged := l.charged + charge,
         collected := l.collected + SatSub(o.value.balance, o'.value.balance),
         forgiven := l.forgiven + SatSub(charge, o.value.balance),
         shortfalls := l.shortfalls + if o.value.balance < charge then 1 else 0,
         worstCharge := Max(l.worstCharge, charge))
    else l
  }

  function LedgerOf(inputs: seq<Input>, peer: PeerId): Ledger
    decreases |inputs|
  {
    if inputs == [] then EMPTY_LEDGER
    else
      var k := |inputs| - 1;
      var l, n, input := LedgerOf(inputs[..k], peer), NodeRun(inputs[..k]).0, inputs[k];
      if !Concerns(input, peer) then l
      else
        var o := Lookup(n.peers, peer);
        var o' := PeerStep(o, n.price, n.policy, input.event, input.now).0;
        Booked(l, o, o', n.price, input.event, input.now)
  }

  /** Every credited milli-unit is in the balance, was collected or was refused for lack of room;
      every charged one was collected or forgiven; and a peer is let off at most once per token. */
  predicate Balances(l: Ledger, s: PeerSession) {
    && l.credits == s.balance + l.collected + l.lost
    && l.charged == l.collected + l.forgiven
    && l.shortfalls + (if s.phase == Active then 1 else 0) <= l.tokens
    && l.forgiven <= l.shortfalls * l.worstCharge
    && (0 < l.lost ==> U64_MAX < l.credits)
  }

  lemma SampleBalances(l: Ledger, s: PeerSession, price: Price, policy: MeteringPolicy, c: Counters, now: Millis)
    requires Balances(l, s) && IsCharged(s)
    ensures var s' := Charged(s, price, policy, c, now);
            Balances(Booked(l, Some(s), Some(s'), price, MeterSample([], c), now), s')
  {
    var charge := IntervalCharge(s, price, c, now);
    var worst := Max(l.worstCharge, charge);
    MulMonotone(l.worstCharge, worst, l.shortfalls);
    assert (l.shortfalls + 1) * worst == l.shortfalls * worst + worst;
  }

  lemma EventBalances(l: Ledger, s: PeerSession, price: Price, policy: MeteringPolicy, event: Event, now: Millis)
    requires !event.ClockTick? && Balances(l, s)
    ensures var o' := PeerStep(Some(s), price, policy, event, now).0;
            o'.Some? ==>
              Balances(Booked(l, Some(s), o', price, event, now), o'.value)
  {
    if event.MeterSample? && IsCharged(s) {
      SampleBalances(l, s, price, policy, event.counters, now);
    }
  }

  /** The law of every run, for every tracked peer, whatever prices and policies were in force. */
  lemma {:induction false} LedgerBalances(inputs: seq<Input>, peer: PeerId)
    requires SessionOf(inputs, peer).Some?
    ensures Balances(LedgerOf(inputs, peer), SessionOf(inputs, peer).value)
    decreases |inputs|
  {
    var k := |inputs| - 1;
    var before, input, n := inputs[..k], inputs[k], NodeRun(inputs[..k]).0;
    StepIsLocal(n, input, peer);
    if !Concerns(input, peer) {
      LedgerBalances(before, peer);
    } else if SessionOf(before, peer).Some? {
      LedgerBalances(before, peer);
      EventBalances(LedgerOf(before, peer), SessionOf(before, peer).value, n.price, n.policy, input.event, input.now);
    }
  }

  /** With less than 2^64 credited in all, nothing is lost: credits equal balance plus collections,
      and the seller's whole loss is at most one interval's charge per accepted token. */
  lemma {:induction false} ConservationWithBoundedLoss(inputs: seq<Input>, peer: PeerId)
    requires SessionOf(inputs, peer).Some? && LedgerOf(inputs, peer).credits <= U64_MAX
    ensures var l, s := LedgerOf(inputs, peer), SessionOf(inputs, peer).value;
            && l.credits == s.balance + l.collected
            && l.charged == l.collected + l.forgiven
            && l.shortfalls <= l.tokens
            && l.charged - l.collected <= l.tokens * l.worstCharge
  {
    LedgerBalances(inputs, peer);
    var l := LedgerOf(inputs, peer);
    MulMonotone(l.shortfalls, l.tokens, l.worstCharge);
  }
}
