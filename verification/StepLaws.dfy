/** What each event does to a peer and asks of the host, told from the outside: in terms of what is stored, sampled,
    reported and charged, and of no rule of the session's own. */
module StepLaws {
  import opened Machine
  import opened Wrappers
  import opened Pricing
  import opened Protocol
  import opened Session

  function Sampling(n: Node, peer: PeerId, c: Counters, now: Millis): (Node, seq<Action>) {
    NodeStep(n, Deliver(MeterSample(peer, c), now))
  }

  /** The peer is tracked, active and has a baseline, so a sample is charged. */
  predicate Metered(n: Node, peer: PeerId) {
    peer in n.peers && n.peers[peer].phase == Active && n.peers[peer].lastCounters.Some?
  }

  /** A peer is billed on the higher of two tallies: what was delivered since the baseline by our counter, and what it
      last said it received. */
  lemma BilledIsTheHigherTally(n: Node, peer: PeerId, c: Counters, now: Millis)
    requires Metered(n, peer)
    ensures peer in Sampling(n, peer, c, now).0.peers
    ensures var s, billed := n.peers[peer], Sampling(n, peer, c, now).0.peers[peer].billedUnits;
            && c.delivered - s.meteringBaseline.delivered <= billed
            && (s.peerReport.Some? ==> s.peerReport.value.received <= billed)
            && (|| billed == c.delivered - s.meteringBaseline.delivered
                || (s.peerReport.Some? && billed == s.peerReport.value.received)
                || (billed == 0 && c.delivered < s.meteringBaseline.delivered))
  {
  }

  /** The milliseconds since the last sample, and the units billed beyond those billed before. */
  function Elapsed(n: Node, peer: PeerId, now: Millis): u64
    requires Metered(n, peer)
  {
    if n.peers[peer].lastMeterAt < now then now - n.peers[peer].lastMeterAt else 0
  }

  function Risen(n: Node, peer: PeerId, c: Counters, now: Millis): u64
    requires Metered(n, peer)
  {
    BilledIsTheHigherTally(n, peer, c, now);
    var before, after := n.peers[peer].billedUnits, Sampling(n, peer, c, now).0.peers[peer].billedUnits;
    if before < after then after - before else 0
  }

  /** The balance falls by the cost of the elapsed time and the newly billed units, never below zero; a cost that is
      negative leaves it. Running out, or a run of drift at the limit, suspends and nothing else does. */
  lemma ChargeIsTheCost(n: Node, peer: PeerId, c: Counters, now: Millis)
    requires Metered(n, peer)
    ensures peer in Sampling(n, peer, c, now).0.peers
    ensures var s, s' := n.peers[peer], Sampling(n, peer, c, now).0.peers[peer];
            var cost := CostScaled(n.price, Elapsed(n, peer, now), Risen(n, peer, c, now));
            && (cost <= 0 ==> s'.balance == s.balance)
            && (0 < cost <= s.balance ==> s'.balance == s.balance - cost)
            && (s.balance < cost ==> s'.balance == 0)
            && (s'.phase == Suspended <==> (0 < cost && s'.balance == 0) || n.policy.maxStreak <= s'.overToleranceStreak)
            && (s'.phase == Active || s'.phase == Suspended)
            && s'.lastCounters == Some(c) && s'.lastMeterAt == now
            && s' == s.(billedUnits := s'.billedUnits, balance := s'.balance, phase := s'.phase,
                        overToleranceStreak := s'.overToleranceStreak, lastCounters := Some(c), lastMeterAt := now)
  {
    BilledIsTheHigherTally(n, peer, c, now);
  }

  /** The tallies lie further apart than the tolerated ten-thousandths of what we delivered. */
  predicate Drifts(n: Node, peer: PeerId, c: Counters)
    requires Metered(n, peer)
  {
    var s := n.peers[peer];
    var own := c.delivered - s.meteringBaseline.delivered;
    && s.peerReport.Some? && 0 < own
    && (|| own * n.policy.toleranceBps < (s.peerReport.value.received - own) * 10000
        || own * n.policy.toleranceBps < (own - s.peerReport.value.received) * 10000)
  }

  /** The streak of such samples is one longer, or over; without a report there is nothing to compare and it stands. */
  lemma StreakFollowsTheTallies(n: Node, peer: PeerId, c: Counters, now: Millis)
    requires Metered(n, peer)
    ensures peer in Sampling(n, peer, c, now).0.peers
    ensures var s, streak := n.peers[peer], Sampling(n, peer, c, now).0.peers[peer].overToleranceStreak;
            && (s.peerReport.None? ==> streak == s.overToleranceStreak)
            && (s.peerReport.Some? && !Drifts(n, peer, c) ==> streak == 0)
            && (Drifts(n, peer, c) ==> streak == if s.overToleranceStreak < 255 then s.overToleranceStreak + 1 else 255)
  {
  }

  /** What the host is asked to do after a charged sample, in order: warn of drift, report the usage since the baseline,
      say that the balance is gone, block and stop metering. */
  lemma SampleIsReported(n: Node, peer: PeerId, c: Counters, now: Millis)
    requires Metered(n, peer)
    ensures peer in Sampling(n, peer, c, now).0.peers
    ensures var s, (n', actions) := n.peers[peer], Sampling(n, peer, c, now);
            var since := if s.meteringStart < now then now - s.meteringStart else 0;
            var delivered := if s.meteringBaseline.delivered < c.delivered then c.delivered - s.meteringBaseline.delivered else 0;
            var received := if s.meteringBaseline.received < c.received then c.received - s.meteringBaseline.received else 0;
            var cost := CostScaled(n.price, Elapsed(n, peer, now), Risen(n, peer, c, now));
            actions == (if Drifts(n, peer, c) then [Send(peer, Reject(TransitLossToleranceExceeded))] else [])
                       + [Send(peer, MeteringReport(since, delivered, received))]
                       + (if 0 < cost && s.balance <= cost then [Send(peer, Reject(BalanceVerificationFailed))] else [])
                       + (if n'.peers[peer].phase == Suspended then [SetAccess(peer, SuspendedAccess), StopMetering(peer)] else [])
  {
    BilledIsTheHigherTally(n, peer, c, now);
    ChargeIsTheCost(n, peer, c, now);
    StreakFollowsTheTallies(n, peer, c, now);
  }

  /** The first sample of an active peer starts a metering session with nothing billed, compared or charged. Samples of
      other peers do nothing. */
  lemma FirstSampleIsTheBaseline(n: Node, peer: PeerId, c: Counters, now: Millis)
    requires !Metered(n, peer)
    ensures var (n', actions) := Sampling(n, peer, c, now);
            && actions == []
            && (peer !in n.peers || n.peers[peer].phase != Active ==> n' == n)
            && (peer in n.peers && n.peers[peer].phase == Active ==>
                  n' == n.(peers := n.peers[peer := n.peers[peer].(
                    lastCounters := Some(c), lastMeterAt := now, meteringBaseline := c, meteringStart := now,
                    peerReport := None, billedUnits := 0, overToleranceStreak := 0)]))
  {
    if peer !in n.peers {
      assert n.peers - {peer} == n.peers;
    } else if n.peers[peer].phase != Active {
      assert n.peers[peer := n.peers[peer]] == n.peers;
    }
  }

  // ---- Everything else ----

  function Delivering(n: Node, event: Event, now: Millis): (Node, seq<Action>) { NodeStep(n, Deliver(event, now)) }

  /** The node with one peer's session changed. */
  function With(n: Node, peer: PeerId, s: PeerSession): Node { n.(peers := n.peers[peer := s]) }

  /** An accepted token is credited in full up to the largest balance and admits the peer; a refused one credits nothing and
      blocks it. Either way it is told. An answer for an unknown peer is dropped. */
  lemma TokenIsCredited(n: Node, peer: PeerId, amount: u64, ok: bool, now: Millis)
    ensures var (n', actions) := Delivering(n, BootstrapVerified(peer, amount, ok), now);
            && (peer !in n.peers ==> n' == n && actions == [])
            && (peer in n.peers && !ok ==>
                  && n' == With(n, peer, n.peers[peer].(phase := New))
                  && actions == [Send(peer, BootstrapAck(false)), SetAccess(peer, NoAccess)])
            && (peer in n.peers && ok ==>
                  && peer in n'.peers && n' == With(n, peer, n'.peers[peer])
                  && (var s, s' := n.peers[peer], n'.peers[peer];
                      && s'.balance == (if s.balance + amount <= 0xFFFF_FFFF_FFFF_FFFF then s.balance + amount else 0xFFFF_FFFF_FFFF_FFFF)
                      && s' == (if s.phase == Active then s.(balance := s'.balance)
                                else s.(balance := s'.balance, phase := Active, lastCounters := None, lastMeterAt := now)))
                  && actions == [Send(peer, BootstrapAck(true)), SetAccess(peer, ActiveAccess), StartMetering(peer)])
  {
    if peer !in n.peers {
      assert n.peers - {peer} == n.peers;
    }
  }

  /** A message from a known peer is kept for what it says: the last usage report, price sheet and chosen product; a token
      goes to the mint; a rejection takes an active peer out of service; anything else is only heard. */
  lemma MessageIsHeard(n: Node, peer: PeerId, m: Message, now: Millis)
    requires peer in n.peers
    ensures var s, (n', actions) := n.peers[peer], Delivering(n, MessageReceived(peer, m), now);
            match m
            case BootstrapToken(token) =>
              n' == With(n, peer, s.(phase := BootstrapPending)) && actions == [VerifyBootstrapToken(peer, token)]
            case MeteringReport(_, delivered, received) =>
              n' == With(n, peer, s.(peerReport := Some(Counters(delivered, received)))) && actions == []
            case PriceSheet(_) => n' == With(n, peer, s.(lastPriceSheet := Some(m))) && actions == []
            case Accept(id) =>
              n' == With(n, peer, s.(acceptedProduct := if |id| == 32 then Some(id) else None)) && actions == []
            case Reject(_) =>
              && n' == With(n, peer, if s.phase == Closed then s else s.(phase := New))
              && actions == (if s.phase == Active then [SetAccess(peer, NoAccess), StopMetering(peer)] else [])
            case Disconnect =>
              n' == n.(peers := n.peers - {peer}) && actions == [SetAccess(peer, NoAccess), StopMetering(peer)]
            case Announce => n' == n && actions == []
            case BootstrapAck(_) => n' == n && actions == []
            case Unrecognised => n' == n && actions == []
  {
    assert n.peers[peer := n.peers[peer]] == n.peers;
  }

  /** A stranger is only heard when it says goodbye, and a greeting makes it known: blocked, unpaid and unmetered. */
  lemma StrangersAreBlocked(n: Node, peer: PeerId, m: Message, now: Millis)
    requires peer !in n.peers
    ensures var (n', actions) := Delivering(n, MessageReceived(peer, m), now);
            n' == n && actions == if m == Disconnect then [SetAccess(peer, NoAccess), StopMetering(peer)] else []
    ensures var (n', actions) := Delivering(n, PeerConnected(peer), now);
            && n' == With(n, peer, PeerSession(New, 0, None, 0, Counters(0, 0), 0, None, 0, 0, None, None))
            && actions == [SetAccess(peer, NoAccess)]
  {
    assert n.peers - {peer} == n.peers;
  }

  lemma GoodbyeForgets(n: Node, peer: PeerId, now: Millis)
    ensures Delivering(n, PeerDisconnected(peer), now)
         == (n.(peers := n.peers - {peer}), [SetAccess(peer, NoAccess), StopMetering(peer)])
    ensures peer in n.peers ==> Delivering(n, PeerConnected(peer), now) == (n, [])
    ensures Delivering(n, ClockTick, now) == (n, [])
  {
    if peer in n.peers {
      assert n.peers[peer := n.peers[peer]] == n.peers;
    }
  }
}
