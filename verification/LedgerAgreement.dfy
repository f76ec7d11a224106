/** Seller and buyer in a closed loop: the buyer's own estimate of its remaining credit, made from
    the seller's reports and the advertised price alone, stays within rounding of the seller's ledger. */
module LedgerAgreement {
  import opened Machine
  import opened Wrappers
  import opened Pricing
  import opened Protocol
  import opened Session
  import opened SessionLaws
  import opened MeteringLaws
  import opened Host
  import opened Consume

  /** The terms of one relationship and how it begins. */
  datatype Deal = Deal(peer: PeerId, price: Price, policy: MeteringPolicy, opts: Options, paid: u64, token: Bytes, start: Millis)

  datatype MarketOp = SellerSamples(counters: Counters, now: Millis) | BuyerPolls(now: Millis)

  /** The seller's history, its queue for the buyer, and the buyer. `over` is set by the first poll
      that finds the buyer cut off or makes it want to top up. */
  datatype Market = Market(history: seq<Input>, queue: seq<Message>, buyer: BuyerState, over: bool)

  function Opening(d: Deal): seq<Input> {
    [SetPrice(d.price), SetPolicy(d.policy), Deliver(PeerConnected(d.peer), d.start),
     Deliver(MessageReceived(d.peer, BootstrapToken(d.token)), d.start),
     Deliver(BootstrapVerified(d.peer, d.paid, true), d.start)]
  }

  /** What the buyer would make of a poll now. */
  function PollNow(m: Market, d: Deal): (BuyerState, PollEvent) {
    PollStep(m.buyer, d.opts, Reply(m.queue + [Announce], 0, 0, false))
  }

  function MarketStep(m: Market, d: Deal, op: MarketOp): Market {
    if m.over then m
    else match op
      case SellerSamples(c, now) =>
        var input := Deliver(MeterSample(d.peer, c), now);
        m.(history := m.history + [input],
           queue := Posted(m.queue, NodeStep(NodeRun(m.history).0, input).1, d.peer))
      case BuyerPolls(now) =>
        var announced := m.history + [Deliver(PeerConnected(d.peer), now)];
        var ack := AckOf(m.buyer);
        var (buyer, event) := PollNow(m, d);
        var cost := BelievedCost(d.opts, None, event.report);
        Market(if ack.Some? then announced + [Deliver(MessageReceived(d.peer, ack.value), now)] else announced,
               [], buyer, WantsTopUp(m.buyer, d.opts, event.cutOff, cost))
  }

  function MarketRun(d: Deal, ops: seq<MarketOp>): Market
    decreases |ops|
  {
    if ops == [] then Market(Opening(d), [], BuyerState(d.paid, 0, 0), false)
    else MarketStep(MarketRun(d, ops[..|ops| - 1]), d, ops[|ops| - 1])
  }

  function LastSample(ops: seq<MarketOp>): Option<MarketOp>
    decreases |ops|
  {
    if ops == [] then None
    else if ops[|ops| - 1].SellerSamples? then Some(ops[|ops| - 1])
    else LastSample(ops[..|ops| - 1])
  }

  predicate NotBefore(earlier: Option<MarketOp>, op: MarketOp) {
    op.SellerSamples? && earlier.Some? && earlier.value.SellerSamples? ==>
      earlier.value.counters.delivered <= op.counters.delivered && earlier.value.now <= op.now
  }

  /** The seller's meter and clock never run backwards. */
  predicate Forward(ops: seq<MarketOp>)
    decreases |ops|
  {
    ops != [] ==> Forward(ops[..|ops| - 1]) && NotBefore(LastSample(ops[..|ops| - 1]), ops[|ops| - 1])
  }

  // ---- Following one peer through the seller's history ----

  lemma Extends(h: seq<Input>, event: Event, now: Millis, peer: PeerId)
    requires !event.ClockTick? && event.peer == peer
    ensures var input, n := Deliver(event, now), NodeRun(h).0;
            var o := SessionOf(h, peer);
            var (o', actions) := PeerStep(o, n.price, n.policy, event, now);
            && SessionOf(h + [input], peer) == o'
            && NodeStep(n, input).1 == actions
            && NodeRun(h + [input]).0.price == n.price && NodeRun(h + [input]).0.policy == n.policy
            && LedgerOf(h + [input], peer) == Booked(LedgerOf(h, peer), o, o', n.price, event, now)
            && SittingOf(h + [input], peer)
               == (if o.None? || !event.MeterSample? || o.value.phase != Active then SittingOf(h, peer)
                   else if o.value.lastCounters.None? then NEW_SITTING
                   else Sampled(SittingOf(h, peer), o.value, n.price, n.policy, event.counters, now, actions))
  {
    assert (h + [Deliver(event, now)])[..|h|] == h;
    StepIsLocal(NodeRun(h).0, Deliver(event, now), peer);
  }

  lemma Opens(d: Deal)
    ensures var h := Opening(d);
            && SessionOf(h, d.peer) == Some(FRESH_SESSION.(balance := d.paid, phase := Active, lastMeterAt := d.start))
            && NodeRun(h).0.price == d.price && NodeRun(h).0.policy == d.policy
            && LedgerOf(h, d.peer) == EMPTY_LEDGER.(credits := d.paid, tokens := 1)
  {
    var h := Opening(d);
    OpensWithTerms(d);
    assert h[..3] == h[..2] + [h[2]] && h[..4] == h[..3] + [h[3]] && h == h[..4] + [h[4]];
    Extends(h[..2], PeerConnected(d.peer), d.start, d.peer);
    Extends(h[..3], MessageReceived(d.peer, BootstrapToken(d.token)), d.start, d.peer);
    Extends(h[..4], BootstrapVerified(d.peer, d.paid, true), d.start, d.peer);
  }

  lemma OpensWithTerms(d: Deal)
    ensures var h := Opening(d)[..2];
            && NodeRun(h).0 == Node(map[], d.price, d.policy)
            && LedgerOf(h, d.peer) == EMPTY_LEDGER
  {
    var h := Opening(d);
    assert h[..2][..1] == h[..1] && h[..1][..0] == [];
    assert NodeRun(h[..1]).0 == EMPTY_NODE.(price := d.price);
    assert LedgerOf(h[..1], d.peer) == EMPTY_LEDGER;
  }

  // ---- What a sample leaves in the queue ----

  lemma PostedConcat(queue: seq<Message>, a: seq<Action>, b: seq<Action>, peer: PeerId)
    ensures Posted(queue, a + b, peer) == Posted(Posted(queue, a, peer), b, peer)
    decreases |b|
  {
    if b == [] {
      assert a + b == a;
    } else {
      PostedConcat(queue, a, b[..|b| - 1], peer);
      assert (a + b)[..|a + b| - 1] == a + b[..|b| - 1];
    }
  }

  lemma PostedOne(queue: seq<Message>, a: Action, peer: PeerId)
    ensures Posted(queue, [a], peer) == if a.Send? && a.peer == peer then Enqueued(queue, a.message) else queue
  {
    assert [a][..0] == [];
  }

  lemma {:induction false} PostedKeepsReport(queue: seq<Message>, actions: seq<Action>, peer: PeerId)
    requires forall a | a in actions :: !(a.Send? && a.message.MeteringReport?)
    ensures FindMeteringReport(Posted(queue, actions, peer)) == FindMeteringReport(queue)
    decreases |actions|
  {
    if actions != [] {
      var k := |actions| - 1;
      PostedKeepsReport(queue, actions[..k], peer);
      if actions[k].Send? && actions[k].peer == peer {
        FindInConcat(Posted(queue, actions[..k], peer), actions[k].message);
      }
    }
  }

  /** After a charged sample the queue's report is that sample's. */
  lemma ReportReplaces(queue: seq<Message>, report: Message)
    requires report.MeteringReport?
    ensures FindMeteringReport(Enqueued(queue, report)) == Some(report)
  {
    WithoutReportsHasNone(queue);
    FindsNothing(WithoutReports(queue));
    FindInConcat(WithoutReports(queue), report);
  }

  lemma {:induction false} SamplePosts(queue: seq<Message>, peer: PeerId, s: PeerSession, price: Price, policy: MeteringPolicy, c: Counters, now: Millis)
    ensures FindMeteringReport(Posted(queue, SampleActions(peer, s, price, policy, c, now), peer))
         == Some(MeteringReport(Since(now, s.meteringStart), OurDelivered(s, c), OurReceived(s, c)))
  {
    var warning, report, cut := DriftWarning(peer, s, policy, c), UsageReport(peer, s, c, now),
                                CutActions(peer, s, price, policy, c, now);
    var q := Posted(queue, warning, peer);
    PostedConcat(queue, warning + [report], cut, peer);
    PostedConcat(queue, warning, [report], peer);
    PostedOne(q, report, peer);
    ReportReplaces(q, report.message);
    PostedKeepsReport(Enqueued(q, report.message), cut, peer);
  }

  // ---- The invariant of the loop ----

  /** Units delivered between the baseline and the last sample. */
  function DeliveredSoFar(s: PeerSession): int {
    if s.lastCounters.Some? then s.lastCounters.value.delivered - s.meteringBaseline.delivered else 0
  }

  function TrueCost(d: Deal, elapsed: int, units: int): int {
    TruncDiv(elapsed * d.price.perSecond, 1000) + units * d.price.perUnit
  }

  /** Before the baseline nothing has been charged or reported; after it the seller's books, the queued
      report and the buyer's acknowledgement all speak of the same session. */
  predicate SessionAgrees(s: PeerSession, l: Ledger, t: Sitting, m: Market, d: Deal) {
    if s.lastCounters.None? then
      && s.phase == Active && l.charged == 0 && s.peerReport.None?
      && m.buyer.ackedReceived == 0 && FindMeteringReport(m.queue).None?
    else
      && s.phase in {Active, Suspended}
      && t.steady && t.regressed == 0 && t.money == l.charged
      && 0 <= DeliveredSoFar(s) == s.billedUnits
      && (s.peerReport.Some? ==> s.peerReport.value.received <= DeliveredSoFar(s))
      && m.buyer.ackedReceived <= DeliveredSoFar(s)
      && s.meteringStart <= s.lastMeterAt
      && (TrueCost(d, s.lastMeterAt - s.meteringStart, DeliveredSoFar(s)) <= I64_MAX ==> t.exact)
      && (FindMeteringReport(m.queue).Some? ==>
            && 1 <= t.samples
            && FindMeteringReport(m.queue).value.MeteringReport?
            && FindMeteringReport(m.queue).value.elapsedMs == s.lastMeterAt - s.meteringStart
            && FindMeteringReport(m.queue).value.delivered == DeliveredSoFar(s))
  }

  predicate MarketInvariant(m: Market, d: Deal, last: Option<MarketOp>) {
    var o := SessionOf(m.history, d.peer);
    && o.Some?
    && NodeRun(m.history).0.price == d.price && NodeRun(m.history).0.policy == d.policy
    && LedgerOf(m.history, d.peer).credits == d.paid
    && m.buyer.paidScaled == d.paid
    && SessionAgrees(o.value, LedgerOf(m.history, d.peer), SittingOf(m.history, d.peer), m, d)
    && (o.value.lastCounters.Some? ==>
          && last.Some? && last.value.SellerSamples?
          && o.value.lastCounters.value.delivered <= last.value.counters.delivered
          && o.value.lastMeterAt <= last.value.now)
  }

  predicate FairDeal(d: Deal) {
    && 0 <= d.price.perSecond && 0 <= d.price.perUnit
    && d.opts.price == d.price && !d.opts.hasMeter
    && d.paid <= I64_MAX
  }

  /** Costs grow with time and units, and an interval costs no more than the whole. */
  lemma CostMonotone(d: Deal, a: nat, b: nat, u: nat, v: nat)
    requires 0 <= d.price.perSecond && 0 <= d.price.perUnit
    ensures 0 <= TrueCost(d, a, u) <= TrueCost(d, a + b, u + v)
    ensures 0 <= TrueCost(d, b, v) <= TrueCost(d, a + b, u + v)
  {
    MulNonNegative(a, d.price.perSecond);
    MulNonNegative(b, d.price.perSecond);
    MulNonNegative(u, d.price.perUnit);
    MulNonNegative(v, d.price.perUnit);
    assert (a + b) * d.price.perSecond == a * d.price.perSecond + b * d.price.perSecond;
    assert (u + v) * d.price.perUnit == u * d.price.perUnit + v * d.price.perUnit;
  }

  lemma ChargedSampleAgrees(m: Market, m': Market, d: Deal, s: PeerSession, l: Ledger, t: Sitting, c: Counters, now: Millis)
    requires FairDeal(d) && IsCharged(s) && SessionAgrees(s, l, t, m, d)
    requires s.lastCounters.value.delivered <= c.delivered && s.lastMeterAt <= now
    requires m'.buyer == m.buyer
    requires m'.queue == Posted(m.queue, SampleActions(d.peer, s, d.price, d.policy, c, now), d.peer)
    ensures var s' := Charged(s, d.price, d.policy, c, now);
            SessionAgrees(s', Booked(l, Some(s), Some(s'), d.price, MeterSample(d.peer, c), now),
                          Sampled(t, s, d.price, d.policy, c, now, SampleActions(d.peer, s, d.price, d.policy, c, now)), m', d)
  {
    SamplePosts(m.queue, d.peer, s, d.price, d.policy, c, now);
    var s' := Charged(s, d.price, d.policy, c, now);
    assert Billable(s, c) == OurDelivered(s, c) == DeliveredSoFar(s');
    CostMonotone(d, s.lastMeterAt - s.meteringStart, now - s.lastMeterAt, DeliveredSoFar(s), NewUnits(s, c));
  }

  lemma SampleAgrees(m: Market, d: Deal, last: Option<MarketOp>, op: MarketOp)
    requires FairDeal(d) && MarketInvariant(m, d, last) && !m.over
    requires op.SellerSamples? && NotBefore(last, op)
    ensures MarketInvariant(MarketStep(m, d, op), d, Some(op))
  {
    var s, l, t := SessionOf(m.history, d.peer).value, LedgerOf(m.history, d.peer), SittingOf(m.history, d.peer);
    var m' := MarketStep(m, d, op);
    Extends(m.history, MeterSample(d.peer, op.counters), op.now, d.peer);
    if IsCharged(s) {
      ChargedSampleAgrees(m, m', d, s, l, t, op.counters, op.now);
    } else {
      assert NodeStep(NodeRun(m.history).0, Deliver(MeterSample(d.peer, op.counters), op.now)).1 == [];
      assert m'.queue == m.queue;
    }
  }

  lemma KeptShareIsLess(rx: u64, pct: u8)
    ensures KeptShare(rx, pct) <= rx
  {
  }

  /** Announcements and the buyer's acknowledgement touch neither the seller's books nor its meter. */
  lemma PollLeavesBooks(h: seq<Input>, d: Deal, s: PeerSession, ack: Option<Message>, now: Millis)
    requires SessionOf(h, d.peer) == Some(s) && (ack.Some? ==> ack.value.MeteringReport?)
    ensures var h1 := h + [Deliver(PeerConnected(d.peer), now)];
            var h2 := if ack.Some? then h1 + [Deliver(MessageReceived(d.peer, ack.value), now)] else h1;
            && SessionOf(h2, d.peer)
               == Some(if ack.Some? then s.(peerReport := Some(Counters(ack.value.delivered, ack.value.received))) else s)
            && NodeRun(h2).0.price == NodeRun(h).0.price && NodeRun(h2).0.policy == NodeRun(h).0.policy
            && LedgerOf(h2, d.peer) == LedgerOf(h, d.peer) && SittingOf(h2, d.peer) == SittingOf(h, d.peer)
  {
    var h1 := h + [Deliver(PeerConnected(d.peer), now)];
    Extends(h, PeerConnected(d.peer), now, d.peer);
    if ack.Some? {
      Extends(h1, MessageReceived(d.peer, ack.value), now, d.peer);
    }
  }

  /** What the seller is told is what the buyer has to acknowledge, as received. */
  lemma SellerHearsTheAck(m: Market, d: Deal, now: Millis)
    requires !m.over && SessionOf(m.history, d.peer).Some?
    ensures var before, after := SessionOf(m.history, d.peer), SessionOf(MarketStep(m, d, BuyerPolls(now)).history, d.peer);
            after == if 0 < m.buyer.ackedReceived
                     then Some(before.value.(peerReport := Some(Counters(0, m.buyer.ackedReceived)))) else before
  {
    PollLeavesBooks(m.history, d, SessionOf(m.history, d.peer).value, AckOf(m.buyer), now);
  }

  lemma PolledSessionAgrees(m: Market, m': Market, d: Deal, s: PeerSession, l: Ledger, t: Sitting)
    requires SessionAgrees(s, l, t, m, d) && !d.opts.hasMeter
    requires m'.queue == [] && m'.buyer == PollNow(m, d).0
    ensures var ack := AckOf(m.buyer);
            SessionAgrees(if ack.Some? then s.(peerReport := Some(Counters(ack.value.delivered, ack.value.received))) else s,
                          l, t, m', d)
  {
    FindInConcat(m.queue, Announce);
    var report := FindMeteringReport(m.queue);
    if report.Some? {
      KeptShareIsLess(report.value.delivered, d.opts.understatePct);
    }
    assert FindMeteringReport([]) == None;
  }

  lemma PollAgrees(m: Market, d: Deal, last: Option<MarketOp>, op: MarketOp)
    requires FairDeal(d) && MarketInvariant(m, d, last) && op.BuyerPolls? && !MarketStep(m, d, op).over
    ensures MarketInvariant(MarketStep(m, d, op), d, last)
  {
    var s := SessionOf(m.history, d.peer).value;
    PollLeavesBooks(m.history, d, s, AckOf(m.buyer), op.now);
    PolledSessionAgrees(m, MarketStep(m, d, op), d, s, LedgerOf(m.history, d.peer), SittingOf(m.history, d.peer));
  }

  lemma {:induction false} MarketHolds(d: Deal, ops: seq<MarketOp>)
    requires FairDeal(d) && Forward(ops) && !MarketRun(d, ops).over
    ensures MarketInvariant(MarketRun(d, ops), d, LastSample(ops))
    decreases |ops|
  {
    if ops == [] {
      Opens(d);
    } else {
      var before, op := ops[..|ops| - 1], ops[|ops| - 1];
      MarketHolds(d, before);
      if op.SellerSamples? {
        SampleAgrees(MarketRun(d, before), d, LastSample(before), op);
      } else {
        PollAgrees(MarketRun(d, before), d, LastSample(before), op);
      }
    }
  }

  /** Rounding once over the whole session, against once per sample. */
  lemma RoundedOnce(d: Deal, elapsed: nat, time: int, samples: nat)
    requires 0 <= d.price.perSecond && 1 <= samples
    requires 1000 * time <= elapsed * d.price.perSecond <= 1000 * time + 999 * samples
    ensures time <= TruncDiv(elapsed * d.price.perSecond, 1000) <= time + 999 * samples / 1000
  {
    MulNonNegative(elapsed, d.price.perSecond);
  }

  /** The relationship has not been topped up or cut off, and a poll now brings a report whose cost is in range. */
  predicate BringsReport(d: Deal, ops: seq<MarketOp>) {
    && FairDeal(d) && Forward(ops) && !MarketRun(d, ops).over
    && var report := PollNow(MarketRun(d, ops), d).1.report;
       && report.Some? && report.value.MeteringReport?
       && TrueCost(d, report.value.elapsedMs, report.value.delivered) <= I64_MAX
  }

  /** An in-range report is costed exactly. */
  lemma BelievedIsTheTrueCost(m: Market, d: Deal)
    requires FairDeal(d) && m.buyer.paidScaled == d.paid
    requires var report := FindMeteringReport(m.queue);
             report.Some? && report.value.MeteringReport?
             && TrueCost(d, report.value.elapsedMs, report.value.delivered) <= I64_MAX
    ensures var report := FindMeteringReport(m.queue).value;
            PollNow(m, d).1.remainingScaled == d.paid - TrueCost(d, report.elapsedMs, report.delivered)
  {
    FindInConcat(m.queue, Announce);
    var report := FindMeteringReport(m.queue).value;
    CostMonotone(d, report.elapsedMs, 0, report.delivered, 0);
    CostExactIff(d.price, report.elapsedMs, report.delivered);
    assert BelievedCost(d.opts, None, Some(report)) == TrueCost(d, report.elapsedMs, report.delivered);
  }

  /** What the waiting report says is owed, against the seller's balance. */
  lemma ReportedBalance(m: Market, d: Deal, last: Option<MarketOp>)
    requires FairDeal(d) && MarketInvariant(m, d, last)
    requires var report := FindMeteringReport(m.queue);
             report.Some? && report.value.MeteringReport?
             && TrueCost(d, report.value.elapsedMs, report.value.delivered) <= I64_MAX
    ensures var report, balance := FindMeteringReport(m.queue).value, SessionOf(m.history, d.peer).value.balance;
            var owed := TrueCost(d, report.elapsedMs, report.delivered);
            && d.paid - owed <= balance
            && (LedgerOf(m.history, d.peer).forgiven == 0
                ==> balance - (d.paid - owed) <= 999 * SittingOf(m.history, d.peer).samples / 1000)
  {
    var s, t := SessionOf(m.history, d.peer).value, SittingOf(m.history, d.peer);
    LedgerBalances(m.history, d.peer);
    MeteringInvariant(m.history, d.peer);
    RoundedOnce(d, s.lastMeterAt - s.meteringStart, t.time, t.samples);
  }

  /** The seller's balance and what the buyer believes it to be. */
  function BooksOf(d: Deal, ops: seq<MarketOp>): (int, int) {
    var m := MarketRun(d, ops);
    (if SessionOf(m.history, d.peer).Some? then SessionOf(m.history, d.peer).value.balance else 0,
     PollNow(m, d).1.remainingScaled)
  }

  /** Over every interleaving of samples and polls, until the buyer first tops up or is cut off: at each
      poll that brings a report, what the buyer believes it has left never exceeds the seller's balance at
      the reported sample, and is below it by at most 0.999 milli-units per charged sample, hence by less
      than one per sample, as long as the seller has not had to forgive anything. */
  lemma {:induction false} LedgersAgree(d: Deal, ops: seq<MarketOp>)
    requires BringsReport(d, ops)
    ensures var h, (balance, believed) := MarketRun(d, ops).history, BooksOf(d, ops);
            && SessionOf(h, d.peer).Some?
            && believed <= balance
            && (LedgerOf(h, d.peer).forgiven == 0
                ==> balance - believed <= 999 * SittingOf(h, d.peer).samples / 1000 <= SittingOf(h, d.peer).samples - 1)
  {
    MarketHolds(d, ops);
    var m := MarketRun(d, ops);
    FindInConcat(m.queue, Announce);
    BelievedIsTheTrueCost(m, d);
    ReportedBalance(m, d, LastSample(ops));
  }

  // ---- The bound is the best possible ----

  const TOKEN: Bytes := []

  /** One milli-unit a second, with no top-up watermark. */
  function CheapDeal(paid: u64): Deal {
    Deal([], Price(1, 0), MeteringPolicy(500, 3), Options(Price(1, 0), 0, 0, false), paid, TOKEN, 0)
  }

  /** A baseline and then `n` samples one millisecond short of a second apart. */
  function ShortSeconds(n: nat): seq<MarketOp>
    requires 999 * n <= U64_MAX
  {
    var last := [SellerSamples(Counters(0, 0), 999 * n)];
    if n == 0 then last else ShortSeconds(n - 1) + last
  }

  lemma {:induction false} ShortSecondsGoForward(n: nat)
    requires 999 * n <= U64_MAX
    ensures Forward(ShortSeconds(n)) && LastSample(ShortSeconds(n)) == Some(SellerSamples(Counters(0, 0), 999 * n))
  {
    var ops := ShortSeconds(n);
    if n == 0 {
      assert ops[..0] == [];
    } else {
      ShortSecondsGoForward(n - 1);
      assert ops[..|ops| - 1] == ShortSeconds(n - 1);
    }
  }

  /** After `n` charged samples the seller has charged nothing, and reports the whole time elapsed. */
  predicate NothingCharged(m: Market, paid: u64, n: nat)
    requires 999 * n <= U64_MAX
  {
    && !m.over && m.buyer == BuyerState(paid, 0, 0)
    && SessionOf(m.history, []) == Some(FRESH_SESSION.(balance := paid, phase := Active,
                                         lastCounters := Some(Counters(0, 0)), lastMeterAt := 999 * n))
    && NodeRun(m.history).0.price == CheapDeal(paid).price && NodeRun(m.history).0.policy == CheapDeal(paid).policy
    && LedgerOf(m.history, []).forgiven == 0 && SittingOf(m.history, []).samples == n
    && (0 < n ==> FindMeteringReport(m.queue) == Some(MeteringReport(999 * n, 0, 0)))
  }

  lemma ShortSecondCostsNothing(s: PeerSession, paid: u64, n: nat)
    requires 1 <= n && 999 * n <= U64_MAX
    requires s == FRESH_SESSION.(balance := paid, phase := Active, lastCounters := Some(Counters(0, 0)), lastMeterAt := 999 * (n - 1))
    ensures var d := CheapDeal(paid);
            && IntervalCharge(s, d.price, Counters(0, 0), 999 * n) == 0
            && Charged(s, d.price, d.policy, Counters(0, 0), 999 * n) == s.(lastMeterAt := 999 * n)
  {
  }

  lemma SampleIsInTheQueue(m: Market, d: Deal, s: PeerSession, c: Counters, now: Millis)
    requires !m.over && SessionOf(m.history, d.peer) == Some(s) && IsCharged(s)
    requires NodeRun(m.history).0.price == d.price && NodeRun(m.history).0.policy == d.policy
    ensures FindMeteringReport(MarketStep(m, d, SellerSamples(c, now)).queue)
         == Some(MeteringReport(Since(now, s.meteringStart), OurDelivered(s, c), OurReceived(s, c)))
  {
    Extends(m.history, MeterSample(d.peer, c), now, d.peer);
    SamplePosts(m.queue, d.peer, s, d.price, d.policy, c, now);
  }

  lemma ShortSecondIsFree(m: Market, paid: u64, n: nat)
    requires 1 <= n && 999 * n <= U64_MAX && NothingCharged(m, paid, n - 1)
    ensures NothingCharged(MarketStep(m, CheapDeal(paid), SellerSamples(Counters(0, 0), 999 * n)), paid, n)
  {
    ShortSecondCostsNothing(SessionOf(m.history, []).value, paid, n);
    SampleIsInTheQueue(m, CheapDeal(paid), SessionOf(m.history, []).value, Counters(0, 0), 999 * n);
    Extends(m.history, MeterSample([], Counters(0, 0)), 999 * n, []);
  }

  lemma BaselineIsFree(m: Market, paid: u64)
    requires m == MarketRun(CheapDeal(paid), [])
    ensures NothingCharged(MarketStep(m, CheapDeal(paid), SellerSamples(Counters(0, 0), 0)), paid, 0)
  {
    Opens(CheapDeal(paid));
    Extends(m.history, MeterSample([], Counters(0, 0)), 0, []);
  }

  lemma {:induction false} ShortSecondsAreFree(paid: u64, n: nat)
    requires 999 * n <= U64_MAX
    ensures NothingCharged(MarketRun(CheapDeal(paid), ShortSeconds(n)), paid, n)
    decreases n
  {
    var ops := ShortSeconds(n);
    if n == 0 {
      assert ops[..0] == [];
      BaselineIsFree(MarketRun(CheapDeal(paid), []), paid);
    } else {
      ShortSecondsAreFree(paid, n - 1);
      assert ops[..|ops| - 1] == ShortSeconds(n - 1);
      ShortSecondIsFree(MarketRun(CheapDeal(paid), ShortSeconds(n - 1)), paid, n);
    }
  }

  /** What a poll then makes of it. */
  lemma PollAfterShortSeconds(m: Market, paid: u64, n: nat)
    requires 1 <= n && 999 * n <= U64_MAX && n <= paid <= I64_MAX && NothingCharged(m, paid, n)
    ensures PollNow(m, CheapDeal(paid)).1.report == Some(MeteringReport(999 * n, 0, 0))
    ensures PollNow(m, CheapDeal(paid)).1.remainingScaled == paid - 999 * n / 1000
  {
    FindInConcat(m.queue, Announce);
    assert TimeCost(CheapDeal(paid).price, 999 * n) == 999 * n / 1000;
    assert CostScaled(CheapDeal(paid).price, 999 * n, 0) == 999 * n / 1000;
  }

  predicate BooksDifferByTheBound(d: Deal, ops: seq<MarketOp>, samples: nat) {
    && BringsReport(d, ops)
    && LedgerOf(MarketRun(d, ops).history, d.peer).forgiven == 0
    && SittingOf(MarketRun(d, ops).history, d.peer).samples == samples
    && BooksOf(d, ops).0 - BooksOf(d, ops).1 == 999 * samples / 1000
  }

  /** The bound is attained: for every number of charged samples that fits the clock there is a run, with
      nothing forgiven, in which the two books differ by exactly that much. */
  lemma {:induction false} RoundingGapIsAttained(n: nat)
    requires 1 <= n && 999 * n <= U64_MAX
    ensures exists d, ops :: BooksDifferByTheBound(d, ops, n)
  {
    ShortSecondsAreFree(n, n);
    ShortSecondsGoForward(n);
    GapAtPoll(CheapDeal(n), ShortSeconds(n), n);
  }

  lemma GapAtPoll(d: Deal, ops: seq<MarketOp>, n: nat)
    requires 1 <= n && 999 * n <= U64_MAX
    requires d == CheapDeal(n) && Forward(ops) && NothingCharged(MarketRun(d, ops), n, n)
    ensures BooksDifferByTheBound(d, ops, n)
  {
    PollAfterShortSeconds(MarketRun(d, ops), n, n);
    assert TrueCost(d, 999 * n, 0) == 999 * n / 1000;
  }

  // ---- The loop on the live host ----

  /** The host's session and its queue for the buyer are those of the market. */
  ghost predicate Mirrors(host: Driver, m: Market, d: Deal)
    reads host, host.session
  {
    host.Valid() && host.session.history == m.history && host.QueueOf(d.peer) == m.queue
  }

  /** One sampling of the meter by the host is one step of the market. */
  method SellerMeters(host: Driver, ghost m: Market, d: Deal, counters: Counters, now: Millis)
    requires Mirrors(host, m, d) && !m.over
    modifies host, host.session
    ensures Mirrors(host, MarketStep(m, d, SellerSamples(counters, now)), d)
  {
    host.Meter(d.peer, counters, now);
  }

  /** One exchange with the buyer, an announcement with an optional report of its own, is one step of the
      market; the buyer makes of the reply exactly what the market says it makes of it. */
  method SellerServes(host: Driver, ghost m: Market, d: Deal, ack: Option<Message>, now: Millis)
    returns (messages: seq<Message>)
    requires Mirrors(host, m, d) && !m.over && ack == AckOf(m.buyer)
    requires host.priceSheet.Some? ==> host.priceSheet.value.PriceSheet?
    modifies host, host.session
    ensures Mirrors(host, MarketStep(m, d, BuyerPolls(now)), d)
    ensures FindMeteringReport(messages) == PollNow(m, d).1.report
    ensures BalanceExhausted(messages) == PollNow(m, d).1.cutOff
    ensures PollStep(m.buyer, d.opts, Reply(messages, 0, 0, false)) == PollNow(m, d)
  {
    FindInConcat(m.queue, Announce);
    var _ := host.OnPeerConnected(d.peer, now);
    if host.priceSheet.Some? {
      FindInConcat(m.queue + [Announce], host.priceSheet.value);
    }
    if ack.Some? {
      PostsNothing(NodeStep(host.session.View(), Deliver(MessageReceived(d.peer, ack.value), now)).1);
      host.OnMessageReceived(d.peer, ack.value, now);
    }
    messages := host.DrainOutbox(d.peer);
    SameReading(m.buyer, d.opts, Reply(messages, 0, 0, false), m.queue + [Announce]);
  }

  /** All a poll takes from the messages is the first report and whether it was cut off. */
  lemma SameReading(b: BuyerState, opts: Options, reply: Reply, messages: seq<Message>)
    requires FindMeteringReport(reply.messages) == FindMeteringReport(messages)
    requires BalanceExhausted(reply.messages) == BalanceExhausted(messages)
    ensures PollStep(b, opts, reply) == PollStep(b, opts, reply.(messages := messages))
  {
  }
}
