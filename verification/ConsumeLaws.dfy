/** The buyer's account over whole runs: what it has paid, what it believes it has left, when it buys more. */
module ConsumeLaws {
  import opened Machine
  import opened Wrappers
  import opened Pricing
  import opened Protocol
  import opened Host
  import opened Consume

  // ---- What has been paid ----

  /** Top-ups bought since the last one bought after a cut-off, that one excluded, and whether there was such a one. */
  function TopUps(events: seq<PollEvent>): (bool, nat)
    decreases |events|
  {
    if events == [] then (false, 0)
    else
      var e, (restarted, bought) := events[|events| - 1], TopUps(events[..|events| - 1]);
      if e.toppedUp && e.cutOff then (true, 0)
      else (restarted, if e.toppedUp then bought + 1 else bought)
  }

  /** After any replies the account holds the first payment plus every top-up bought; a top-up bought after a cut-off
      starts it anew with that one alone. It saturates. */
  lemma {:induction false} EveryTopUpCounts(b: BuyerState, opts: Options, replies: seq<Reply>)
    ensures var (b', events) := PollRun(b, opts, replies);
            var (restarted, bought) := TopUps(events);
            && |events| == |replies|
            && b'.paidScaled == Min((if restarted then opts.topupScaled else b.paidScaled) + bought * opts.topupScaled, 0xFFFF_FFFF_FFFF_FFFF)
    decreases |replies|
  {
    if replies != [] {
      var before := replies[..|replies| - 1];
      EveryTopUpCounts(b, opts, before);
      var (b1, events) := PollRun(b, opts, before);
      var e := PollStep(b1, opts, replies[|replies| - 1]).1;
      assert (events + [e])[..|events|] == events;
      PollPays(b1, opts, replies[|replies| - 1]);
      var (restarted, bought) := TopUps(events);
      SaturatingOnce(if restarted then opts.topupScaled else b.paidScaled, bought, opts.topupScaled);
    }
  }

  lemma PollPays(b: BuyerState, opts: Options, reply: Reply)
    ensures var (b', e) := PollStep(b, opts, reply);
            b'.paidScaled == if !e.toppedUp then b.paidScaled else if e.cutOff then opts.topupScaled
                             else Min(b.paidScaled + opts.topupScaled, U64_MAX)
  {
  }

  /** Adding one more to a saturated total saturates the sum. */
  lemma SaturatingOnce(base: u64, bought: nat, topup: u64)
    ensures Min(Min(base + bought * topup, U64_MAX) + topup, U64_MAX) == Min(base + (bought + 1) * topup, U64_MAX)
  {
    assert (bought + 1) * topup == bought * topup + topup;
  }

  // ---- One poll of a run ----

  /** The state before and after the poll number `i`, and what is shown of it. */
  function PollAt(b: BuyerState, opts: Options, replies: seq<Reply>, i: nat): (BuyerState, BuyerState, PollEvent)
    requires i < |replies|
  {
    (PollRun(b, opts, replies[..i]).0, PollRun(b, opts, replies[..i + 1]).0,
     PollStep(PollRun(b, opts, replies[..i]).0, opts, replies[i]).1)
  }

  lemma {:induction false} PollShowsEachTurn(b: BuyerState, opts: Options, replies: seq<Reply>, i: nat)
    requires i < |replies|
    ensures |PollRun(b, opts, replies).1| == |replies|
    ensures PollRun(b, opts, replies).1[i] == PollAt(b, opts, replies, i).2
    decreases |replies|
  {
    var k := |replies| - 1;
    if 0 < k {
      PollShowsEachTurn(b, opts, replies[..k], 0);
    }
    if i < k {
      PollShowsEachTurn(b, opts, replies[..k], i);
      assert replies[..k][..i] == replies[..i] && replies[..k][..i + 1] == replies[..i + 1];
    }
  }

  /** A bit pattern read as a signed word. */
  lemma SignedWord(x: u64)
    ensures AsI64(x) == if x < 0x8000_0000_0000_0000 then x else x - 0x1_0000_0000_0000_0000
  {
  }

  /** The signed word nearest to a difference. */
  function Clamped(x: int): int {
    if x < -0x8000_0000_0000_0000 then -0x8000_0000_0000_0000 else if 0x7FFF_FFFF_FFFF_FFFF < x then 0x7FFF_FFFF_FFFF_FFFF else x
  }

  /** What the buyer measured itself in this metering session; the meter is read anew when it was cut off. */
  function Metered(opts: Options, p: BuyerState, reply: Reply, cutOff: bool): int {
    Max(0, reply.raw - if cutOff then reply.rawAtCut else p.meterBaseline)
  }

  /** What the buyer takes itself to owe: the advertised price on the reported time and the higher of both counts. */
  function Owed(opts: Options, p: BuyerState, reply: Reply, e: PollEvent): i64 {
    if e.report.Some? && e.report.value.MeteringReport? then
      var claim := e.report.value.delivered;
      var units: u64 := if opts.hasMeter then Min(Max(claim, Metered(opts, p, reply, e.cutOff)), U64_MAX) else claim;
      CostScaled(opts.price, e.report.value.elapsedMs, units)
    else 0
  }

  /** The report shown is the first one received, and the buyer is cut off exactly when told that its balance is gone. */
  lemma {:induction false} PollHears(b: BuyerState, opts: Options, replies: seq<Reply>, i: nat)
    requires i < |replies|
    ensures var (messages, e) := (replies[i].messages, PollAt(b, opts, replies, i).2);
            && (e.cutOff <==> Reject(BalanceVerificationFailed) in messages)
            && (e.report.None? <==> forall m | m in messages :: !m.MeteringReport?)
            && (e.report.Some? ==> exists k :: 0 <= k < |messages| && messages[k] == e.report.value && messages[k].MeteringReport?
                                               && forall j | 0 <= j < k :: !messages[j].MeteringReport?)
  {
    FindsTheFirst(replies[i].messages);
  }

  lemma {:induction false} FindsTheFirst(messages: seq<Message>)
    ensures FindMeteringReport(messages).None? <==> forall m | m in messages :: !m.MeteringReport?
    ensures FindMeteringReport(messages).Some? ==>
              exists k :: 0 <= k < |messages| && messages[k] == FindMeteringReport(messages).value && messages[k].MeteringReport?
                          && forall j | 0 <= j < k :: !messages[j].MeteringReport?
    decreases |messages|
  {
    if messages != [] && !messages[0].MeteringReport? {
      FindsTheFirst(messages[1..]);
      if FindMeteringReport(messages[1..]).Some? {
        var k :| 0 <= k < |messages[1..]| && messages[1..][k] == FindMeteringReport(messages[1..]).value && messages[1..][k].MeteringReport?
                 && forall j | 0 <= j < k :: !messages[1..][j].MeteringReport?;
        assert messages[k + 1] == messages[1..][k];
        assert forall j | 0 < j < k + 1 :: messages[j] == messages[1..][j - 1];
      } else {
        assert forall m | m in messages :: m == messages[0] || m in messages[1..];
      }
    }
  }

  /** A top-up is bought exactly when the seller would take it and either the buyer was cut off or its credit was below the
      watermark; it adds to what was paid, or after a cut-off replaces it. The credit shown is what has been paid, top-up
      included, less what is owed. */
  lemma {:induction false} PollBuysIff(b: BuyerState, opts: Options, replies: seq<Reply>, i: nat)
    requires i < |replies|
    ensures var (p, p', e) := PollAt(b, opts, replies, i);
            var credit := Clamped(AsI64(p.paidScaled) - Owed(opts, p, replies[i], e));
            && (e.toppedUp <==> replies[i].topupAccepted && (e.cutOff || credit < AsI64(opts.topupScaled)))
            && p'.paidScaled == (if !e.toppedUp then p.paidScaled
                                 else if e.cutOff then opts.topupScaled
                                 else if p.paidScaled + opts.topupScaled <= U64_MAX then p.paidScaled + opts.topupScaled
                                 else U64_MAX)
            && e.paidScaled == p'.paidScaled
            && e.remainingScaled == Clamped(AsI64(p'.paidScaled) - Owed(opts, p, replies[i], e))
  {
    assert replies[..i + 1][..i] == replies[..i];
    FindsAReport(replies[i].messages);
  }

  /** What the buyer will acknowledge: the kept percentage of its own measurement, or without a meter of the reported count;
      with neither the last one stands, until it is cut off. */
  lemma {:induction false} PollAcknowledges(b: BuyerState, opts: Options, replies: seq<Reply>, i: nat)
    requires i < |replies|
    ensures var (p, p', e) := PollAt(b, opts, replies, i);
            var kept := 100 - Min(opts.understatePct, 100);
            && (opts.hasMeter ==> p'.ackedReceived == Min(Metered(opts, p, replies[i], e.cutOff) * kept, U64_MAX) / 100)
            && (!opts.hasMeter && e.report.Some? ==>
                  e.report.value.MeteringReport? && p'.ackedReceived == Min(e.report.value.delivered * kept, U64_MAX) / 100)
            && (!opts.hasMeter && e.report.None? ==> p'.ackedReceived == if e.cutOff then 0 else p.ackedReceived)
            && p'.meterBaseline == (if !e.cutOff then p.meterBaseline else if opts.hasMeter then replies[i].rawAtCut else 0)
  {
    assert replies[..i + 1][..i] == replies[..i];
    FindsAReport(replies[i].messages);
  }

  // ---- The start of a run ----

  /** The advertised price is that of the first option of the first product; without one it is free. */
  lemma FirstOptionIsThePrice(first: MintOption, options: seq<MintOption>, id: Bytes, products: seq<OfferedProduct>)
    ensures PriceFromSheet(Some(PriceSheet([OfferedProduct(id, [first] + options)] + products))) == first.price
    ensures PriceFromSheet(Some(PriceSheet([OfferedProduct(id, [])] + products))) == Price(0, 0)
    ensures PriceFromSheet(Some(PriceSheet([]))) == PriceFromSheet(None) == Price(0, 0)
  {
  }

  /** Whole units are a thousand milli-units, up to the largest word. */
  lemma ScaledIsMilli(sats: u64)
    ensures Scaled(sats) == if sats <= 0xFFFF_FFFF_FFFF_FFFF / 1000 then 1000 * sats else 0xFFFF_FFFF_FFFF_FFFF
  {
  }
}
