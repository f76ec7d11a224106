/** The buyer: pays, polls for metering reports, and tops up before its balance runs out. */
module Consume {
  import opened Machine
  import opened Wrappers
  import opened Pricing
  import opened Protocol
  import opened Host

  const PRICING_SCALE: u64 := 1000

  function PriceFromSheet(sheet: Option<Message>): Price {
    if sheet.Some? && sheet.value.PriceSheet? && sheet.value.products != [] && sheet.value.products[0].mintOptions != []
    then sheet.value.products[0].mintOptions[0].price
    else Price(0, 0)
  }

  /** Bit-for-bit reinterpretation of an unsigned word as signed. */
  function AsI64(x: u64): i64 { if x <= I64_MAX then x else x - U64_COUNT }

  function SatSubI64(a: i64, b: i64): i64 { Max(I64_MIN, Min(I64_MAX, a - b)) }

  function Scaled(sats: u64): u64 { SatMul(sats, PRICING_SCALE) }

  /** `hasMeter`: the uplink is measured independently of the seller's word. */
  datatype Options = Options(price: Price, topupScaled: u64, understatePct: u8, hasMeter: bool)

  datatype BuyerState = BuyerState(paidScaled: u64, ackedReceived: u64, meterBaseline: u64)

  /** What one poll brings: the messages received, the meter when the poll finds the seller has cut
      us off, the meter afterwards, and whether a top-up would be accepted. */
  datatype Reply = Reply(messages: seq<Message>, rawAtCut: u64, raw: u64, topupAccepted: bool)

  datatype PollEvent = PollEvent(paidScaled: u64, remainingScaled: i64, report: Option<Message>, cutOff: bool, toppedUp: bool)

  predicate BalanceExhausted(messages: seq<Message>) { Reject(BalanceVerificationFailed) in messages }

  /** The receive-side meter, which reads zero when there is none. */
  function Reading(hasMeter: bool, raw: u64): u64 { if hasMeter then raw else 0 }

  /** The buyer's own report, sent along with a poll once there is something to acknowledge. */
  function AckOf(b: BuyerState): Option<Message> {
    if 0 < b.ackedReceived then Some(MeteringReport(0, 0, b.ackedReceived)) else None
  }

  function AfterCut(b: BuyerState, opts: Options, reply: Reply): BuyerState {
    if BalanceExhausted(reply.messages) then b.(ackedReceived := 0, meterBaseline := Reading(opts.hasMeter, reply.rawAtCut)) else b
  }

  function Measured(b: BuyerState, opts: Options, reply: Reply): Option<u64> {
    if opts.hasMeter then Some(SatSub(reply.raw, b.meterBaseline)) else None
  }

  function KeptShare(rx: u64, understatePct: u8): u64 {
    SatMul(rx, 100 - Min(understatePct, 100)) / 100
  }

  function Acked(b: BuyerState, opts: Options, measured: Option<u64>, report: Option<Message>): u64 {
    if measured.Some? then KeptShare(measured.value, opts.understatePct)
    else if report.Some? && report.value.MeteringReport? then KeptShare(report.value.delivered, opts.understatePct)
    else b.ackedReceived
  }

  /** What the buyer believes it owes: the higher of the seller's claim and its own measurement, at the advertised price. */
  function BelievedCost(opts: Options, measured: Option<u64>, report: Option<Message>): i64 {
    if report.Some? && report.value.MeteringReport? then
      var claim := report.value.delivered;
      CostScaled(opts.price, report.value.elapsedMs, if measured.Some? then Max(claim, measured.value) else claim)
    else 0
  }

  predicate WantsTopUp(b: BuyerState, opts: Options, cutOff: bool, cost: i64) {
    cutOff || SatSubI64(AsI64(b.paidScaled), cost) < AsI64(opts.topupScaled)
  }

  function PollStep(b: BuyerState, opts: Options, reply: Reply): (BuyerState, PollEvent) {
    var cutOff := BalanceExhausted(reply.messages);
    var b1 := AfterCut(b, opts, reply);
    var report := FindMeteringReport(reply.messages);
    var measured := Measured(b1, opts, reply);
    var cost := BelievedCost(opts, measured, report);
    var toppedUp := WantsTopUp(b, opts, cutOff, cost) && reply.topupAccepted;
    var paid := if !toppedUp then b.paidScaled else if cutOff then opts.topupScaled
                else SatAdd(b.paidScaled, opts.topupScaled);
    (BuyerState(paid, Acked(b1, opts, measured, report), b1.meterBaseline),
     PollEvent(paid, SatSubI64(AsI64(paid), cost), report, cutOff, toppedUp))
  }

  function PollRun(b: BuyerState, opts: Options, replies: seq<Reply>): (BuyerState, seq<PollEvent>)
    decreases |replies|
  {
    if replies == [] then (b, [])
    else
      var (b1, events) := PollRun(b, opts, replies[..|replies| - 1]);
      var (b2, event) := PollStep(b1, opts, replies[|replies| - 1]);
      (b2, events + [event])
  }

  /** The polling loop after an initial payment, with each exchange's outcome given. A rejected
      payment ends it before the first poll. */
  method RunConsume(accepted: bool, sheet: Option<Message>, amountSat: u64, topupSat: u64, understatePct: u8,
                    hasMeter: bool, rawAtStart: u64, replies: seq<Reply>)
    returns (r: Result<seq<PollEvent>, ()>)
    ensures !accepted ==> r == Err(())
    ensures accepted ==>
              var opts := Options(PriceFromSheet(sheet), Scaled(topupSat), understatePct, hasMeter);
              var paid := Scaled(amountSat);
              r == Ok([PollEvent(paid, AsI64(paid), None, false, false)]
                      + PollRun(BuyerState(paid, 0, Reading(hasMeter, rawAtStart)), opts, replies).1)
  {
    if !accepted {
      return Err(());
    }
    var opts := Options(PriceFromSheet(sheet), Scaled(topupSat), understatePct, hasMeter);
    var paidScaled := Scaled(amountSat);
    var start := PollEvent(paidScaled, AsI64(paidScaled), None, false, false);
    var events: seq<PollEvent> := [];
    var b := BuyerState(paidScaled, 0, Reading(hasMeter, rawAtStart));
    ghost var b0 := b;
    var poll := 0;
    while poll < |replies|
      invariant 0 <= poll <= |replies|
      invariant (b, events) == PollRun(b0, opts, replies[..poll])
    {
      assert replies[..poll + 1][..poll] == replies[..poll];
      var event;
      b, event := Poll(b, opts, replies[poll]);
      events := events + [event];
      poll := poll + 1;
    }
    assert replies[..poll] == replies;
    return Ok([start] + events);
  }

  /** One turn of the loop, on its three accounting variables. */
  method Poll(b: BuyerState, opts: Options, reply: Reply) returns (b': BuyerState, event: PollEvent)
    ensures (b', event) == PollStep(b, opts, reply)
  {
    var paidScaled, ackedReceived, meterBaseline := b.paidScaled, b.ackedReceived, b.meterBaseline;
    var cutOff := BalanceExhausted(reply.messages);
    if cutOff {
      ackedReceived := 0;
      meterBaseline := Reading(opts.hasMeter, reply.rawAtCut);
    }
    var report := FindMeteringReport(reply.messages);
    FindsAReport(reply.messages);
    var measured := if opts.hasMeter then Some(SatSub(reply.raw, meterBaseline)) else None;
    var keep := 100 - Min(opts.understatePct, 100);
    if measured.Some? {
      ackedReceived := SatMul(measured.value, keep) / 100;
    } else if report.Some? {
      ackedReceived := SatMul(report.value.delivered, keep) / 100;
    }
    var cost: i64 := 0;
    if report.Some? {
      var billable := report.value.delivered;
      if measured.Some? {
        billable := Max(billable, measured.value);
      }
      cost := CostScaled(opts.price, report.value.elapsedMs, billable);
    }
    var toppedUp := false;
    if cutOff || SatSubI64(AsI64(paidScaled), cost) < AsI64(opts.topupScaled) {
      if reply.topupAccepted {
        paidScaled := if cutOff then opts.topupScaled else SatAdd(paidScaled, opts.topupScaled);
        toppedUp := true;
      }
    }
    b' := BuyerState(paidScaled, ackedReceived, meterBaseline);
    event := PollEvent(paidScaled, SatSubI64(AsI64(paidScaled), cost), report, cutOff, toppedUp);
  }

  lemma {:induction false} FindsAReport(messages: seq<Message>)
    ensures FindMeteringReport(messages).Some? ==> FindMeteringReport(messages).value.MeteringReport?
    decreases |messages|
  {
    if messages != [] {
      FindsAReport(messages[1..]);
    }
  }
}
