/** Whole-run guarantees of the charger driver: one settlement, its amount, and its deadline. */
module ChargerLaws {
  import opened Machine
  import opened Wrappers
  import opened Sequences
  import opened Delivery
  import opened ChargerDriver

  function DriverRun(s: DriverState, ops: seq<Op>): (DriverState, seq<Outbound>)
    decreases |ops|
  {
    if ops == [] then (s, [])
    else
      var (s1, out1) := DriverRun(s, ops[..|ops| - 1]);
      var (s2, out2) := DriverStep(s1, ops[|ops| - 1]);
      (s2, out1 + out2)
  }

  // ---- Money in a list of commands ----

  function Settled(out: seq<Outbound>): seq<u64>
    decreases |out|
  {
    if out == [] then [] else (if out[0].Settle? then [out[0].amountMillis] else []) + Settled(out[1..])
  }

  function Refunded(out: seq<Outbound>): seq<u64>
    decreases |out|
  {
    if out == [] then [] else (if out[0].Refund? then [out[0].amountMillis] else []) + Refunded(out[1..])
  }

  lemma {:induction false} SettledConcat(a: seq<Outbound>, b: seq<Outbound>)
    ensures Settled(a + b) == Settled(a) + Settled(b)
    decreases |a|
  {
    if a == [] {
      assert a + b == b;
    } else {
      SettledConcat(a[1..], b);
      assert (a + b)[1..] == a[1..] + b && (a + b)[0] == a[0];
      assert Settled(a + b) == (if a[0].Settle? then [a[0].amountMillis] else []) + (Settled(a[1..]) + Settled(b));
    }
  }

  lemma {:induction false} RefundedConcat(a: seq<Outbound>, b: seq<Outbound>)
    ensures Refunded(a + b) == Refunded(a) + Refunded(b)
    decreases |a|
  {
    if a == [] {
      assert a + b == b;
    } else {
      RefundedConcat(a[1..], b);
      assert (a + b)[1..] == a[1..] + b && (a + b)[0] == a[0];
      assert Refunded(a + b) == (if a[0].Refund? then [a[0].amountMillis] else []) + (Refunded(a[1..]) + Refunded(b));
    }
  }

  /** The commands that move money, in order. */
  function MoneyOf(out: seq<Outbound>): seq<Outbound>
    decreases |out|
  {
    if out == [] then [] else (if out[0].Settle? || out[0].Refund? then [out[0]] else []) + MoneyOf(out[1..])
  }

  lemma {:induction false} MoneyConcat(a: seq<Outbound>, b: seq<Outbound>)
    ensures MoneyOf(a + b) == MoneyOf(a) + MoneyOf(b)
    decreases |a|
  {
    if a == [] {
      assert a + b == b;
    } else {
      MoneyConcat(a[1..], b);
      assert (a + b)[1..] == a[1..] + b && (a + b)[0] == a[0];
      Regroup(if a[0].Settle? || a[0].Refund? then [a[0]] else [], MoneyOf(a[1..]), MoneyOf(b));
    }
  }

  /** The commands carry exactly one settlement, for this grant: first `settle` is burnt, then the rest of the
      deposit refunded. */
  predicate Pays(out: seq<Outbound>, grant: Grant, settle: u64) {
    && settle <= grant.depositMillis
    && MoneyOf(out) == [Settle(grant.nonce, settle), Refund(grant.nonce, grant.depositMillis - settle)]
  }

  predicate PaysNothing(out: seq<Outbound>) { MoneyOf(out) == [] }

  /** Which is what the amounts alone say too. */
  lemma {:induction false} AmountsOfMoney(out: seq<Outbound>)
    ensures Settled(out) == Settled(MoneyOf(out)) && Refunded(out) == Refunded(MoneyOf(out))
    decreases |out|
  {
    if out != [] {
      AmountsOfMoney(out[1..]);
      var head := if out[0].Settle? || out[0].Refund? then [out[0]] else [];
      SettledConcat(head, MoneyOf(out[1..]));
      RefundedConcat(head, MoneyOf(out[1..]));
    }
  }

  lemma PairAmounts(nonce: u64, burnt: u64, rest: u64)
    ensures Settled([Settle(nonce, burnt), Refund(nonce, rest)]) == [burnt]
    ensures Refunded([Settle(nonce, burnt), Refund(nonce, rest)]) == [rest]
  {
    var settle, refund := [Settle(nonce, burnt)], [Refund(nonce, rest)];
    assert settle + refund == [Settle(nonce, burnt), Refund(nonce, rest)];
    assert settle[1..] == [] && refund[1..] == [];
    SettledConcat(settle, refund);
    RefundedConcat(settle, refund);
  }

  lemma PaidAmounts(out: seq<Outbound>)
    ensures PaysNothing(out) ==> Settled(out) == [] && Refunded(out) == []
    ensures (exists grant: Grant, settle: u64 :: Pays(out, grant, settle)) ==> |Settled(out)| == 1 && |Refunded(out)| == 1
  {
    AmountsOfMoney(out);
    if grant: Grant, settle: u64 :| Pays(out, grant, settle) {
      PairAmounts(grant.nonce, settle, grant.depositMillis - settle);
    }
  }

  lemma PaysConcat(a: seq<Outbound>, b: seq<Outbound>)
    ensures PaysNothing(a) && PaysNothing(b) ==> PaysNothing(a + b)
    ensures forall grant, settle :: PaysNothing(a) && Pays(b, grant, settle) ==> Pays(a + b, grant, settle)
    ensures forall grant, settle :: Pays(a, grant, settle) && PaysNothing(b) ==> Pays(a + b, grant, settle)
  {
    MoneyConcat(a, b);
  }

  // ---- One event through the engine ----

  /** The driver and its engine agree on a grant that has been issued. */
  predicate Armed(s: DriverState) {
    s.engine.phase != Idle && s.engine.guard.Some? && s.engine.guard.value.grant == s.grant
  }

  predicate IsDone(s: DriverState) { s.engine.phase == Done }

  lemma TranslateOne(s: DriverState, action: DeliveryAction)
    ensures TranslatedAll(s, [action]) == Translated(s, action)
  {
    assert [action][..0] == [];
    assert [] + Translated(s, action).1 == Translated(s, action).1;
  }

  lemma TranslateSettlement(s: DriverState, costMillis: u64)
    ensures var (s', out) := TranslatedAll(s, Settlement(s.grant, costMillis));
            s' == s && Pays(out, s.grant, Payout(s.grant, costMillis))
  {
    var actions := Settlement(s.grant, costMillis);
    assert actions[..1] == [actions[0]];
    TranslateOne(s, actions[0]);
    var settle, refund := Translated(s, actions[0]).1, Translated(s, actions[1]).1;
    assert TranslatedAll(s, actions) == (s, settle + refund);
    assert settle[1..] == [] && refund[1..] == [];
    MoneyConcat(settle, refund);
  }

  lemma DispatchTerminal(s: DriverState, report: TerminalReport)
    requires Armed(s)
    ensures var (s', out) := Dispatched(s, TerminalObserved(report));
            if IsDone(s) then s' == s && out == []
            else s' == s.(engine := s.engine.(phase := Done))
                 && Pays(out, s.grant, Payout(s.grant, report.costMillisTotal))
  {
    if !IsDone(s) {
      TranslateSettlement(s.(engine := s.engine.(phase := Done)), report.costMillisTotal);
    }
  }

  lemma DispatchTick(s: DriverState, now: Millis)
    requires Armed(s)
    ensures var (s', out) := Dispatched(s, Tick(now));
            if IsDone(s) || now < s.grant.lease.expiresAt then s' == s && out == []
            else s' == s.(engine := s.engine.(phase := Done))
                 && Pays(out, s.grant, Payout(s.grant, s.engine.guard.value.last.costMillisTotal))
  {
    if !IsDone(s) && s.grant.lease.expiresAt <= now {
      TranslateSettlement(s.(engine := s.engine.(phase := Done)), s.engine.guard.value.last.costMillisTotal);
    }
  }

  lemma DispatchRevoke(s: DriverState, at: Millis)
    requires Armed(s) && s.pendingStop.Some?
    ensures var (s', out) := Dispatched(s, RevokeRequested(at));
            s' == s && out == (if IsDone(s) then [] else [PublishStop(s.device)]) && PaysNothing(out)
  {
    if !IsDone(s) {
      TranslateOne(s, StopDelivery(NonceOf(s.engine)));
      assert [PublishStop(s.device)][1..] == [];
    }
  }

  lemma DispatchProgress(s: DriverState, p: Progress)
    requires Armed(s) && s.pendingStop.None?
    ensures var (s', out) := Dispatched(s, ProgressObserved(p));
            var guard := s.engine.guard.value;
            && PaysNothing(out)
            && (PublishStop(s.device) in out <==> s'.pendingStop.Some?)
            && (if !Dominates(p, guard.last) then s' == s
                else
                  var fed := guard.(last := p);
                  s' == s.(engine := EngineState(Delivering, Some(fed)),
                           pendingStop := if Exhausted(fed).Some? then Some(StopReason(s)) else None))
  {
    var (engine, actions) := EngineStep(s.engine, ProgressObserved(p));
    var s1 := s.(engine := engine);
    if actions != [] {
      TranslateOne(s1, actions[0]);
      assert actions == [actions[0]];
      var out := TranslatedAll(s1, actions).1;
      assert out != [] ==> out[1..] == [];
    }
  }

  /** A tick of a driver with no stop pending, whose clock has not gone backwards. */
  lemma TickReads(s: DriverState, now: Millis)
    requires Armed(s) && !IsDone(s) && s.pendingStop.None?
    requires Dominates(Synthesized(s.ackedAt, s.price, now), s.engine.guard.value.last)
    ensures var (s', out) := Ticked(s, now);
            var reading := Synthesized(s.ackedAt, s.price, now);
            && s'.last == reading && s'.ackedAt == s.ackedAt
            && s'.grant == s.grant && s'.price == s.price && s'.device == s.device
            && s'.engine.guard == Some(s.engine.guard.value.(last := reading))
            && (s'.pendingStop.Some? <==> Exhausted(s'.engine.guard.value).Some?)
            && s'.engine.phase == (if s.grant.lease.expiresAt <= now then Done else Delivering)
            && (if IsDone(s') then Pays(out, s.grant, Payout(s.grant, reading.costMillisTotal)) else PaysNothing(out))
  {
    var observed := s.(last := Synthesized(s.ackedAt, s.price, now));
    DispatchProgress(observed, observed.last);
    var (s1, out1) := Dispatched(observed, ProgressObserved(observed.last));
    DispatchTick(s1, now);
    PaysConcat(out1, Dispatched(s1, Tick(now)).1);
  }

  /** The stop noted on a tick names the money cap when the cost read has come up to it, and otherwise the time cap. */
  lemma TickExplainsTheStop(s: DriverState, now: Millis)
    requires Armed(s) && !IsDone(s) && s.pendingStop.None?
    ensures var s' := Ticked(s, now).0;
            s'.pendingStop.Some? ==>
              s'.pendingStop.value == if s.grant.caps.maxCostMillis.Some? && s.grant.caps.maxCostMillis.value <= s'.last.costMillisTotal
                                      then StopCapCost else StopCapSeconds
  {
    var observed := s.(last := Synthesized(s.ackedAt, s.price, now));
    DispatchProgress(observed, observed.last);
    DispatchTick(Dispatched(observed, ProgressObserved(observed.last)).0, now);
  }

  // ---- Exactly one settlement ----

  /** One operation: a settled driver stays settled and moves no money; an open one pays
      exactly when it settles, and it pays the whole deposit out once. */
  lemma StepPays(s: DriverState, op: Op)
    requires Armed(s)
    ensures var (s', out) := DriverStep(s, op);
            && Armed(s') && s'.grant == s.grant && s'.price == s.price && s'.device == s.device
            && (IsDone(s) ==> IsDone(s'))
            && (if IsDone(s) || !IsDone(s') then PaysNothing(out)
                else exists cost :: Pays(out, s.grant, Payout(s.grant, cost)))
            && (!IsDone(s) && op.TimerTick? && (s.pendingStop.Some? || s.grant.lease.expiresAt <= op.at) ==> IsDone(s'))
            && (!IsDone(s) && (op.DeviceDone? || op.DeviceAborted?) ==> IsDone(s'))
  {
    var (s', out) := DriverStep(s, op);
    match op
    case GrantAck(_) =>
    case DeviceDone(at, raw) =>
      var s1 := if s.pendingStop.None? then s.(last := Synthesized(s.ackedAt, s.price, at)) else s;
      DispatchTerminal(s1, TerminalOf(s1, CapSeconds, at, Some(raw)));
    case DeviceAborted(at, raw) =>
      var s1 := if s.pendingStop.None? then s.(last := Synthesized(s.ackedAt, s.price, at)) else s;
      DispatchTerminal(s1, TerminalOf(s1, Completed, at, Some(raw)));
    case Revoke(at) =>
      DispatchRevoke(s.(pendingStop := Some(StopRevoked)), at);
    case TimerTick(now) =>
      if !IsDone(s) {
        if s.pendingStop.Some? {
          var s1 := s.(pendingStop := None);
          DispatchTerminal(s1, TerminalOf(s, StopKind(s.pendingStop.value), s.last.at, None));
        } else {
          var observed := s.(last := Synthesized(s.ackedAt, s.price, now));
          DispatchProgress(observed, observed.last);
          var (s1, out1) := Dispatched(observed, ProgressObserved(observed.last));
          DispatchTick(s1, now);
          PaysConcat(out1, Dispatched(s1, Tick(now)).1);
        }
      }
  }

  /** Over every run of an armed, unsettled driver: no money moves before it is done; once it is,
      exactly one settle and one refund have been issued, they add up to the deposit, and the
      settle respects the money cap. */
  lemma {:induction false} SettlesExactlyOnce(s: DriverState, ops: seq<Op>)
    requires Armed(s) && !IsDone(s)
    ensures var (s', out) := DriverRun(s, ops);
            && Armed(s') && s'.grant == s.grant && s'.price == s.price && s'.device == s.device
            && (if IsDone(s') then exists cost :: Pays(out, s.grant, Payout(s.grant, cost)) else PaysNothing(out))
    decreases |ops|
  {
    if ops != [] {
      var before := ops[..|ops| - 1];
      SettlesExactlyOnce(s, before);
      var (s1, out1) := DriverRun(s, before);
      StepPays(s1, ops[|ops| - 1]);
      PaysConcat(out1, DriverStep(s1, ops[|ops| - 1]).1);
    }
  }

  /** A driver that has been ticked at or after its lease deadline, or once after a stop, is done for good. */
  lemma {:induction false} SettledByTheDeadline(s: DriverState, ops: seq<Op>, i: nat)
    requires Armed(s) && i < |ops|
    requires ops[i].TimerTick?
    requires s.grant.lease.expiresAt <= ops[i].at || DriverRun(s, ops[..i]).0.pendingStop.Some?
    ensures IsDone(DriverRun(s, ops).0)
    decreases |ops|
  {
    var before := ops[..|ops| - 1];
    StaysArmed(s, before);
    StepPays(DriverRun(s, before).0, ops[|ops| - 1]);
    if i < |ops| - 1 {
      assert before[..i] == ops[..i];
      SettledByTheDeadline(s, before, i);
    }
  }

  lemma {:induction false} StaysArmed(s: DriverState, ops: seq<Op>)
    requires Armed(s)
    ensures var s' := DriverRun(s, ops).0; Armed(s') && s'.grant == s.grant && s'.price == s.price
    decreases |ops|
  {
    if ops != [] {
      StaysArmed(s, ops[..|ops| - 1]);
      StepPays(DriverRun(s, ops[..|ops| - 1]).0, ops[|ops| - 1]);
    }
  }

  // ---- How much is settled ----

  function CostAt(ack: Option<Millis>, price: PriceVector, t: Millis): u64 {
    SatMul(SecondsAt(ack, t), price.perSecondMillis)
  }

  predicate CapHit(grant: Grant, price: PriceVector, ack: Option<Millis>, t: Millis) {
    || Reaches(0, grant.caps.maxUnits)
    || Reaches(SecondsAt(ack, t), grant.caps.maxSeconds)
    || Reaches(CostAt(ack, price, t), grant.caps.maxCostMillis)
  }

  /** What a run means for billing, without the driver's bookkeeping: the meter runs until it
      is read for the last time, then waits frozen at that reading until it is billed. */
  datatype Meter = Running(seen: Millis) | Frozen(seen: Millis) | Billed(seen: Millis)

  function MeterStep(m: Meter, grant: Grant, price: PriceVector, ack: Option<Millis>, op: Op): Meter {
    match m
    case Billed(_) => m
    case Frozen(t) => if op.GrantAck? || op.Revoke? then m else Billed(t)
    case Running(t) =>
      match op
      case GrantAck(_) => m
      case Revoke(_) => Frozen(t)
      case DeviceDone(at, _) => Billed(at)
      case DeviceAborted(at, _) => Billed(at)
      case TimerTick(now) =>
        if grant.lease.expiresAt <= now then Billed(now)
        else if CapHit(grant, price, ack, now) then Frozen(now)
        else Running(now)
  }

  function MeterRun(start: Millis, grant: Grant, price: PriceVector, ack: Option<Millis>, ops: seq<Op>): Meter
    decreases |ops|
  {
    if ops == [] then Running(start)
    else MeterStep(MeterRun(start, grant, price, ack, ops[..|ops| - 1]), grant, price, ack, ops[|ops| - 1])
  }

  function Latest(start: Millis, ops: seq<Op>): Millis {
    if ops == [] then start else ops[|ops| - 1].at
  }

  predicate AckSeen(ops: seq<Op>)
    decreases |ops|
  {
    ops != [] && (ops[|ops| - 1].GrantAck? || AckSeen(ops[..|ops| - 1]))
  }

  /** The clock never runs backwards from `start`, every acknowledgement carries the one ack
      instant, and nothing before the acknowledgement is timestamped later than it. */
  predicate Timeline(start: Millis, ack: Option<Millis>, ops: seq<Op>)
    decreases |ops|
  {
    if ops == [] then ack.Some? ==> start <= ack.value
    else
      var before, op := ops[..|ops| - 1], ops[|ops| - 1];
      && Timeline(start, ack, before)
      && Latest(start, before) <= op.at
      && (op.GrantAck? ==> ack == Some(op.at))
      && (ack.Some? && !AckSeen(ops) ==> op.at <= ack.value)
  }

  lemma SecondsMonotone(ack: Option<Millis>, price: PriceVector, t: Millis, u: Millis)
    requires t <= u
    ensures SecondsAt(ack, t) <= SecondsAt(ack, u) && CostAt(ack, price, t) <= CostAt(ack, price, u)
  {
    MulMonotone(SecondsAt(ack, t), SecondsAt(ack, u), price.perSecondMillis);
  }

  predicate SameReading(p: Progress, ack: Option<Millis>, price: PriceVector, t: Millis) {
    p.unitsTotal == 0 && p.secondsTotal == SecondsAt(ack, t) && p.costMillisTotal == CostAt(ack, price, t)
  }

  /** The driver's state agrees with the meter's, and its baseline is the ack once that has arrived. */
  predicate Tracks(s: DriverState, m: Meter, ack: Option<Millis>, now: Millis) {
    && Armed(s)
    && (s.ackedAt == ack || (s.ackedAt.None? && now <= ack.value))
    && (m.Billed? || m.seen <= now)
    && (m.Billed? <==> IsDone(s))
    && (m.Frozen? ==> s.pendingStop.Some? && SameReading(s.last, ack, s.price, m.seen))
    && (m.Running? ==>
          && s.pendingStop.None?
          && SameReading(s.last, ack, s.price, m.seen)
          && s.last.at == m.seen
          && SameTotals(s.engine.guard.value.last, s.last))
  }

  /** A reading taken before the ack arrived equals the reading relative to the ack. */
  lemma ReadingAgrees(s: DriverState, ack: Option<Millis>, t: Millis)
    requires s.ackedAt == ack || (s.ackedAt.None? && t <= ack.value)
    ensures SameReading(Synthesized(s.ackedAt, s.price, t), ack, s.price, t)
  {
  }

  lemma TrackTerminal(s: DriverState, m: Meter, ack: Option<Millis>, now: Millis, op: Op)
    requires Tracks(s, m, ack, now) && now <= op.at
    requires op.DeviceDone? || op.DeviceAborted?
    requires s.ackedAt == ack || op.at <= ack.value
    ensures var (s', out) := DriverStep(s, op);
            var m' := MeterStep(m, s.grant, s.price, ack, op);
            && Tracks(s', m', ack, op.at) && s'.ackedAt == s.ackedAt
            && (if m.Billed? then PaysNothing(out)
                else m'.Billed? && Pays(out, s.grant, Payout(s.grant, CostAt(ack, s.price, m'.seen))))
  {
    ReadingAgrees(s, ack, op.at);
    var s1 := if s.pendingStop.None? then s.(last := Synthesized(s.ackedAt, s.price, op.at)) else s;
    DispatchTerminal(s1, TerminalOf(s1, if op.DeviceDone? then CapSeconds else Completed, op.at, Some(op.raw)));
  }

  lemma TrackTick(s: DriverState, m: Meter, ack: Option<Millis>, now: Millis, at: Millis)
    requires Tracks(s, m, ack, now) && now <= at
    requires s.ackedAt == ack || at <= ack.value
    ensures var (s', out) := Ticked(s, at);
            var m' := MeterStep(m, s.grant, s.price, ack, TimerTick(at));
            && Tracks(s', m', ack, at) && s'.ackedAt == s.ackedAt
            && (if m'.Billed? && !m.Billed? then Pays(out, s.grant, Payout(s.grant, CostAt(ack, s.price, m'.seen)))
                else PaysNothing(out))
  {
    if m.Frozen? {
      DispatchTerminal(s.(pendingStop := None), TerminalOf(s, StopKind(s.pendingStop.value), s.last.at, None));
    } else if m.Running? {
      ReadingAgrees(s, ack, at);
      SecondsMonotone(ack, s.price, m.seen, at);
      TickReads(s, at);
    }
  }

  lemma TrackStep(s: DriverState, m: Meter, ack: Option<Millis>, now: Millis, op: Op)
    requires Tracks(s, m, ack, now) && now <= op.at
    requires op.GrantAck? ==> ack == Some(op.at)
    requires s.ackedAt == ack || op.GrantAck? || op.at <= ack.value
    ensures var (s', out) := DriverStep(s, op);
            var m' := MeterStep(m, s.grant, s.price, ack, op);
            && Tracks(s', m', ack, op.at) && s'.grant == s.grant && s'.price == s.price
            && (op.GrantAck? || s.ackedAt == ack ==> s'.ackedAt == ack)
            && (if m'.Billed? && !m.Billed? then Pays(out, s.grant, Payout(s.grant, CostAt(ack, s.price, m'.seen)))
                else PaysNothing(out))
  {
    StepPays(s, op);
    match op {
      case GrantAck(_) =>
      case DeviceDone(_, _) => TrackTerminal(s, m, ack, now, op);
      case DeviceAborted(_, _) => TrackTerminal(s, m, ack, now, op);
      case TimerTick(at) => TrackTick(s, m, ack, now, at);
      case Revoke(at) => DispatchRevoke(s.(pendingStop := Some(StopRevoked)), at);
    }
  }

  lemma {:induction false} TrackRun(device: string, grant: Grant, price: PriceVector, start: Millis,
                                    ack: Option<Millis>, ops: seq<Op>)
    requires Timeline(start, ack, ops)
    ensures var (s, out) := DriverRun(OpenState(device, grant, price, start), ops);
            var m := MeterRun(start, grant, price, ack, ops);
            && Tracks(s, m, ack, Latest(start, ops)) && s.grant == grant && s.price == price
            && (AckSeen(ops) ==> s.ackedAt == ack)
            && (if m.Billed? then Pays(out, grant, Payout(grant, CostAt(ack, price, m.seen))) else PaysNothing(out))
    decreases |ops|
  {
    if ops != [] {
      var before, op := ops[..|ops| - 1], ops[|ops| - 1];
      TrackRun(device, grant, price, start, ack, before);
      var (s, out) := DriverRun(OpenState(device, grant, price, start), before);
      var m, now := MeterRun(start, grant, price, ack, before), Latest(start, before);
      TrackStep(s, m, ack, now, op);
      PaysConcat(out, DriverStep(s, op).1);
    }
  }

  /** The settlement of every complete run: the deposit, the money cap or the whole seconds from
      the ack to the meter's final reading times the price, whichever is least. The reading is
      taken at the device's terminal, the lease deadline or the cap stop, and a revoke leaves the
      last one journalled. */
  lemma SettlementAmount(device: string, grant: Grant, price: PriceVector, start: Millis,
                         ack: Option<Millis>, ops: seq<Op>)
    requires Timeline(start, ack, ops)
    ensures var (s, out) := DriverRun(OpenState(device, grant, price, start), ops);
            var m := MeterRun(start, grant, price, ack, ops);
            && (IsDone(s) <==> m.Billed?)
            && (m.Billed? ==> Pays(out, grant, Payout(grant, CostAt(ack, price, m.seen))))
            && (!m.Billed? ==> PaysNothing(out))
  {
    TrackRun(device, grant, price, start, ack, ops);
  }

  /** A meter still running has not used up its seconds, unless it has not been read at all. */
  lemma {:induction false} RunningBelowCap(start: Millis, grant: Grant, price: PriceVector,
                                           ack: Option<Millis>, ops: seq<Op>)
    requires Timeline(start, ack, ops)
    requires grant.caps.maxSeconds.Some?
    ensures var m := MeterRun(start, grant, price, ack, ops);
            m.Running? ==> SecondsAt(ack, m.seen) < grant.caps.maxSeconds.value || m.seen == start
    decreases |ops|
  {
    if ops != [] {
      RunningBelowCap(start, grant, price, ack, ops[..|ops| - 1]);
    }
  }

  /** A tick that reads a running meter overshoots the seconds cap by no more than the gap
      since the previous reading, in whole seconds. */
  lemma {:induction false} OvershootIsOneGap(start: Millis, grant: Grant, price: PriceVector, ack: Option<Millis>,
                          ops: seq<Op>, now: Millis)
    requires Timeline(start, ack, ops)
    requires grant.caps.maxSeconds.Some?
    requires MeterRun(start, grant, price, ack, ops).Running?
    requires MeterRun(start, grant, price, ack, ops).seen <= now
    ensures var prev := MeterRun(start, grant, price, ack, ops).seen;
            SecondsAt(ack, now) <= grant.caps.maxSeconds.value + (now - prev) / 1000
  {
    RunningBelowCap(start, grant, price, ack, ops);
    StartsAtOrBeforeAck(start, ack, ops);
  }

  lemma {:induction false} StartsAtOrBeforeAck(start: Millis, ack: Option<Millis>, ops: seq<Op>)
    requires Timeline(start, ack, ops)
    ensures ack.Some? ==> start <= ack.value
    decreases |ops|
  {
    if ops != [] {
      StartsAtOrBeforeAck(start, ack, ops[..|ops| - 1]);
    }
  }
}
