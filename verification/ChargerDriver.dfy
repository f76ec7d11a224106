/** The charger driver: device messages and timer ticks in, wire commands and
    settlement intents out. The driver only translates; the delivery engine decides. */
module ChargerDriver {
  import opened Machine
  import opened Wrappers
  import opened Delivery

  datatype PriceVector = PriceVector(perSecondMillis: u64)

  /** Everything that can happen to an armed driver. */
  datatype Op =
    | GrantAck(at: Millis)
    | DeviceDone(at: Millis, raw: seq<u8>)
    | DeviceAborted(at: Millis, raw: seq<u8>)
    | TimerTick(at: Millis)
    | Revoke(at: Millis)

  datatype Outbound =
    | PublishStart(device: string, endEpochSec: u64)
    | PublishStop(device: string)
    | Settle(nonce: u64, amountMillis: u64)
    | Refund(nonce: u64, amountMillis: u64)

  datatype PendingStop = StopCapSeconds | StopCapCost | StopRevoked

  // ---- The driver as a function of its state ----

  datatype DriverState = DriverState(
    device: string, engine: EngineState, price: PriceVector, grant: Grant,
    ackedAt: Option<Millis>, last: Progress, pendingStop: Option<PendingStop>)

  function LeaseSecondsRemaining(grant: Grant, now: Millis): u64 {
    SatSub(grant.lease.expiresAt, now) / 1000
  }

  function WindowEnd(grant: Grant, now: Millis): u64
  {
    now / 1000 + LeaseSecondsRemaining(grant, now)
  }

  /** Whole seconds delivered by `now` for a grant acknowledged at `acked`. */
  function SecondsAt(acked: Option<Millis>, now: Millis): u64 {
    if acked.None? then 0 else Since(now, acked.value) / 1000
  }

  function Synthesized(acked: Option<Millis>, price: PriceVector, now: Millis): Progress {
    var seconds := SecondsAt(acked, now);
    Progress(0, seconds, SatMul(seconds, price.perSecondMillis), now)
  }

  function OpenState(device: string, grant: Grant, price: PriceVector, now: Millis): DriverState {
    DriverState(device, EngineState(Granted, Some(GuardState(grant, NO_PROGRESS))), price, grant,
                None, Progress(0, 0, 0, now), None)
  }

  function ResumedState(device: string, grant: Grant, price: PriceVector, last: Progress): DriverState {
    DriverState(device, ResumeState(grant, last), price, grant,
                Some(SatSub(last.at, WrapU64(last.secondsTotal * 1000))), last, None)
  }

  function StopReason(s: DriverState): PendingStop {
    if Reaches(s.last.costMillisTotal, s.grant.caps.maxCostMillis) then StopCapCost else StopCapSeconds
  }

  function Translated(s: DriverState, action: DeliveryAction): (DriverState, seq<Outbound>) {
    match action
    case StopDelivery(_) =>
      (if s.pendingStop.None? then s.(pendingStop := Some(StopReason(s))) else s, [PublishStop(s.device)])
    case SettleDelivery(nonce, amount) => (s, [Settle(nonce, amount)])
    case RefundChange(nonce, amount) => (s, [Refund(nonce, amount)])
    case Alarm(_, _) => (s, [])
  }

  function TranslatedAll(s: DriverState, actions: seq<DeliveryAction>): (DriverState, seq<Outbound>)
    decreases |actions|
  {
    if actions == [] then (s, [])
    else
      var (s1, out1) := TranslatedAll(s, actions[..|actions| - 1]);
      var (s2, out2) := Translated(s1, actions[|actions| - 1]);
      (s2, out1 + out2)
  }

  function Dispatched(s: DriverState, event: DeliveryEvent): (DriverState, seq<Outbound>) {
    var (engine, actions) := EngineStep(s.engine, event);
    TranslatedAll(s.(engine := engine), actions)
  }

  function TerminalOf(s: DriverState, kind: TerminalKind, at: Millis, receipt: Option<seq<u8>>): TerminalReport {
    TerminalReport(kind, s.last.unitsTotal, s.last.secondsTotal, s.last.costMillisTotal, at, receipt)
  }

  /** The device ended delivery at `at`; a journal frozen by an earlier stop stands. */
  function Ended(s: DriverState, kind: TerminalKind, at: Millis, raw: seq<u8>): (DriverState, seq<Outbound>) {
    var s1 := if s.pendingStop.None? then s.(last := Synthesized(s.ackedAt, s.price, at)) else s;
    Dispatched(s1, TerminalObserved(TerminalOf(s1, kind, at, Some(raw))))
  }

  function StopKind(reason: PendingStop): TerminalKind {
    match reason
    case StopCapSeconds => CapSeconds
    case StopCapCost => CapCost
    case StopRevoked => Revoked
  }

  function Ticked(s: DriverState, now: Millis): (DriverState, seq<Outbound>) {
    if s.engine.phase == Done then (s, [])
    else if s.pendingStop.Some? then
      var report := TerminalOf(s, StopKind(s.pendingStop.value), s.last.at, None);
      Dispatched(s.(pendingStop := None), TerminalObserved(report))
    else
      var observed := s.(last := Synthesized(s.ackedAt, s.price, now));
      var (s1, out1) := Dispatched(observed, ProgressObserved(observed.last));
      var (s2, out2) := Dispatched(s1, Tick(now));
      (s2, out1 + out2)
  }

  function DriverStep(s: DriverState, op: Op): (DriverState, seq<Outbound>) {
    match op
    case GrantAck(at) => (s.(ackedAt := Some(at)), [])
    case DeviceDone(at, raw) => Ended(s, CapSeconds, at, raw)
    case DeviceAborted(at, raw) => Ended(s, Completed, at, raw)
    case TimerTick(at) => Ticked(s, at)
    case Revoke(at) => Dispatched(s.(pendingStop := Some(StopRevoked)), RevokeRequested(at))
  }

  // ---- The driver as the host holds it ----

  class Driver {
    const device: string
    const engine: DeliveryEngine
    const price: PriceVector
    const grant: Grant
    /** Seconds count from here; None until the device has confirmed. */
    var ackedAt: Option<Millis>
    /** The reading the host is to persist. */
    var last: Progress
    var pendingStop: Option<PendingStop>

    constructor (device: string, grant: Grant, price: PriceVector, engine: DeliveryEngine,
                 ackedAt: Option<Millis>, last: Progress)
      ensures View() == DriverState(device, engine.View(), price, grant, ackedAt, last, None)
      ensures this.engine == engine
    {
      this.device, this.grant, this.price, this.engine := device, grant, price, engine;
      this.ackedAt, this.last, this.pendingStop := ackedAt, last, None;
    }

    function View(): DriverState
      reads this, engine, engine.guard
    {
      DriverState(device, engine.View(), price, grant, ackedAt, last, pendingStop)
    }

    /** Arm a session; the window end published to the device is in epoch seconds. */
    static method Open(device: string, grant: Grant, price: PriceVector, now: Millis)
      returns (driver: Driver, out: seq<Outbound>)
      ensures driver.View() == OpenState(device, grant, price, now)
      ensures out == [PublishStart(device, WindowEnd(grant, now))]
      ensures fresh(driver) && fresh(driver.engine) && fresh(driver.engine.guard)
    {
      var engine := new DeliveryEngine();
      var _ := engine.Handle(GrantIssued(grant));
      var endEpochSec := now / 1000 + LeaseSecondsRemaining(grant, now);
      driver := new Driver(device, grant, price, engine, None, Progress(0, 0, 0, now));
      out := [PublishStart(device, endEpochSec)];
    }

    /** A driver restarted with what the host had persisted. */
    static method Resume(device: string, grant: Grant, price: PriceVector, last: Progress)
      returns (driver: Driver)
      ensures driver.View() == ResumedState(device, grant, price, last)
      ensures fresh(driver) && fresh(driver.engine) && fresh(driver.engine.guard)
    {
      var engine := new DeliveryEngine.Resume(grant, last);
      driver := new Driver(device, grant, price, engine,
                           Some(SatSub(last.at, WrapU64(last.secondsTotal * 1000))), last);
    }

    function Journal(): (Grant, Progress)
      reads this
    {
      (grant, last)
    }

    function Synthesize(now: Millis): Progress
      reads this
    {
      Synthesized(ackedAt, price, now)
    }

    method HandleMessage(inbound: Op) returns (out: seq<Outbound>)
      requires inbound.GrantAck? || inbound.DeviceDone? || inbound.DeviceAborted?
      modifies this, engine, engine.guard
      ensures (View(), out) == DriverStep(old(View()), inbound)
      ensures engine.guard == old(engine.guard) || fresh(engine.guard)
    {
      match inbound {
        case GrantAck(at) =>
          ackedAt := Some(at);
          out := [];
        case DeviceDone(at, raw) =>
          if pendingStop.None? {
            last := Synthesize(at);
          }
          var report := Terminal(CapSeconds, at, Some(raw));
          out := Dispatch(TerminalObserved(report));
        case DeviceAborted(at, raw) =>
          if pendingStop.None? {
            last := Synthesize(at);
          }
          var report := Terminal(Completed, at, Some(raw));
          out := Dispatch(TerminalObserved(report));
      }
    }

    /** Either a stop is waiting, and is settled at the reading it froze, or the clock is read and both limits checked. */
    method OnTick(now: Millis) returns (out: seq<Outbound>)
      modifies this, engine, engine.guard
      ensures (View(), out) == DriverStep(old(View()), TimerTick(now))
      ensures engine.guard == old(engine.guard) || fresh(engine.guard)
    {
      if engine.phase == Done {
        return [];
      }
      if pendingStop.Some? {
        var report := Terminal(StopKind(pendingStop.value), last.at, None);
        pendingStop := None;
        out := Dispatch(TerminalObserved(report));
        return;
      }
      last := Synthesize(now);
      out := Dispatch(ProgressObserved(last));
      var more := Dispatch(Tick(now));
      out := out + more;
    }

    method OnRevoke(now: Millis) returns (out: seq<Outbound>)
      modifies this, engine, engine.guard
      ensures (View(), out) == DriverStep(old(View()), Revoke(now))
      ensures engine.guard == old(engine.guard) || fresh(engine.guard)
    {
      pendingStop := Some(StopRevoked);
      out := Dispatch(RevokeRequested(now));
    }

    function Terminal(kind: TerminalKind, at: Millis, receipt: Option<seq<u8>>): TerminalReport
      reads this, engine, engine.guard
    {
      TerminalOf(View(), kind, at, receipt)
    }

    /** Feeds the engine and turns each of its actions into a wire command, freezing the journal on a stop. */
    method Dispatch(event: DeliveryEvent) returns (out: seq<Outbound>)
      modifies this, engine, engine.guard
      ensures (View(), out) == Dispatched(old(View()), event)
      ensures engine.guard == old(engine.guard) || fresh(engine.guard)
    {
      var actions := engine.Handle(event);
      ghost var start := View();
      out := [];
      var i := 0;
      while i < |actions|
        invariant 0 <= i <= |actions|
        invariant TranslatedAll(start, actions[..i]) == (View(), out)
        modifies this
      {
        assert actions[..i + 1][..i] == actions[..i];
        match actions[i] {
          case StopDelivery(_) =>
            if pendingStop.None? {
              pendingStop := Some(
                if grant.caps.maxCostMillis.Some? && last.costMillisTotal >= grant.caps.maxCostMillis.value
                then StopCapCost else StopCapSeconds);
            }
            out := out + [PublishStop(device)];
          case SettleDelivery(nonce, amountMillis) =>
            out := out + [Settle(nonce, amountMillis)];
          case RefundChange(nonce, amountMillis) =>
            out := out + [Refund(nonce, amountMillis)];
          case Alarm(_, _) =>
            assert out == out + [];
        }
        i := i + 1;
      }
      assert actions[..i] == actions;
    }
  }

  // ---- The simulated device ----

  /** A charger that counts down to the published window end and answers nothing to a stop. */
  class MockCharger {
    var window: Option<(Millis, int)>

    constructor ()
      ensures window == None
    {
      window := None;
    }

    method Start(now: Millis, endEpochSec: u64) returns (reply: Option<string>)
      modifies this
      ensures old(window).Some? ==> window == old(window) && reply == None
      ensures old(window).None? ==> window == Some((now, WrapU64(endEpochSec * 1000))) && reply == Some("start-acked")
    {
      if window.Some? {
        return None;
      }
      var endsAt := WrapU64(endEpochSec * 1000);
      window := Some((now, endsAt));
      return Some("start-acked");
    }

    method Stop()
      modifies this
      ensures window == None
    {
      window := None;
    }

    /** The window expires on the first pump at or after its end, and is reported then only. */
    method Pump(now: Millis) returns (payload: Option<string>)
      modifies this
      ensures payload.Some? <==> old(window).Some? && old(window).value.1 <= now
      ensures window == if payload.Some? then None else old(window)
    {
      if window.Some? && now >= window.value.1 {
        window := None;
        return Some("countdown-finished");
      }
      return None;
    }
  }
}
