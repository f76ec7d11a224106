/** The charger driver wired to the simulated device: both are at rest by the lease deadline. */
module ClosedLoop {
  import opened Machine
  import opened Wrappers
  import opened Delivery
  import opened ChargerDriver
  import opened ChargerLaws

  /** The published window, in milliseconds, closes by the lease deadline and within two seconds of it. */
  lemma WindowFitsLease(grant: Grant, now: Millis)
    requires now <= grant.lease.expiresAt
    ensures var endsAt := WrapU64(WindowEnd(grant, now) * 1000);
            grant.lease.expiresAt - 2000 < endsAt <= grant.lease.expiresAt
  {
  }

  /** When the lease has already passed, the window published is over before it starts. */
  lemma LateWindowIsEmpty(grant: Grant, now: Millis)
    requires grant.lease.expiresAt < now
    ensures WrapU64(WindowEnd(grant, now) * 1000) <= now
  {
  }

  /** One round of the host loop, the device's acknowledgement, a user's button, or the trust-holder's revoke. */
  datatype Round =
    | Cycle(at: Millis, payload: seq<u8>)
    | Ack(at: Millis)
    | Button(at: Millis, raw: seq<u8>)
    | Withdraw(at: Millis)

  /** The driver with the end of the device's running window, if it has one. */
  datatype Loop = Loop(driver: DriverState, endsAt: Option<int>)

  function Execute(l: Loop, op: Op): Loop {
    var (driver, out) := DriverStep(l.driver, op);
    Loop(driver, if PublishStop(driver.device) in out then None else l.endsAt)
  }

  function RoundStep(l: Loop, r: Round): Loop {
    match r
    case Cycle(at, payload) =>
      var expired := l.endsAt.Some? && l.endsAt.value <= at;
      var pumped := if expired then Execute(l.(endsAt := None), DeviceDone(at, payload)) else l;
      Execute(pumped, TimerTick(at))
    case Ack(at) => Execute(l, GrantAck(at))
    case Button(at, raw) => Execute(l, DeviceAborted(at, raw))
    case Withdraw(at) => Execute(l, Revoke(at))
  }

  function LoopRun(l: Loop, rounds: seq<Round>): Loop
    decreases |rounds|
  {
    if rounds == [] then l else RoundStep(LoopRun(l, rounds[..|rounds| - 1]), rounds[|rounds| - 1])
  }

  /** An idle device means delivery is settled or about to be. */
  predicate LoopInvariant(l: Loop) {
    Armed(l.driver) && (l.endsAt.None? ==> IsDone(l.driver) || l.driver.pendingStop.Some?)
  }

  lemma ExecuteKeeps(l: Loop, op: Op)
    requires LoopInvariant(l) || (Armed(l.driver) && (op.DeviceDone? || op.DeviceAborted?))
    ensures LoopInvariant(Execute(l, op))
    ensures l.endsAt.None? ==> Execute(l, op).endsAt.None?
    ensures l.endsAt.Some? ==> Execute(l, op).endsAt in {l.endsAt, None}
  {
    var s := l.driver;
    StepPays(s, op);
    match op
    case GrantAck(_) =>
    case DeviceDone(at, raw) =>
    case DeviceAborted(at, raw) =>
    case Revoke(at) => DispatchRevoke(s.(pendingStop := Some(StopRevoked)), at);
    case TimerTick(now) =>
      if !IsDone(s) && s.pendingStop.None? {
        var observed := s.(last := Synthesized(s.ackedAt, s.price, now));
        DispatchProgress(observed, observed.last);
        var (s1, out1) := Dispatched(observed, ProgressObserved(observed.last));
        DispatchTick(s1, now);
        StopSurvives(out1, Dispatched(s1, Tick(now)).1, s.device);
        SettlementHasNoStop(s1, now);
      } else if !IsDone(s) {
      }
  }

  lemma StopSurvives(a: seq<Outbound>, b: seq<Outbound>, device: string)
    ensures PublishStop(device) in a + b <==> PublishStop(device) in a || PublishStop(device) in b
  {
  }

  lemma SettlementHasNoStop(s: DriverState, now: Millis)
    requires Armed(s)
    ensures PublishStop(s.device) !in Dispatched(s, Tick(now)).1
  {
    var (engine, actions) := EngineStep(s.engine, Tick(now));
    if actions != [] {
      var s1 := s.(engine := engine);
      assert actions[..1] == [actions[0]];
      TranslateOne(s1, actions[0]);
    }
  }

  lemma {:induction false} LoopHolds(l: Loop, rounds: seq<Round>)
    requires LoopInvariant(l)
    ensures LoopInvariant(LoopRun(l, rounds))
    ensures l.endsAt.Some? ==> LoopRun(l, rounds).endsAt in {l.endsAt, None}
    ensures l.endsAt.None? ==> LoopRun(l, rounds).endsAt.None?
    decreases |rounds|
  {
    if rounds != [] {
      LoopHolds(l, rounds[..|rounds| - 1]);
      RoundKeeps(LoopRun(l, rounds[..|rounds| - 1]), rounds[|rounds| - 1]);
    }
  }

  lemma RoundKeeps(l: Loop, r: Round)
    requires LoopInvariant(l)
    ensures LoopInvariant(RoundStep(l, r))
    ensures l.endsAt.None? ==> RoundStep(l, r).endsAt.None?
    ensures l.endsAt.Some? ==> RoundStep(l, r).endsAt in {l.endsAt, None}
    ensures r.Cycle? && (l.endsAt.None? || l.endsAt.value <= r.at) ==> AtRest(RoundStep(l, r))
    ensures AtRest(l) ==> AtRest(RoundStep(l, r))
  {
    match r
    case Ack(at) =>
      ExecuteKeeps(l, GrantAck(at));
      StepPays(l.driver, GrantAck(at));
    case Button(at, raw) =>
      ExecuteKeeps(l, DeviceAborted(at, raw));
      StepPays(l.driver, DeviceAborted(at, raw));
    case Withdraw(at) =>
      ExecuteKeeps(l, Revoke(at));
      StepPays(l.driver, Revoke(at));
    case Cycle(at, payload) =>
      var expired := l.endsAt.Some? && l.endsAt.value <= at;
      var idle := l.(endsAt := None);
      var pumped := if expired then Execute(idle, DeviceDone(at, payload)) else l;
      if expired {
        ExecuteKeeps(idle, DeviceDone(at, payload));
        StepPays(l.driver, DeviceDone(at, payload));
      }
      ExecuteKeeps(pumped, TimerTick(at));
      StepPays(pumped.driver, TimerTick(at));
  }

  /** The device is idle and the driver has settled. */
  predicate AtRest(l: Loop) { l.endsAt.None? && IsDone(l.driver) }

  lemma {:induction false} RestIsForGood(l: Loop, rounds: seq<Round>)
    requires LoopInvariant(l) && AtRest(l)
    ensures AtRest(LoopRun(l, rounds))
    decreases |rounds|
  {
    if rounds != [] {
      var before := rounds[..|rounds| - 1];
      LoopHolds(l, before);
      RestIsForGood(l, before);
      RoundKeeps(LoopRun(l, before), rounds[|rounds| - 1]);
    }
  }

  /** In every run from an opened and started session, whenever acks arrived and whatever else
      happened, a cycle at or after the published window end leaves device and driver at rest for
      good; that end is no later than the lease deadline and less than two seconds before it. */
  lemma AtRestByTheDeadline(device: string, grant: Grant, price: PriceVector, now: Millis,
                            rounds: seq<Round>, i: nat)
    requires now <= grant.lease.expiresAt
    requires i < |rounds| && rounds[i].Cycle?
    requires WrapU64(WindowEnd(grant, now) * 1000) <= rounds[i].at
    ensures var endsAt := WrapU64(WindowEnd(grant, now) * 1000);
            var started := Loop(OpenState(device, grant, price, now), Some(endsAt));
            && grant.lease.expiresAt - 2000 < endsAt <= grant.lease.expiresAt
            && AtRest(LoopRun(started, rounds))
  {
    WindowFitsLease(grant, now);
    var endsAt := WrapU64(WindowEnd(grant, now) * 1000);
    var started := Loop(OpenState(device, grant, price, now), Some(endsAt));
    LoopHolds(started, rounds[..i]);
    RoundKeeps(LoopRun(started, rounds[..i]), rounds[i]);
    assert rounds[..i + 1][..i] == rounds[..i];
    var rested := LoopRun(started, rounds[..i + 1]);
    LoopHolds(started, rounds[..i + 1]);
    RestIsForGood(rested, rounds[i + 1..]);
    LoopRunSplit(started, rounds, i + 1);
  }

  lemma {:induction false} LoopRunSplit(l: Loop, rounds: seq<Round>, i: nat)
    requires i <= |rounds|
    ensures LoopRun(l, rounds) == LoopRun(LoopRun(l, rounds[..i]), rounds[i..])
    decreases |rounds|
  {
    if i == |rounds| {
      assert rounds[..i] == rounds;
    } else {
      var before := rounds[..|rounds| - 1];
      LoopRunSplit(l, before, i);
      assert before[..i] == rounds[..i];
      assert rounds[i..][..|rounds| - 1 - i] == before[i..];
    }
  }

  // ---- The same round on the live objects ----

  function ViewOf(driver: Driver, device: MockCharger): Loop
    reads driver, driver.engine, driver.engine.guard, device
  {
    Loop(driver.View(), if device.window.Some? then Some(device.window.value.1) else None)
  }

  /** Carries out wire commands on the device: only a stop touches it. */
  method Apply(device: MockCharger, name: string, out: seq<Outbound>)
    modifies device
    ensures device.window == if PublishStop(name) in out then None else old(device.window)
  {
    var i := 0;
    while i < |out|
      invariant 0 <= i <= |out|
      invariant device.window == if PublishStop(name) in out[..i] then None else old(device.window)
    {
      if out[i] == PublishStop(name) {
        device.Stop();
      }
      i := i + 1;
    }
  }

  method RunCycle(driver: Driver, device: MockCharger, at: Millis, payload: seq<u8>)
    modifies driver, driver.engine, driver.engine.guard, device
    ensures ViewOf(driver, device) == RoundStep(old(ViewOf(driver, device)), Cycle(at, payload))
    ensures driver.engine.guard == old(driver.engine.guard) || fresh(driver.engine.guard)
  {
    var expired := device.Pump(at);
    if expired.Some? {
      var out := driver.HandleMessage(DeviceDone(at, payload));
      Apply(device, driver.device, out);
    }
    var out := driver.OnTick(at);
    Apply(device, driver.device, out);
  }
}
