/** Delivery metered by a third party: the provider is polled, and what it reports on stopping is what gets billed. */
module ExternalDriver {
  import opened Machine
  import opened Wrappers
  import opened Delivery
  import opened DeliveryLaws

  datatype ProviderError = Refused

  datatype Receipt = Receipt(costMillisTotal: u64, secondsTotal: u64)

  datatype ExternalAction = Settle(nonce: u64, amountMillis: u64) | Refund(nonce: u64, amountMillis: u64)

  /** A host call, with the answer the provider gives if it is asked. */
  datatype Call = Poll(now: Millis, answer: Progress) | StopAt(now: Millis, receipt: Receipt)

  datatype ExternalState = ExternalState(engine: EngineState, grant: Grant, session: Option<u64>, last: Progress)

  function QuotedGrant(nonce: u64, deposit: u64, maxSeconds: u64, now: Millis, leaseMs: u64): Grant {
    Grant(nonce, deposit, Caps(None, Some(maxSeconds), None), Lease(WrapU64(now + leaseMs)))
  }

  function OpenedState(grant: Grant, session: u64, now: Millis): ExternalState {
    ExternalState(EngineState(Granted, Some(GuardState(grant, NO_PROGRESS))), grant, Some(session), Progress(0, 0, 0, now))
  }

  /** Only the money actions concern the host; the provider needs no stop command of ours. */
  function Money(actions: seq<DeliveryAction>): seq<ExternalAction>
    decreases |actions|
  {
    if actions == [] then []
    else
      var rest := actions[..|actions| - 1];
      match actions[|actions| - 1]
      case SettleDelivery(nonce, amount) => Money(rest) + [Settle(nonce, amount)]
      case RefundChange(nonce, amount) => Money(rest) + [Refund(nonce, amount)]
      case StopDelivery(_) => Money(rest)
      case Alarm(_, _) => Money(rest)
  }

  function CallStep(s: ExternalState, call: Call): (ExternalState, seq<ExternalAction>) {
    if s.engine.phase == Done then (s, [])
    else match call
      case Poll(now, answer) =>
        var last := if s.session.Some? then answer else s.last;
        var (e1, actions1) := EngineStep(s.engine, ProgressObserved(last));
        var (e2, actions2) := EngineStep(e1, Tick(now));
        (s.(engine := e2, last := last), Money(actions1) + Money(actions2))
      case StopAt(now, receipt) =>
        var truth := if s.session.Some? then receipt else Receipt(s.last.costMillisTotal, s.last.secondsTotal);
        var report := TerminalReport(Completed, 0, truth.secondsTotal, truth.costMillisTotal, now, None);
        var (e1, actions) := EngineStep(s.engine, TerminalObserved(report));
        (s.(engine := e1, session := None), Money(actions))
  }

  /** Wires an engine to a provider session until that is stopped. */
  class Driver {
    const engine: DeliveryEngine
    const grant: Grant
    var session: Option<u64>
    var last: Progress

    constructor (engine: DeliveryEngine, grant: Grant, session: u64, last: Progress)
      ensures View() == ExternalState(engine.View(), grant, Some(session), last)
      ensures this.engine == engine
    {
      this.engine, this.grant, this.session, this.last := engine, grant, Some(session), last;
    }

    function View(): ExternalState
      reads this, engine, engine.guard
    {
      ExternalState(engine.View(), grant, session, last)
    }

    /** `quote` and `started` are the provider's answers; a refused start opens nothing. */
    static method Open(quote: u64, started: Result<u64, ProviderError>,
                       nonce: u64, maxSeconds: u64, now: Millis, leaseMs: u64)
      returns (r: Result<Driver, ProviderError>)
      ensures started.Err? ==> r == Err(started.error)
      ensures started.Ok? ==> r.Ok? && fresh(r.value)
      ensures started.Ok? ==>
        r.value.View() == OpenedState(QuotedGrant(nonce, quote, maxSeconds, now, leaseMs), started.value, now)
      ensures started.Ok? ==>
        var grant := r.value.grant;
        && grant.nonce == nonce && grant.depositMillis == quote
        && grant.caps.maxUnits == None && grant.caps.maxSeconds == Some(maxSeconds) && grant.caps.maxCostMillis == None
        && grant.lease.expiresAt == (if now + leaseMs <= 0xFFFF_FFFF_FFFF_FFFF then now + leaseMs
                                     else now + leaseMs - 0x1_0000_0000_0000_0000)
        && r.value.session == Some(started.value) && r.value.last == Progress(0, 0, 0, now)
    {
      if started.Err? {
        return Err(started.error);
      }
      var grant := QuotedGrant(nonce, quote, maxSeconds, now, leaseMs);
      var engine := new DeliveryEngine();
      var _ := engine.Handle(GrantIssued(grant));
      var driver := new Driver(engine, grant, started.value, Progress(0, 0, 0, now));
      return Ok(driver);
    }

    /** A driver restarted with the persisted totals and session number. */
    static method Resume(grant: Grant, last: Progress, session: u64) returns (driver: Driver)
      ensures fresh(driver)
      ensures driver.View() == ExternalState(ResumeState(grant, last), grant, Some(session), last)
    {
      var engine := new DeliveryEngine.Resume(grant, last);
      driver := new Driver(engine, grant, session, last);
    }

    method OnTick(now: Millis, answer: Progress) returns (out: seq<ExternalAction>)
      modifies this, engine, engine.guard
      ensures (View(), out) == CallStep(old(View()), Poll(now, answer))
      ensures engine.guard == old(engine.guard) || fresh(engine.guard)
    {
      if engine.phase == Done {
        return [];
      }
      if session.Some? {
        last := answer;
      }
      var actions := engine.Handle(ProgressObserved(last));
      out := Translate(actions);
      actions := engine.Handle(Tick(now));
      var more := Translate(actions);
      out := out + more;
    }

    method Stop(now: Millis, receipt: Receipt) returns (out: seq<ExternalAction>)
      modifies this, engine, engine.guard
      ensures (View(), out) == CallStep(old(View()), StopAt(now, receipt))
      ensures engine.guard == old(engine.guard) || fresh(engine.guard)
    {
      if engine.phase == Done {
        return [];
      }
      var cost, seconds := last.costMillisTotal, last.secondsTotal;
      if session.Some? {
        cost, seconds := receipt.costMillisTotal, receipt.secondsTotal;
      }
      session := None;
      var actions := engine.Handle(TerminalObserved(TerminalReport(Completed, 0, seconds, cost, now, None)));
      out := Translate(actions);
    }
  }

  method Translate(actions: seq<DeliveryAction>) returns (out: seq<ExternalAction>)
    ensures out == Money(actions)
  {
    out := [];
    var i := 0;
    while i < |actions|
      invariant 0 <= i <= |actions|
      invariant out == Money(actions[..i])
    {
      assert actions[..i + 1][..i] == actions[..i];
      match actions[i] {
        case SettleDelivery(nonce, amountMillis) => out := out + [Settle(nonce, amountMillis)];
        case RefundChange(nonce, amountMillis) => out := out + [Refund(nonce, amountMillis)];
        case StopDelivery(_) =>
        case Alarm(_, _) =>
      }
      i := i + 1;
    }
    assert actions[..i] == actions;
  }

  // ---- Exactly one settlement ----

  function CallRun(s: ExternalState, calls: seq<Call>): (ExternalState, seq<ExternalAction>)
    decreases |calls|
  {
    if calls == [] then (s, [])
    else
      var (s1, out1) := CallRun(s, calls[..|calls| - 1]);
      var (s2, out2) := CallStep(s1, calls[|calls| - 1]);
      (s2, out1 + out2)
  }

  /** One settle and one refund under the grant's nonce, adding up to its deposit. */
  predicate PaidOnce(out: seq<ExternalAction>, grant: Grant) {
    exists cost :: out == [Settle(grant.nonce, Payout(grant, cost)),
                           Refund(grant.nonce, grant.depositMillis - Payout(grant, cost))]
  }

  predicate Armed(s: ExternalState) {
    s.engine.phase != Idle && s.engine.guard.Some? && s.engine.guard.value.grant == s.grant
  }

  lemma MoneyOfSettlement(grant: Grant, cost: u64)
    ensures Money(Settlement(grant, cost)) == [Settle(grant.nonce, Payout(grant, cost)),
                                               Refund(grant.nonce, grant.depositMillis - Payout(grant, cost))]
  {
    var actions := Settlement(grant, cost);
    assert actions[..1] == [actions[0]] && [actions[0]][..0] == [];
    assert Money([]) == [];
    assert Money([actions[0]]) == [Settle(grant.nonce, Payout(grant, cost))];
  }

  lemma EngineMoney(e: EngineState, grant: Grant, event: DeliveryEvent)
    requires e.phase != Idle && e.guard.Some? && e.guard.value.grant == grant
    ensures var (e', actions) := EngineStep(e, event);
            && e'.phase != Idle && e'.guard.Some? && e'.guard.value.grant == grant
            && (if Open(e) && e'.phase == Done then PaidOnce(Money(actions), grant) else Money(actions) == [])
  {
    var (e', actions) := EngineStep(e, event);
    if Open(e) && e'.phase == Done {
      var cost := if event.Tick? then e.guard.value.last.costMillisTotal else event.report.costMillisTotal;
      MoneyOfSettlement(grant, cost);
    } else if actions != [] {
      assert actions[..0] == [];
    }
  }

  lemma CallPays(s: ExternalState, call: Call)
    requires Armed(s)
    ensures var (s', out) := CallStep(s, call);
            && Armed(s') && s'.grant == s.grant
            && (s.engine.phase == Done ==> s' == s && out == [])
            && (s.engine.phase != Done ==>
                  && (s'.engine.phase == Done <==> call.StopAt? || s.grant.lease.expiresAt <= call.now)
                  && (if s'.engine.phase == Done then PaidOnce(out, s.grant) else out == []))
  {
    if s.engine.phase != Done {
      match call
      case Poll(now, answer) =>
        var last := if s.session.Some? then answer else s.last;
        EngineMoney(s.engine, s.grant, ProgressObserved(last));
        EngineMoney(EngineStep(s.engine, ProgressObserved(last)).0, s.grant, Tick(now));
      case StopAt(now, receipt) =>
        var truth := if s.session.Some? then receipt else Receipt(s.last.costMillisTotal, s.last.secondsTotal);
        EngineMoney(s.engine, s.grant,
                    TerminalObserved(TerminalReport(Completed, 0, truth.secondsTotal, truth.costMillisTotal, now, None)));
    }
  }

  /** Over every run the driver is done exactly when it was stopped or polled at or after the lease
      deadline, and it has then issued exactly one settlement of the whole deposit; before that, none. */
  lemma {:induction false} SettlesExactlyOnce(s: ExternalState, calls: seq<Call>)
    requires Armed(s) && s.engine.phase != Done
    ensures var (s', out) := CallRun(s, calls);
            && Armed(s') && s'.grant == s.grant
            && (s'.engine.phase == Done
                <==> exists i :: 0 <= i < |calls| && (calls[i].StopAt? || s.grant.lease.expiresAt <= calls[i].now))
            && (if s'.engine.phase == Done then PaidOnce(out, s.grant) else out == [])
    decreases |calls|
  {
    if calls != [] {
      var n := |calls| - 1;
      SettlesExactlyOnce(s, calls[..n]);
      var (s1, out1) := CallRun(s, calls[..n]);
      CallPays(s1, calls[n]);
      assert forall i :: 0 <= i < n ==> calls[..n][i] == calls[i];
      var (_, out2) := CallStep(s1, calls[n]);
      assert out1 + [] == out1 && [] + out2 == out2;
    }
  }

  /** A stop with a live session burns what the provider's receipt says, up to the deposit. */
  lemma ReceiptIsTheTruth(s: ExternalState, now: Millis, receipt: Receipt)
    requires Armed(s) && s.engine.phase != Done && s.session.Some? && s.grant.caps.maxCostMillis.None?
    ensures var burnt := Min(receipt.costMillisTotal, s.grant.depositMillis);
            CallStep(s, StopAt(now, receipt)).1
            == [Settle(s.grant.nonce, burnt), Refund(s.grant.nonce, s.grant.depositMillis - burnt)]
  {
    MoneyOfSettlement(s.grant, receipt.costMillisTotal);
  }
}
