/** Budgeted delivery: the grant, the budget guard and the settlement engine. */
module Delivery {
  import opened Machine
  import opened Wrappers

  // ---- Vocabulary ----

  /** Limits on units, time and money, each of them optional. */
  datatype Caps = Caps(maxUnits: Option<u64>, maxSeconds: Option<u64>, maxCostMillis: Option<u64>)

  datatype Lease = Lease(expiresAt: Millis)

  datatype Grant = Grant(nonce: u64, depositMillis: u64, caps: Caps, lease: Lease)

  /** Running totals as read at one instant. */
  datatype Progress = Progress(unitsTotal: u64, secondsTotal: u64, costMillisTotal: u64, at: Millis)

  datatype TerminalKind = Completed | CapUnits | CapSeconds | CapCost | Failed | Revoked | LeaseExpired

  datatype TerminalReport = TerminalReport(
    kind: TerminalKind, unitsTotal: u64, secondsTotal: u64, costMillisTotal: u64,
    at: Millis, receipt: Option<seq<u8>>)

  datatype DeliveryEvent =
    | GrantIssued(grant: Grant)
    | ProgressObserved(progress: Progress)
    | TerminalObserved(report: TerminalReport)
    | RevokeRequested(at: Millis)
    | Tick(now: Millis)

  datatype AlarmReason = NonMonotonicProgress | UnmatchedTerminal

  datatype DeliveryAction =
    | StopDelivery(nonce: u64)
    | SettleDelivery(nonce: u64, amountMillis: u64)
    | RefundChange(nonce: u64, amountMillis: u64)
    | Alarm(nonce: u64, reason: AlarmReason)

  datatype DeliveryPhase = Idle | Granted | Delivering | Done

  // ---- The engine as a function of its state ----

  datatype GuardState = GuardState(grant: Grant, last: Progress)

  datatype EngineState = EngineState(phase: DeliveryPhase, guard: Option<GuardState>)

  const NO_PROGRESS := Progress(0, 0, 0, 0)

  /** No cumulative total of `p` is behind the same total of `q`. */
  predicate Dominates(p: Progress, q: Progress) {
    && q.unitsTotal <= p.unitsTotal
    && q.secondsTotal <= p.secondsTotal
    && q.costMillisTotal <= p.costMillisTotal
  }

  predicate SameTotals(p: Progress, q: Progress) {
    Dominates(p, q) && Dominates(q, p)
  }

  predicate Reaches(total: u64, cap: Option<u64>) {
    cap.Some? && cap.value <= total
  }

  function Exhausted(g: GuardState): Option<TerminalKind> {
    if Reaches(g.last.unitsTotal, g.grant.caps.maxUnits) then Some(CapUnits)
    else if Reaches(g.last.secondsTotal, g.grant.caps.maxSeconds) then Some(CapSeconds)
    else if Reaches(g.last.costMillisTotal, g.grant.caps.maxCostMillis) then Some(CapCost)
    else None
  }

  /** What a final cost burns: no more than was deposited, nor than the money cap allows. */
  function Payout(grant: Grant, costMillis: u64): (settle: u64)
    ensures settle <= costMillis && settle <= grant.depositMillis
    ensures grant.caps.maxCostMillis.Some? ==> settle <= grant.caps.maxCostMillis.value
    ensures settle in {costMillis, grant.depositMillis} || Some(settle) == grant.caps.maxCostMillis
  {
    Min(Min(costMillis, grant.depositMillis),
        if grant.caps.maxCostMillis.Some? then grant.caps.maxCostMillis.value else U64_MAX)
  }

  function Settlement(grant: Grant, costMillis: u64): seq<DeliveryAction> {
    var settle := Payout(grant, costMillis);
    [SettleDelivery(grant.nonce, settle), RefundChange(grant.nonce, grant.depositMillis - settle)]
  }

  function NonceOf(e: EngineState): u64 {
    if e.guard.Some? then e.guard.value.grant.nonce else 0
  }

  function SettleFromTotals(e: EngineState, costMillis: u64): (EngineState, seq<DeliveryAction>) {
    if e.guard.None? then (e, [])
    else (e.(phase := Done), Settlement(e.guard.value.grant, costMillis))
  }

  /** The position of a terminal kind in its declaration. */
  function KindTag(kind: TerminalKind): u64 {
    match kind
    case Completed => 0
    case CapUnits => 1
    case CapSeconds => 2
    case CapCost => 3
    case Failed => 4
    case Revoked => 5
    case LeaseExpired => 6
  }

  function EngineStep(e: EngineState, event: DeliveryEvent): (EngineState, seq<DeliveryAction>) {
    match event
    case GrantIssued(grant) =>
      if e.phase == Idle then (EngineState(Granted, Some(GuardState(grant, NO_PROGRESS))), []) else (e, [])
    case ProgressObserved(progress) =>
      if e.guard.None? then (e, [])
      else if !Dominates(progress, e.guard.value.last) then (e, [Alarm(NonceOf(e), NonMonotonicProgress)])
      else
        var guard := e.guard.value.(last := progress);
        (EngineState(Delivering, Some(guard)), if Exhausted(guard).Some? then [StopDelivery(NonceOf(e))] else [])
    case TerminalObserved(report) =>
      if e.phase == Idle then (e, [Alarm(KindTag(report.kind), UnmatchedTerminal)])
      else if e.phase == Done then (e, [])
      else SettleFromTotals(e, report.costMillisTotal)
    case RevokeRequested(_) =>
      if e.phase in {Granted, Delivering} then (e, [StopDelivery(NonceOf(e))]) else (e, [])
    case Tick(now) =>
      if e.guard.Some? && e.phase in {Granted, Delivering} && e.guard.value.grant.lease.expiresAt <= now
      then SettleFromTotals(e, e.guard.value.last.costMillisTotal)
      else (e, [])
  }

  function ResumeState(grant: Grant, last: Progress): EngineState {
    var guard := GuardState(grant, last);
    EngineState(if Exhausted(guard).Some? then Granted else Delivering, Some(guard))
  }

  // ---- The engine as the host holds it ----

  /** Holds the totals last accepted under a grant and compares them with its limits. */
  class BudgetGuard {
    const grant: Grant
    var last: Progress

    constructor (grant: Grant)
      ensures View() == GuardState(grant, NO_PROGRESS)
    {
      this.grant := grant;
      last := NO_PROGRESS;
    }

    function View(): GuardState
      reads this
    {
      GuardState(grant, last)
    }

    /** A sample that goes backwards is ignored and the journal stands. */
    method Apply(progress: Progress) returns (r: Result<Option<TerminalKind>, AlarmReason>)
      modifies this
      ensures Dominates(progress, old(last)) ==> last == progress && r == Ok(Exhausted(View()))
      ensures !Dominates(progress, old(last)) ==> last == old(last) && r == Err(NonMonotonicProgress)
    {
      if progress.unitsTotal < last.unitsTotal
         || progress.secondsTotal < last.secondsTotal
         || progress.costMillisTotal < last.costMillisTotal
      {
        return Err(NonMonotonicProgress);
      }
      last := progress;
      var cap := FirstExhausted();
      return Ok(cap);
    }

    /** A cap is named exactly when some total has reached it, and units outrank seconds outrank cost. */
    method FirstExhausted() returns (cap: Option<TerminalKind>)
      ensures cap == Exhausted(View())
    {
      if grant.caps.maxUnits.Some? {
        if last.unitsTotal >= grant.caps.maxUnits.value {
          return Some(CapUnits);
        }
      }
      if grant.caps.maxSeconds.Some? {
        if last.secondsTotal >= grant.caps.maxSeconds.value {
          return Some(CapSeconds);
        }
      }
      if grant.caps.maxCostMillis.Some? {
        if last.costMillisTotal >= grant.caps.maxCostMillis.value {
          return Some(CapCost);
        }
      }
      return None;
    }
  }

  /** Takes one grant from issue to settlement. */
  class DeliveryEngine {
    var phase: DeliveryPhase
    var guard: BudgetGuard?

    constructor ()
      ensures View() == EngineState(Idle, None) && guard == null
    {
      phase := Idle;
      guard := null;
    }

    /** An engine restarted with a grant and the totals persisted for it. */
    constructor Resume(grant: Grant, last: Progress)
      ensures View() == ResumeState(grant, last)
      ensures fresh(guard)
    {
      var g := new BudgetGuard(grant);
      var _ := g.Apply(last);
      var cap := g.FirstExhausted();
      phase := if cap.Some? then Granted else Delivering;
      guard := g;
    }

    function View(): EngineState
      reads this, guard
    {
      EngineState(phase, if guard == null then None else Some(guard.View()))
    }

    method Handle(event: DeliveryEvent) returns (actions: seq<DeliveryAction>)
      modifies this, guard
      ensures (View(), actions) == EngineStep(old(View()), event)
      ensures guard == old(guard) || fresh(guard)
    {
      actions := [];
      match event {
        case GrantIssued(grant) =>
          if phase == Idle {
            guard := new BudgetGuard(grant);
            phase := Granted;
          }
        case ProgressObserved(progress) =>
          if guard != null {
            var outcome := guard.Apply(progress);
            match outcome {
              case Err(_) =>
                actions := [Alarm(guard.grant.nonce, NonMonotonicProgress)];
              case Ok(cap) =>
                phase := Delivering;
                if cap.Some? {
                  actions := [StopDelivery(guard.grant.nonce)];
                }
            }
          }
        case TerminalObserved(report) =>
          match phase {
            case Idle =>
              actions := [Alarm(KindTag(report.kind), UnmatchedTerminal)];
            case Granted | Delivering =>
              actions := Settle(report.costMillisTotal);
            case Done =>
          }
        case RevokeRequested(_) =>
          if phase == Granted || phase == Delivering {
            actions := [StopDelivery(if guard == null then 0 else guard.grant.nonce)];
          }
        case Tick(now) =>
          if guard != null && (phase == Granted || phase == Delivering) {
            if now >= guard.grant.lease.expiresAt {
              actions := Settle(guard.last.costMillisTotal);
            }
          }
      }
    }

    /** Burns the final cost, clamped to the deposit and the money cap, refunds the rest and closes. */
    method Settle(costMillis: u64) returns (actions: seq<DeliveryAction>)
      modifies this
      ensures (View(), actions) == SettleFromTotals(old(View()), costMillis)
      ensures guard == old(guard)
    {
      if guard == null {
        return [];
      }
      var grant := guard.grant;
      var settle := costMillis;
      if grant.depositMillis < settle {
        settle := grant.depositMillis;
      }
      if grant.caps.maxCostMillis.Some? && grant.caps.maxCostMillis.value < settle {
        settle := grant.caps.maxCostMillis.value;
      }
      var refund := grant.depositMillis - settle;
      phase := Done;
      return [SettleDelivery(grant.nonce, settle), RefundChange(grant.nonce, refund)];
    }
  }
}
