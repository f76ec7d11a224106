/** What the settlement engine guarantees over whole event sequences. */
module DeliveryLaws {
  import opened Machine
  import opened Wrappers
  import opened Delivery

  /** A grant is in force and not settled yet. */
  predicate Open(e: EngineState) {
    e.phase in {Granted, Delivering} && e.guard.Some?
  }

  /** The action list of every event, in order. */
  function Emitted(e: EngineState, events: seq<DeliveryEvent>): seq<seq<DeliveryAction>>
    decreases |events|
  {
    if events == [] then []
    else var (next, actions) := EngineStep(e, events[0]); [actions] + Emitted(next, events[1..])
  }

  function Journalled(e: EngineState): Progress
    requires e.guard.Some?
  {
    e.guard.value.last
  }

  /** The engine a host rebuilds from `e`'s grant and a journalled reading. */
  function Recovered(e: EngineState, journal: Progress): EngineState
    requires e.guard.Some?
  {
    ResumeState(e.guard.value.grant, journal)
  }

  // ---- Crash recovery ----

  /** Same grant, same totals, and both open or both in the same phase. */
  predicate Similar(a: EngineState, b: EngineState) {
    && (a.phase == b.phase || (Open(a) && Open(b)))
    && a.guard.Some? && b.guard.Some?
    && a.guard.value.grant == b.guard.value.grant
    && SameTotals(a.guard.value.last, b.guard.value.last)
  }

  lemma SimilarStep(a: EngineState, b: EngineState, event: DeliveryEvent)
    requires Similar(a, b)
    ensures EngineStep(a, event).1 == EngineStep(b, event).1
    ensures a.phase != Idle ==> Similar(EngineStep(a, event).0, EngineStep(b, event).0)
  {
  }

  lemma {:induction false} SimilarEmit(a: EngineState, b: EngineState, events: seq<DeliveryEvent>)
    requires Similar(a, b) && a.phase != Idle
    ensures Emitted(a, events) == Emitted(b, events)
    decreases |events|
  {
    if events != [] {
      SimilarStep(a, b, events[0]);
      SimilarEmit(EngineStep(a, events[0]).0, EngineStep(b, events[0]).0, events[1..]);
    }
  }

  /** Recovering from the live journal is indistinguishable from never crashing. */
  lemma {:induction false} RecoveryIsInvisible(e: EngineState, events: seq<DeliveryEvent>)
    requires Open(e)
    ensures Emitted(Recovered(e, Journalled(e)), events) == Emitted(e, events)
  {
    SimilarEmit(Recovered(e, Journalled(e)), e, events);
  }

  /** Every future event sequence is answered alike. */
  ghost predicate SameFuture(a: EngineState, b: EngineState) {
    forall events :: Emitted(a, events) == Emitted(b, events)
  }

  /** The journalled totals are exactly what future behaviour can depend on: two open
      engines of one grant agree on every future if and only if their totals agree. */
  lemma {:induction false} SameFutureIffSameTotals(a: EngineState, b: EngineState)
    requires Open(a) && Open(b) && a.guard.value.grant == b.guard.value.grant
    ensures SameFuture(a, b) <==> SameTotals(Journalled(a), Journalled(b))
  {
    if SameTotals(Journalled(a), Journalled(b)) {
      forall events ensures Emitted(a, events) == Emitted(b, events) {
        SimilarEmit(a, b, events);
      }
    } else {
      var probe := if Dominates(Journalled(a), Journalled(b)) then Journalled(b) else Journalled(a);
      var events := [ProgressObserved(probe)];
      assert Emitted(a, events)[0] == EngineStep(a, events[0]).1;
      assert Emitted(b, events)[0] == EngineStep(b, events[0]).1;
      assert Emitted(a, events) != Emitted(b, events);
    }
  }

  /** After a restart from an older journal the next sample heals the engine exactly
      when it reaches the live totals (or nothing had been lost); the sample itself is
      then answered alike and so is everything after it. */
  lemma StaleJournalHeals(e: EngineState, journal: Progress, sample: Progress)
    requires Open(e) && Dominates(Journalled(e), journal)
    ensures
      (forall events :: Emitted(Recovered(e, journal), [ProgressObserved(sample)] + events)
                     == Emitted(e, [ProgressObserved(sample)] + events))
      <==> Dominates(sample, Journalled(e)) || SameTotals(journal, Journalled(e))
  {
    var r := Recovered(e, journal);
    var first := ProgressObserved(sample);
    var e', r' := EngineStep(e, first).0, EngineStep(r, first).0;
    if Dominates(sample, Journalled(e)) || SameTotals(journal, Journalled(e)) {
      forall events ensures Emitted(r, [first] + events) == Emitted(e, [first] + events) {
        assert ([first] + events)[1..] == events;
        SimilarEmit(r', e', events);
      }
    } else {
      SameFutureIffSameTotals(r', e');
      var events :| Emitted(r', events) != Emitted(e', events);
      assert ([first] + events)[1..] == events;
      assert Emitted(r, [first] + events)[1..] == Emitted(r', events);
      assert Emitted(e, [first] + events)[1..] == Emitted(e', events);
    }
  }

  /** If the lease lapses before any sample, an engine recovered from an older journal
      settles too, and never burns more than the live one would have. */
  lemma StaleJournalBurnsNoMore(e: EngineState, journal: Progress, now: Millis)
    requires Open(e) && Dominates(Journalled(e), journal)
    requires e.guard.value.grant.lease.expiresAt <= now
    ensures var live := EngineStep(e, Tick(now)).1;
            var recovered := EngineStep(Recovered(e, journal), Tick(now)).1;
            && |live| == |recovered| == 2
            && live[0].SettleDelivery? && recovered[0].SettleDelivery?
            && live[1].RefundChange? && recovered[1].RefundChange?
            && recovered[0].amountMillis <= live[0].amountMillis
            && recovered[0].amountMillis + recovered[1].amountMillis
               == live[0].amountMillis + live[1].amountMillis
               == e.guard.value.grant.depositMillis
  {
  }

  // ---- Settlement ----

  /** How often money moved: the number of settle actions in a list. */
  function Settles(actions: seq<DeliveryAction>): nat {
    if actions == [] then 0 else (if actions[0].SettleDelivery? then 1 else 0) + Settles(actions[1..])
  }

  function TotalSettles(lists: seq<seq<DeliveryAction>>): nat {
    if lists == [] then 0 else Settles(lists[0]) + TotalSettles(lists[1..])
  }

  /** No sample that the guard would accept reaches an engine that has already settled. */
  predicate NoLateSample(e: EngineState, events: seq<DeliveryEvent>)
    decreases |events|
  {
    events != [] ==>
      && !(e.phase == Done && events[0].ProgressObserved? && e.guard.Some?
           && Dominates(events[0].progress, e.guard.value.last))
      && NoLateSample(EngineStep(e, events[0]).0, events[1..])
  }

  /** A settled engine reopens on exactly the samples its guard still accepts. */
  lemma DoneReopensIff(e: EngineState, event: DeliveryEvent)
    requires e.phase == Done && e.guard.Some?
    ensures EngineStep(e, event).0.phase != Done
            <==> event.ProgressObserved? && Dominates(event.progress, Journalled(e))
    ensures Settles(EngineStep(e, event).1) == 0
  {
  }

  lemma SettleCount(e: EngineState, event: DeliveryEvent)
    requires e.phase != Idle ==> e.guard.Some?
    ensures var (next, actions) := EngineStep(e, event);
            && (next.phase != Idle ==> next.guard.Some?)
            && (Settles(actions) == if Open(e) && next.phase == Done then 1 else 0)
  {
    var actions := EngineStep(e, event).1;
    if |actions| == 2 {
      assert actions[1..] == [actions[1]] && [actions[1]][1..] == [];
      assert Settles([actions[1]]) == 0;
    } else if |actions| == 1 {
      assert actions[1..] == [];
    }
  }

  /** The event puts an engine with nothing to settle back in business: a grant it can take, or a
      sample its guard still accepts after settlement. */
  predicate IsOpening(e: EngineState, event: DeliveryEvent) {
    || (e.phase == Idle && event.GrantIssued?)
    || (e.phase == Done && e.guard.Some? && event.ProgressObserved? && Dominates(event.progress, Journalled(e)))
  }

  function Openings(e: EngineState, events: seq<DeliveryEvent>): nat
    decreases |events|
  {
    if events == [] then 0
    else (if IsOpening(e, events[0]) then 1 else 0) + Openings(EngineStep(e, events[0]).0, events[1..])
  }

  function After(e: EngineState, events: seq<DeliveryEvent>): EngineState
    decreases |events|
  {
    if events == [] then e else After(EngineStep(e, events[0]).0, events[1..])
  }

  function Unsettled(e: EngineState): nat { if Open(e) then 1 else 0 }

  /** The exact count over any events: every delivery that was open or has been opened since is either
      settled, once, or open still. */
  lemma {:induction false} SettlementsCount(e: EngineState, events: seq<DeliveryEvent>)
    requires e.phase != Idle <==> e.guard.Some?
    ensures TotalSettles(Emitted(e, events)) + Unsettled(After(e, events)) == Openings(e, events) + Unsettled(e)
    decreases |events|
  {
    if events != [] {
      SettleCount(e, events[0]);
      SettlementsCount(EngineStep(e, events[0]).0, events[1..]);
      assert Emitted(e, events)[1..] == Emitted(EngineStep(e, events[0]).0, events[1..]);
    }
  }

  /** An open engine settles at most once if and only if it never reopened, or did so once and stands open. */
  lemma {:induction false} SettlesOnceIff(e: EngineState, events: seq<DeliveryEvent>)
    requires Open(e)
    ensures TotalSettles(Emitted(e, events)) <= 1 <==> Openings(e, events) <= Unsettled(After(e, events))
  {
    SettlementsCount(e, events);
  }

  /** Over any events, without a late sample an engine settles at most once. */
  lemma {:induction false} SettlesOnce(e: EngineState, events: seq<DeliveryEvent>)
    requires (e.phase != Idle ==> e.guard.Some?) && NoLateSample(e, events)
    ensures TotalSettles(Emitted(e, events)) <= if e.phase == Done then 0 else 1
    decreases |events|
  {
    if events != [] {
      SettleCount(e, events[0]);
      SettlesOnce(EngineStep(e, events[0]).0, events[1..]);
      assert Emitted(e, events)[1..] == Emitted(EngineStep(e, events[0]).0, events[1..]);
    }
  }

  /** One late sample is enough for a second settlement: a host must not feed a settled engine. */
  lemma LateSampleSettlesAgain(e: EngineState, report: TerminalReport)
    requires Open(e)
    ensures var events := [TerminalObserved(report), ProgressObserved(Journalled(e)), TerminalObserved(report)];
            TotalSettles(Emitted(e, events)) == 2 && !NoLateSample(e, events)
  {
    var t, p := TerminalObserved(report), ProgressObserved(Journalled(e));
    var e1 := EngineStep(e, t).0;
    var e2 := EngineStep(e1, p).0;
    SettleCount(e, t);
    SettleCount(e1, p);
    SettleCount(e2, t);
    assert [t, p, t][1..] == [p, t] && [p, t][1..] == [t] && [t][1..] == [];
    assert Emitted(e2, [t]) == [EngineStep(e2, t).1];
    assert Emitted(e1, [p, t]) == [EngineStep(e1, p).1] + Emitted(e2, [t]);
    assert TotalSettles(Emitted(e2, [t])) == 1;
    assert Emitted(e1, [p, t])[1..] == Emitted(e2, [t]);
    assert Emitted(e, [t, p, t])[1..] == Emitted(e1, [p, t]);
  }

  // ---- One event, told from the outside ----

  /** Some total has come up to its limit. */
  predicate CapReached(grant: Grant, p: Progress) {
    || (grant.caps.maxUnits.Some? && grant.caps.maxUnits.value <= p.unitsTotal)
    || (grant.caps.maxSeconds.Some? && grant.caps.maxSeconds.value <= p.secondsTotal)
    || (grant.caps.maxCostMillis.Some? && grant.caps.maxCostMillis.value <= p.costMillisTotal)
  }

  /** A sample with any total below the last accepted one is answered with an alarm and changes nothing. Any other is kept,
      and the agent is told to stop exactly when a total has come up to its limit. */
  lemma SampleIsKeptUnlessBehind(e: EngineState, p: Progress)
    requires e.guard.Some?
    ensures var grant, last, (e', actions) := e.guard.value.grant, e.guard.value.last, EngineStep(e, ProgressObserved(p));
            if p.unitsTotal < last.unitsTotal || p.secondsTotal < last.secondsTotal || p.costMillisTotal < last.costMillisTotal then
              e' == e && actions == [Alarm(grant.nonce, NonMonotonicProgress)]
            else
              && e' == EngineState(Delivering, Some(GuardState(grant, p)))
              && actions == if CapReached(grant, p) then [StopDelivery(grant.nonce)] else []
    ensures EngineStep(EngineState(e.phase, None), ProgressObserved(p)) == (EngineState(e.phase, None), [])
  {
  }

  /** The cap named is the first of units, seconds and cost to have been reached. */
  lemma FirstCapIsNamed(g: GuardState)
    ensures var units, seconds, cost := g.grant.caps.maxUnits, g.grant.caps.maxSeconds, g.grant.caps.maxCostMillis;
            && (Exhausted(g) == Some(CapUnits) <==> units.Some? && units.value <= g.last.unitsTotal)
            && (Exhausted(g) == Some(CapSeconds)
                <==> (units.Some? ==> g.last.unitsTotal < units.value) && seconds.Some? && seconds.value <= g.last.secondsTotal)
            && (Exhausted(g) == Some(CapCost)
                <==> (units.Some? ==> g.last.unitsTotal < units.value) && (seconds.Some? ==> g.last.secondsTotal < seconds.value)
                     && cost.Some? && cost.value <= g.last.costMillisTotal)
            && (Exhausted(g).Some? <==> CapReached(g.grant, g.last))
  {
  }

  /** A final cost is settled as far as deposit and money cap go, and the rest of the deposit is given back, both under the
      grant's number; before a grant it is an alarm with the position of its kind, after settlement it is nothing. */
  lemma TerminalIsSettled(e: EngineState, r: TerminalReport)
    ensures var (e', actions) := EngineStep(e, TerminalObserved(r));
            && (e.phase == Done ==> e' == e && actions == [])
            && (e.phase == Idle ==>
                  && e' == e && |actions| == 1 && actions[0].Alarm? && actions[0].reason == UnmatchedTerminal
                  && actions[0].nonce < 7
                  && [Completed, CapUnits, CapSeconds, CapCost, Failed, Revoked, LeaseExpired][actions[0].nonce] == r.kind)
            && (Open(e) ==>
                  && e' == e.(phase := Done)
                  && SettlesAs(actions, e.guard.value.grant, r.costMillisTotal))
  {
  }

  /** Two actions under the grant's number that share out its deposit, the first as much as cost, deposit and cap allow. */
  predicate SettlesAs(actions: seq<DeliveryAction>, grant: Grant, cost: u64) {
    && |actions| == 2 && actions[0].SettleDelivery? && actions[1].RefundChange?
    && actions[0].nonce == actions[1].nonce == grant.nonce
    && actions[0].amountMillis + actions[1].amountMillis == grant.depositMillis
    && actions[0].amountMillis <= cost
    && (grant.caps.maxCostMillis.Some? ==> actions[0].amountMillis <= grant.caps.maxCostMillis.value)
    && (|| actions[0].amountMillis == cost
        || actions[0].amountMillis == grant.depositMillis
        || grant.caps.maxCostMillis == Some(actions[0].amountMillis))
  }

  /** A grant is taken once, with nothing accrued; a revoke asks an open delivery to stop; a tick settles what was last
      accepted as soon as the lease has expired, and not before. */
  lemma GrantRevokeTick(e: EngineState, grant: Grant, at: Millis)
    ensures EngineStep(e, GrantIssued(grant))
         == (if e.phase == Idle then EngineState(Granted, Some(GuardState(grant, Progress(0, 0, 0, 0)))) else e, [])
    ensures Open(e) ==> EngineStep(e, RevokeRequested(at)) == (e, [StopDelivery(e.guard.value.grant.nonce)])
    ensures e.phase in {Idle, Done} ==> EngineStep(e, RevokeRequested(at)) == (e, [])
    ensures !Open(e) || at < e.guard.value.grant.lease.expiresAt ==> EngineStep(e, Tick(at)) == (e, [])
    ensures Open(e) && e.guard.value.grant.lease.expiresAt <= at ==>
              var (e', actions) := EngineStep(e, Tick(at));
              e' == e.(phase := Done) && SettlesAs(actions, e.guard.value.grant, e.guard.value.last.costMillisTotal)
  {
  }

  /** A rebuilt engine is open with the journal as its last reading; it counts as delivering unless a limit was reached. */
  lemma RebuiltIsOpen(grant: Grant, journal: Progress)
    ensures ResumeState(grant, journal)
         == EngineState(if CapReached(grant, journal) then Granted else Delivering, Some(GuardState(grant, journal)))
  {
  }
}
