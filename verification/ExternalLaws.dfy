/** When a restart of the external driver can be told apart from carrying on. */
module ExternalLaws {
  import opened Machine
  import opened Wrappers
  import opened Delivery
  import opened DeliveryLaws
  import opened ExternalDriver

  /** The driver a host rebuilds from a persisted reading and the session number it noted. */
  function Rebuilt(grant: Grant, journal: Progress, session: u64): ExternalState {
    ExternalState(ResumeState(grant, journal), grant, Some(session), journal)
  }

  /** Whatever the host calls and the provider answers, the rebuilt driver orders the same money moves. */
  ghost predicate Unnoticed(s: ExternalState, journal: Progress, session: u64) {
    forall calls :: SameOrders(Rebuilt(s.grant, journal, session), s, calls)
  }

  predicate SameOrders(a: ExternalState, b: ExternalState, calls: seq<Call>) {
    CallRun(a, calls).1 == CallRun(b, calls).1
  }

  /** A driver as it can be reached: armed, and with a provider session until it is done. */
  predicate Live(s: ExternalState) {
    Armed(s) && (s.engine.phase != Done ==> s.session.Some?)
  }

  lemma {:induction false} StaysLive(s: ExternalState, calls: seq<Call>)
    requires Live(s)
    ensures Live(CallRun(s, calls).0) && CallRun(s, calls).0.grant == s.grant
    decreases |calls|
  {
    if calls != [] {
      StaysLive(s, calls[..|calls| - 1]);
      CallPays(CallRun(s, calls[..|calls| - 1]).0, calls[|calls| - 1]);
    }
  }

  // ---- How often a restarted driver settles ----

  function SettleCount(out: seq<ExternalAction>): nat {
    if out == [] then 0 else (if out[0].Settle? then 1 else 0) + SettleCount(out[1..])
  }

  lemma PaidOnceCounts(out: seq<ExternalAction>, grant: Grant)
    ensures PaidOnce(out, grant) ==> SettleCount(out) == 1
    ensures SettleCount([]) == 0
  {
    if PaidOnce(out, grant) {
      assert out[1..][1..] == [];
    }
  }

  lemma RunOfOne(s: ExternalState, call: Call)
    ensures CallRun(s, [call]) == CallStep(s, call)
  {
    assert [call][..0] == [];
    assert [] + CallStep(s, call).1 == CallStep(s, call).1;
  }

  /** The settled driver moves no more money, but the one rebuilt from its journal is open again: together they
      settle at most once, whatever follows, if and only if the first had not settled. */
  lemma {:induction false} RestartSettlesOnceIff(s: ExternalState, journal: Progress, session: u64)
    ensures (forall calls :: SettleCount(CallRun(Rebuilt(s.grant, journal, session), calls).1)
                             + (if s.engine.phase == Done then 1 else 0) <= 1)
            <==> s.engine.phase != Done
  {
    var r := Rebuilt(s.grant, journal, session);
    forall calls ensures SettleCount(CallRun(r, calls).1) <= 1 {
      SettlesExactlyOnce(r, calls);
      PaidOnceCounts(CallRun(r, calls).1, s.grant);
    }
    var stop := StopAt(0, Receipt(0, 0));
    RunOfOne(r, stop);
    CallPays(r, stop);
    PaidOnceCounts(CallStep(r, stop).1, s.grant);
    assert SettleCount(CallRun(r, [stop]).1) == 1;
  }

  // ---- Which journals are as good as the engine's own ----

  /** The journal settles like the accepted totals, and either every higher cost settles like that too, or only
      the costs differ and no sample can ever fall between them unseen. */
  predicate AsGood(grant: Grant, journal: Progress, accepted: Progress) {
    && Payout(grant, journal.costMillisTotal) == Payout(grant, accepted.costMillisTotal)
    && (|| Payout(grant, accepted.costMillisTotal) == Payout(grant, U64_MAX)
        || (&& journal.unitsTotal == accepted.unitsTotal
            && journal.secondsTotal == accepted.secondsTotal
            && (|| journal.costMillisTotal == accepted.costMillisTotal
                || grant.lease.expiresAt == 0
                || accepted.unitsTotal == accepted.secondsTotal == U64_MAX)))
  }

  predicate Twins(a: ExternalState, b: ExternalState) {
    && Live(a) && Live(b) && a.grant == b.grant
    && (a.engine.phase == Done <==> b.engine.phase == Done)
    && (a.engine.phase != Done ==> AsGood(a.grant, Journalled(a.engine), Journalled(b.engine)))
  }

  lemma PayoutMonotone(grant: Grant, c: u64, d: u64)
    requires c <= d
    ensures Payout(grant, c) <= Payout(grant, d)
  {
  }

  /** The totals an open engine holds after a sample. */
  function Accepted(held: Progress, sample: Progress): Progress {
    if Dominates(sample, held) then sample else held
  }

  lemma PollOutcome(s: ExternalState, now: Millis, answer: Progress)
    requires Live(s) && s.engine.phase != Done
    ensures var (s', out) := CallStep(s, Poll(now, answer));
            var held := Accepted(Journalled(s.engine), answer);
            && s'.last == answer && s'.session == s.session && s'.grant == s.grant
            && s'.engine.guard == Some(GuardState(s.grant, held))
            && (s'.engine.phase == Done <==> s.grant.lease.expiresAt <= now)
            && out == (if now < s.grant.lease.expiresAt then [] else Money(Settlement(s.grant, held.costMillisTotal)))
  {
    CallPays(s, Poll(now, answer));
    var actions := EngineStep(s.engine, ProgressObserved(answer)).1;
    EngineMoney(s.engine, s.grant, ProgressObserved(answer));
  }

  lemma AcceptedAsGood(grant: Grant, p: Progress, q: Progress, sample: Progress)
    requires AsGood(grant, p, q)
    ensures Payout(grant, Accepted(p, sample).costMillisTotal) == Payout(grant, Accepted(q, sample).costMillisTotal)
    ensures 0 < grant.lease.expiresAt ==> AsGood(grant, Accepted(p, sample), Accepted(q, sample))
  {
  }

  lemma TwinStep(a: ExternalState, b: ExternalState, call: Call)
    requires Twins(a, b)
    ensures CallStep(a, call).1 == CallStep(b, call).1 && Twins(CallStep(a, call).0, CallStep(b, call).0)
  {
    if a.engine.phase != Done {
      match call
      case Poll(now, answer) =>
        PollOutcome(a, now, answer);
        PollOutcome(b, now, answer);
        AcceptedAsGood(a.grant, Journalled(a.engine), Journalled(b.engine), answer);
      case StopAt(now, receipt) =>
        CallPays(a, call);
        CallPays(b, call);
    }
  }

  lemma {:induction false} TwinsAgree(a: ExternalState, b: ExternalState, calls: seq<Call>)
    requires Twins(a, b)
    ensures CallRun(a, calls).1 == CallRun(b, calls).1 && Twins(CallRun(a, calls).0, CallRun(b, calls).0)
    decreases |calls|
  {
    if calls != [] {
      var before := calls[..|calls| - 1];
      TwinsAgree(a, b, before);
      TwinStep(CallRun(a, before).0, CallRun(b, before).0, calls[|calls| - 1]);
    }
  }

  // ---- Telling the others apart ----

  lemma DeadlinePoll(s: ExternalState, answer: Progress)
    requires Live(s) && s.engine.phase != Done
    ensures CallRun(s, [Poll(s.grant.lease.expiresAt, answer)]).1
         == Money(Settlement(s.grant, Accepted(Journalled(s.engine), answer).costMillisTotal))
  {
    RunOfOne(s, Poll(s.grant.lease.expiresAt, answer));
    PollOutcome(s, s.grant.lease.expiresAt, answer);
  }

  lemma DifferentBills(grant: Grant, c: u64, d: u64)
    requires Payout(grant, c) != Payout(grant, d)
    ensures Money(Settlement(grant, c)) != Money(Settlement(grant, d))
  {
    MoneyOfSettlement(grant, c);
    MoneyOfSettlement(grant, d);
  }

  /** A poll at the deadline shows a difference in what the two would bill after it. */
  lemma ShownAtTheDeadline(a: ExternalState, b: ExternalState, answer: Progress)
    requires Live(a) && Live(b) && a.grant == b.grant && a.engine.phase != Done && b.engine.phase != Done
    requires Payout(a.grant, Accepted(Journalled(a.engine), answer).costMillisTotal)
          != Payout(a.grant, Accepted(Journalled(b.engine), answer).costMillisTotal)
    ensures !SameOrders(a, b, [Poll(a.grant.lease.expiresAt, answer)])
  {
    DeadlinePoll(a, answer);
    DeadlinePoll(b, answer);
    DifferentBills(a.grant, Accepted(Journalled(a.engine), answer).costMillisTotal,
                   Accepted(Journalled(b.engine), answer).costMillisTotal);
  }

  lemma QuietFirst(s: ExternalState, first: Call, second: Call)
    requires CallStep(s, first).1 == []
    ensures CallRun(s, [first, second]).1 == CallRun(CallStep(s, first).0, [second]).1
  {
    assert [first, second][..1] == [first];
    RunOfOne(s, first);
    RunOfOne(CallStep(s, first).0, second);
  }

  /** When only the costs differ, an early sample of the lower cost that is ahead in some other total is taken by one
      driver alone, and keeps that one from taking a dearer sample at the deadline. */
  lemma ShownByTwoPolls(a: ExternalState, b: ExternalState) returns (calls: seq<Call>)
    requires Live(a) && Live(b) && a.grant == b.grant && a.engine.phase != Done && b.engine.phase != Done
    requires var p, q := Journalled(a.engine), Journalled(b.engine);
             && p.unitsTotal == q.unitsTotal && p.secondsTotal == q.secondsTotal && p.costMillisTotal < q.costMillisTotal
             && Payout(a.grant, p.costMillisTotal) < Payout(a.grant, U64_MAX)
             && (p.unitsTotal < U64_MAX || p.secondsTotal < U64_MAX)
    requires 0 < a.grant.lease.expiresAt
    ensures !SameOrders(a, b, calls) && !SameOrders(b, a, calls)
  {
    var p := Journalled(a.engine);
    var early := if p.unitsTotal < U64_MAX then p.(unitsTotal := p.unitsTotal + 1) else p.(secondsTotal := p.secondsTotal + 1);
    var dear := p.(costMillisTotal := U64_MAX);
    var first, second := Poll(0, early), Poll(a.grant.lease.expiresAt, dear);
    PollOutcome(a, 0, early);
    PollOutcome(b, 0, early);
    CallPays(a, first);
    CallPays(b, first);
    var a1, b1 := CallStep(a, first).0, CallStep(b, first).0;
    assert Accepted(Journalled(a1.engine), dear) == early;
    assert Accepted(Journalled(b1.engine), dear) == dear;
    ShownAtTheDeadline(a1, b1, dear);
    QuietFirst(a, first, second);
    QuietFirst(b, first, second);
    calls := [first, second];
  }

  lemma NotAsGoodShows(a: ExternalState, b: ExternalState) returns (calls: seq<Call>)
    requires Live(a) && Live(b) && a.grant == b.grant && a.engine.phase != Done && b.engine.phase != Done
    requires !AsGood(a.grant, Journalled(a.engine), Journalled(b.engine))
    ensures !SameOrders(a, b, calls)
  {
    var p, q, deadline := Journalled(a.engine), Journalled(b.engine), a.grant.lease.expiresAt;
    PayoutMonotone(a.grant, p.costMillisTotal, U64_MAX);
    if Payout(a.grant, p.costMillisTotal) != Payout(a.grant, q.costMillisTotal) {
      calls := [Poll(deadline, NO_PROGRESS)];
      ShownAtTheDeadline(a, b, NO_PROGRESS);
    } else if p.unitsTotal == q.unitsTotal && p.secondsTotal == q.secondsTotal {
      if p.costMillisTotal < q.costMillisTotal {
        calls := ShownByTwoPolls(a, b);
      } else {
        calls := ShownByTwoPolls(b, a);
      }
    } else {
      var behind := if q.unitsTotal <= p.unitsTotal && q.secondsTotal <= p.secondsTotal then q else p;
      var probe := behind.(costMillisTotal := U64_MAX);
      calls := [Poll(deadline, probe)];
      ShownAtTheDeadline(a, b, probe);
    }
  }

  // ---- The exact conditions ----

  /** A restart from any journal goes unnoticed if and only if the driver was still open and the journal is as good
      as the totals its engine had accepted. */
  lemma {:induction false} UnnoticedIff(s: ExternalState, journal: Progress, session: u64)
    requires Live(s)
    ensures Unnoticed(s, journal, session) <==> s.engine.phase != Done && AsGood(s.grant, journal, Journalled(s.engine))
  {
    var r := Rebuilt(s.grant, journal, session);
    if s.engine.phase == Done {
      var stop := StopAt(0, Receipt(0, 0));
      RunOfOne(r, stop);
      RunOfOne(s, stop);
      CallPays(r, stop);
      assert !SameOrders(r, s, [stop]);
    } else if AsGood(s.grant, journal, Journalled(s.engine)) {
      forall calls ensures SameOrders(r, s, calls) {
        TwinsAgree(r, s, calls);
      }
    } else {
      var calls := NotAsGoodShows(r, s);
      assert !SameOrders(r, s, calls);
    }
  }

  /** The driver's own journal takes every answer of the provider, its engine only those that are not behind. So after a
      poll before the deadline a restart goes unnoticed if and only if the answer was accepted, or is as good as what was. */
  lemma {:induction false} UnnoticedAfterPollIff(s: ExternalState, now: Millis, answer: Progress, session: u64)
    requires Live(s) && s.engine.phase != Done && now < s.grant.lease.expiresAt
    ensures var s' := CallStep(s, Poll(now, answer)).0;
            && Live(s') && s'.engine.phase != Done && s'.last == answer
            && (Unnoticed(s', s'.last, session)
                <==> Dominates(answer, Journalled(s.engine)) || AsGood(s.grant, answer, Journalled(s.engine)))
  {
    var s' := CallStep(s, Poll(now, answer)).0;
    PollOutcome(s, now, answer);
    CallPays(s, Poll(now, answer));
    UnnoticedIff(s', s'.last, session);
  }

  /** The same over whole runs from the opening of a driver: a restart from its journal goes unnoticed if and only if
      it was neither stopped nor polled at the deadline, and the last answer is as good as the totals accepted. */
  lemma {:induction false} UnnoticedOverRunsIff(grant: Grant, session: u64, start: Millis, calls: seq<Call>)
    ensures var s := CallRun(OpenedState(grant, session, start), calls).0;
            && Live(s)
            && (Unnoticed(s, s.last, session)
                <==> (forall i | 0 <= i < |calls| :: calls[i].Poll? && calls[i].now < grant.lease.expiresAt)
                     && AsGood(grant, s.last, Journalled(s.engine)))
  {
    var begun := OpenedState(grant, session, start);
    StaysLive(begun, calls);
    SettlesExactlyOnce(begun, calls);
    UnnoticedIff(CallRun(begun, calls).0, CallRun(begun, calls).0.last, session);
  }

  /** The engines alone, alarms included, agree on every future if and only if their totals do: a sharper test than
      the orders the host ever sees. */
  lemma {:induction false} EnginesAgreeIff(s: ExternalState)
    requires Armed(s) && Open(s.engine)
    ensures SameFuture(ResumeState(s.grant, s.last), s.engine) <==> SameTotals(s.last, Journalled(s.engine))
  {
    SameFutureIffSameTotals(ResumeState(s.grant, s.last), s.engine);
  }
}
