/** What the charger driver loses, and does not lose, when it is restarted from its journal. */
module CrashLaws {
  import opened Machine
  import opened Wrappers
  import opened Delivery
  import opened ChargerDriver
  import opened ChargerLaws

  /** A driver's life: operations, and crashes after which it is rebuilt from a journal, not always the latest. */
  datatype Life = Happens(op: Op) | Crash(journal: Progress)

  function RestartedFrom(s: DriverState, journal: Progress): DriverState {
    ResumedState(s.device, s.grant, s.price, journal)
  }

  function Restarted(s: DriverState): DriverState { RestartedFrom(s, s.last) }

  function LiveOn(s: DriverState, life: Life): (DriverState, seq<Outbound>) {
    match life
    case Happens(op) => DriverStep(s, op)
    case Crash(journal) => (RestartedFrom(s, journal), [])
  }

  function LifeRun(s: DriverState, lives: seq<Life>): (DriverState, seq<Outbound>)
    decreases |lives|
  {
    if lives == [] then (s, [])
    else
      var (s1, out1) := LifeRun(s, lives[..|lives| - 1]);
      var (s2, out2) := LiveOn(s1, lives[|lives| - 1]);
      (s2, out1 + out2)
  }

  function Crashes(lives: seq<Life>): nat
    decreases |lives|
  {
    if lives == [] then 0 else Crashes(lives[..|lives| - 1]) + (if lives[|lives| - 1].Crash? then 1 else 0)
  }

  /** The latest timestamp of a life that began at `start`. */
  function LatestOf(start: Millis, lives: seq<Life>): Millis
    decreases |lives|
  {
    if lives == [] then start
    else if lives[|lives| - 1].Happens? then lives[|lives| - 1].op.at
    else LatestOf(start, lives[..|lives| - 1])
  }

  // ---- Seconds ----

  /** A reading by a clock that counts from `acked`, taken no earlier than that. */
  predicate ReadFrom(p: Progress, price: PriceVector, acked: Millis) {
    acked <= p.at && p == Synthesized(Some(acked), price, p.at)
  }

  /** The journal holds what the driver's own clock says. */
  predicate JournalIsOwnReading(s: DriverState) {
    s.ackedAt.Some? && ReadFrom(s.last, s.price, s.ackedAt.value)
  }

  /** After `crashes` restarts the baseline has slipped by less than a second for each. */
  predicate Slipped(s: DriverState, ack: Millis, crashes: nat) {
    JournalIsOwnReading(s) && ack <= s.ackedAt.value <= ack + 999 * crashes
  }

  lemma {:induction false} TranslationOnlyStops(s: DriverState, actions: seq<DeliveryAction>)
    ensures TranslatedAll(s, actions).0 == s.(pendingStop := TranslatedAll(s, actions).0.pendingStop)
    decreases |actions|
  {
    if actions != [] {
      TranslationOnlyStops(s, actions[..|actions| - 1]);
    }
  }

  /** Whatever happens, the journal stands or becomes the reading of that moment. */
  lemma StepReadsTheClock(s: DriverState, op: Op)
    requires !op.GrantAck?
    ensures var s' := DriverStep(s, op).0;
            && s'.ackedAt == s.ackedAt && s'.price == s.price && s'.grant == s.grant && s'.device == s.device
            && s'.last in {s.last, Synthesized(s.ackedAt, s.price, op.at)}
  {
    var s1 := s.(last := Synthesized(s.ackedAt, s.price, op.at));
    DispatchKeeps(if s.pendingStop.None? then s1 else s);
    DispatchKeeps(s1);
    DispatchKeeps(Dispatched(s1, ProgressObserved(s1.last)).0);
    DispatchKeeps(s.(pendingStop := None));
    DispatchKeeps(s.(pendingStop := Some(StopRevoked)));
  }

  lemma DispatchKeeps(s: DriverState)
    ensures forall event :: var s' := Dispatched(s, event).0;
              s' == s.(engine := s'.engine, pendingStop := s'.pendingStop)
  {
    forall event
      ensures var s' := Dispatched(s, event).0; s' == s.(engine := s'.engine, pendingStop := s'.pendingStop)
    {
      var (engine, actions) := EngineStep(s.engine, event);
      TranslationOnlyStops(s.(engine := engine), actions);
    }
  }

  /** Restarting moves the baseline forward by exactly the fraction of a second the journal dropped. */
  lemma ResumeSlips(s: DriverState, journal: Progress, acked: Millis)
    requires ReadFrom(journal, s.price, acked)
    ensures var r := RestartedFrom(s, journal);
            && r.ackedAt == Some(acked + (journal.at - acked) % 1000)
            && JournalIsOwnReading(r) && r.last == journal && r.price == s.price
  {
    assert journal.secondsTotal * 1000 == journal.at - acked - (journal.at - acked) % 1000;
    assert WrapU64(journal.secondsTotal * 1000) == journal.secondsTotal * 1000;
  }

  /** How a driver's life begins: opened at `start`, run through `ops`, its one ack at `ack`. */
  datatype Beginning = Beginning(device: string, grant: Grant, price: PriceVector, start: Millis, ack: Millis, ops: seq<Op>)

  function Opened(b: Beginning): DriverState { OpenState(b.device, b.grant, b.price, b.start) }

  function Begun(b: Beginning): DriverState { DriverRun(Opened(b), b.ops).0 }

  /** The ack has come, and the journal is no older than it. */
  predicate Counting(b: Beginning) {
    Timeline(b.start, Some(b.ack), b.ops) && AckSeen(b.ops) && b.ack <= Begun(b).last.at
  }

  function StateAfter(b: Beginning, lives: seq<Life>): DriverState { LifeRun(Begun(b), lives).0 }

  function Now(b: Beginning, lives: seq<Life>): Millis { LatestOf(Latest(b.start, b.ops), lives) }

  /** The host may have persisted the journal it restarts from at any earlier moment since the ack. */
  ghost predicate WasJournal(b: Beginning, lives: seq<Life>, journal: Progress) {
    || (exists i | 0 <= i <= |b.ops| :: DriverRun(Opened(b), b.ops[..i]).0.last == journal && b.ack <= journal.at)
    || (exists i | 0 <= i <= |lives| :: StateAfter(b, lives[..i]).last == journal)
  }

  /** A clock that never runs backwards, one ack, and every restart from a journal there has been. */
  ghost predicate Plausible(b: Beginning, lives: seq<Life>)
    decreases |lives|
  {
    if lives == [] then Counting(b)
    else
      var before, life := lives[..|lives| - 1], lives[|lives| - 1];
      && Plausible(b, before)
      && (match life
          case Happens(op) => !op.GrantAck? && Now(b, before) <= op.at
          case Crash(journal) => WasJournal(b, before, journal))
  }

  /** What is plausible was so at every earlier moment. */
  lemma {:induction false} EarlierLife(b: Beginning, lives: seq<Life>, i: nat)
    requires i <= |lives| && Plausible(b, lives)
    ensures Plausible(b, lives[..i])
    ensures Crashes(lives[..i]) <= Crashes(lives) && Now(b, lives[..i]) <= Now(b, lives)
    decreases |lives|
  {
    if i == |lives| {
      assert lives[..i] == lives;
    } else {
      EarlierLife(b, lives[..|lives| - 1], i);
      assert lives[..|lives| - 1][..i] == lives[..i];
    }
  }

  lemma {:induction false} EarlierTimeline(start: Millis, ack: Millis, ops: seq<Op>, i: nat)
    requires i <= |ops| && Timeline(start, Some(ack), ops)
    ensures Timeline(start, Some(ack), ops[..i]) && Latest(start, ops[..i]) <= Latest(start, ops)
    decreases |ops|
  {
    if i == |ops| {
      assert ops[..i] == ops;
    } else {
      EarlierTimeline(start, ack, ops[..|ops| - 1], i);
      assert ops[..|ops| - 1][..i] == ops[..i];
    }
  }

  lemma {:induction false} BaselineSlips(b: Beginning, lives: seq<Life>)
    requires Plausible(b, lives)
    ensures var s := StateAfter(b, lives);
            Slipped(s, b.ack, Crashes(lives)) && s.last.at <= Now(b, lives) && s.price == b.price
    decreases |lives|, 0
  {
    if lives == [] {
      OpenedJournal(b.device, b.grant, b.price, b.start, b.ack, b.ops);
    } else {
      var before, life := lives[..|lives| - 1], lives[|lives| - 1];
      BaselineSlips(b, before);
      if life.Happens? {
        StepReadsTheClock(StateAfter(b, before), life.op);
      } else {
        var acked := WhereItCounted(b, before, life.journal);
        ResumeSlips(StateAfter(b, before), life.journal, acked);
      }
    }
  }

  /** Whichever earlier journal it is, it was read from a baseline that had slipped no further. */
  lemma {:induction false} WhereItCounted(b: Beginning, lives: seq<Life>, journal: Progress) returns (acked: Millis)
    requires Plausible(b, lives) && WasJournal(b, lives, journal)
    ensures b.ack <= acked <= b.ack + 999 * Crashes(lives) && ReadFrom(journal, b.price, acked)
    ensures journal.at <= Now(b, lives)
    decreases |lives|, 1
  {
    if i :| 0 <= i <= |b.ops| && DriverRun(Opened(b), b.ops[..i]).0.last == journal && b.ack <= journal.at {
      EarlierLife(b, lives, 0);
      EarlierTimeline(b.start, b.ack, b.ops, i);
      OpenedJournal(b.device, b.grant, b.price, b.start, b.ack, b.ops[..i]);
      acked := b.ack;
    } else {
      var i :| 0 <= i <= |lives| && StateAfter(b, lives[..i]).last == journal;
      EarlierLife(b, lives, i);
      BaselineSlips(b, lives[..i]);
      acked := StateAfter(b, lives[..i]).ackedAt.value;
    }
  }

  /** What an opened driver journals: always the reading relative to the ack, even before it arrives. */
  lemma {:induction false} OpenedJournal(device: string, grant: Grant, price: PriceVector, start: Millis,
                                         ack: Millis, ops: seq<Op>)
    requires Timeline(start, Some(ack), ops)
    ensures var s := DriverRun(OpenState(device, grant, price, start), ops).0;
            && s.ackedAt == (if AckSeen(ops) then Some(ack) else None)
            && s.grant == grant && s.price == price && s.device == device
            && s.last == Synthesized(Some(ack), price, s.last.at)
            && start <= s.last.at <= Latest(start, ops)
    decreases |ops|
  {
    if ops != [] {
      var before, op := ops[..|ops| - 1], ops[|ops| - 1];
      OpenedJournal(device, grant, price, start, ack, before);
      StartIsFirst(start, ack, before);
      var s := DriverRun(OpenState(device, grant, price, start), before).0;
      if !op.GrantAck? {
        StepReadsTheClock(s, op);
      }
    }
  }

  lemma {:induction false} StartIsFirst(start: Millis, ack: Millis, ops: seq<Op>)
    requires Timeline(start, Some(ack), ops)
    ensures start <= Latest(start, ops)
    decreases |ops|
  {
    if ops != [] {
      StartIsFirst(start, ack, ops[..|ops| - 1]);
    }
  }

  /** The whole seconds that `ms` milliseconds can make a difference of. */
  function Across(ms: nat): nat { (ms + 999) / 1000 }

  lemma SlipCosts(ack: Millis, acked: Millis, slip: nat, u: Millis)
    requires ack <= acked <= ack + slip
    ensures SecondsAt(Some(acked), u) <= SecondsAt(Some(ack), u) <= SecondsAt(Some(acked), u) + Across(slip)
  {
  }

  /** Take any run from the opening of the driver to a moment when its journal is no older than the ack, and then any
      sequence of operations and crashes, before and after settlement, each crash followed by a restart from any journal
      since the ack. At every later instant the synthesised seconds never exceed those counted from the ack, fall short
      of them by at most what 999 milliseconds per crash can make, and never drop below the journalled seconds. */
  lemma {:induction false} CrashesLoseAtMostASecondEach(b: Beginning, lives: seq<Life>, u: Millis)
    requires Plausible(b, lives) && Now(b, lives) <= u
    ensures var s := StateAfter(b, lives);
            && SecondsAt(s.ackedAt, u) <= SecondsAt(Some(b.ack), u)
            && SecondsAt(Some(b.ack), u) <= SecondsAt(s.ackedAt, u) + Across(999 * Crashes(lives))
            && Across(999 * Crashes(lives)) <= Crashes(lives)
            && s.last.secondsTotal <= SecondsAt(s.ackedAt, u)
  {
    BaselineSlips(b, lives);
    var s := StateAfter(b, lives);
    SlipCosts(b.ack, s.ackedAt.value, 999 * Crashes(lives), u);
    SecondsMonotone(s.ackedAt, s.price, s.last.at, u);
  }

  /** When a restart is safe: the rebuilt driver never counts ahead of the one that crashed if and only
      if the journalled reading was taken at or after the ack, or the clock ends within a second of it. */
  lemma ResumeNeverCountsAheadIff(s: DriverState)
    requires s.last == Synthesized(s.ackedAt, s.price, s.last.at)
    ensures (forall u: Millis | s.last.at <= u :: SecondsAt(Restarted(s).ackedAt, u) <= SecondsAt(s.ackedAt, u))
            <==> (s.ackedAt.Some? && s.ackedAt.value <= s.last.at) || U64_MAX < s.last.at + 1000
  {
    var r := Restarted(s);
    if s.ackedAt.Some? && s.ackedAt.value <= s.last.at {
      ResumeSlips(s, s.last, s.ackedAt.value);
    } else {
      assert r.ackedAt == Some(s.last.at);
      if s.last.at + 1000 <= U64_MAX {
        var u: Millis := s.last.at + 1000;
        assert SecondsAt(r.ackedAt, u) == 1 && SecondsAt(s.ackedAt, u) == 0;
      }
    }
  }

  /** Milliseconds from the journalled reading to the next whole second since the baseline. */
  function ToNextSecond(s: DriverState): nat {
    if s.ackedAt.Some? && s.ackedAt.value <= s.last.at then 1000 - (s.last.at - s.ackedAt.value) % 1000 else 1000
  }

  /** Until then two baselines less than a second apart, the later on a whole second of the reading, count alike. */
  lemma WithinTheSecond(acked: Millis, at: Millis, u: Millis)
    requires acked <= at <= u < at + 1000 - (at - acked) % 1000
    ensures (u - acked) / 1000 == (u - acked - (at - acked) % 1000) / 1000
  {
    var q, r := (at - acked) / 1000, (at - acked) % 1000;
    assert 1000 * q <= u - acked - r <= u - acked < 1000 * q + 1000;
  }

  lemma AtTheNextSecond(acked: Millis, at: Millis)
    requires acked <= at && 0 < (at - acked) % 1000
    ensures var u := at + 1000 - (at - acked) % 1000;
            (u - acked) / 1000 == (at - acked) / 1000 + 1 && (u - acked - (at - acked) % 1000) / 1000 == (at - acked) / 1000
  {
    var q, r := (at - acked) / 1000, (at - acked) % 1000;
    var u := at + 1000 - r;
    assert u - acked == 1000 * (q + 1);
    assert 1000 * q <= u - acked - r < 1000 * q + 1000;
  }

  /** When a restart changes no reading at all: if and only if the journal was read on a whole second since the
      ack, or the clock ends before the next one. A host can read this off its journal. */
  lemma ResumeCountsAlikeIff(s: DriverState)
    requires s.last == Synthesized(s.ackedAt, s.price, s.last.at)
    ensures (forall u: Millis | s.last.at <= u :: SecondsAt(Restarted(s).ackedAt, u) == SecondsAt(s.ackedAt, u))
            <==> (s.ackedAt.Some? && s.ackedAt.value <= s.last.at && ToNextSecond(s) == 1000)
                 || U64_MAX < s.last.at + ToNextSecond(s)
  {
    if s.ackedAt.Some? && s.ackedAt.value <= s.last.at {
      CountsAlikeSinceAckIff(s);
    } else {
      assert Restarted(s).ackedAt == Some(s.last.at);
      if s.last.at + 1000 <= U64_MAX {
        var u: Millis := s.last.at + 1000;
        assert SecondsAt(Restarted(s).ackedAt, u) == 1 && SecondsAt(s.ackedAt, u) == 0;
      }
    }
  }

  lemma CountsAlikeSinceAckIff(s: DriverState)
    requires JournalIsOwnReading(s)
    ensures (forall u: Millis | s.last.at <= u :: SecondsAt(Restarted(s).ackedAt, u) == SecondsAt(s.ackedAt, u))
            <==> ToNextSecond(s) == 1000 || U64_MAX < s.last.at + ToNextSecond(s)
  {
    var acked, at := s.ackedAt.value, s.last.at;
    ResumeSlips(s, s.last, acked);
    if U64_MAX < at + ToNextSecond(s) {
      forall u: Millis | at <= u ensures SecondsAt(Restarted(s).ackedAt, u) == SecondsAt(s.ackedAt, u) {
        WithinTheSecond(acked, at, u);
      }
    } else if ToNextSecond(s) < 1000 {
      AtTheNextSecond(acked, at);
      var u: Millis := at + ToNextSecond(s);
      assert SecondsAt(Restarted(s).ackedAt, u) != SecondsAt(s.ackedAt, u);
    }
  }

  /** The second lost otherwise: a device that ends on the next whole second is billed for it by the driver that carried
      on, and not by the one restarted. */
  lemma RestartLosesASecond(s: DriverState, raw: seq<u8>)
    requires Armed(s) && !IsDone(s) && s.pendingStop.None? && JournalIsOwnReading(s)
    requires ToNextSecond(s) < 1000 && s.last.at + ToNextSecond(s) <= U64_MAX
    ensures var (live, liveOut) := DriverStep(s, DeviceDone(s.last.at + ToNextSecond(s), raw));
            var (rebuilt, rebuiltOut) := DriverStep(Restarted(s), DeviceDone(s.last.at + ToNextSecond(s), raw));
            && live.last.secondsTotal == s.last.secondsTotal + 1
            && rebuilt.last.secondsTotal == s.last.secondsTotal
            && Pays(liveOut, s.grant, Payout(s.grant, SatMul(s.last.secondsTotal + 1, s.price.perSecondMillis)))
            && Pays(rebuiltOut, s.grant, Payout(s.grant, SatMul(s.last.secondsTotal, s.price.perSecondMillis)))
  {
    var r, at := Restarted(s), s.last.at + ToNextSecond(s);
    ResumeSlips(s, s.last, s.ackedAt.value);
    AtTheNextSecond(s.ackedAt.value, s.last.at);
    var live, rebuilt := s.(last := Synthesized(s.ackedAt, s.price, at)), r.(last := Synthesized(r.ackedAt, r.price, at));
    DispatchTerminal(live, TerminalOf(live, CapSeconds, at, Some(raw)));
    DispatchTerminal(rebuilt, TerminalOf(rebuilt, CapSeconds, at, Some(raw)));
  }

  // ---- How often a life settles ----

  /** Crashes that hit a driver which had already settled. */
  function RestartsOfSettled(s: DriverState, lives: seq<Life>): nat
    decreases |lives|
  {
    if lives == [] then 0
    else
      var before := lives[..|lives| - 1];
      RestartsOfSettled(s, before) + (if lives[|lives| - 1].Crash? && IsDone(LifeRun(s, before).0) then 1 else 0)
  }

  function Unsettled(s: DriverState): nat { if IsDone(s) then 0 else 1 }

  /** The exact count: every settlement closes a delivery that was open or had been reopened by
      restarting a settled driver, and each comes with one refund. */
  lemma {:induction false} SettlementsAcrossRestarts(s: DriverState, lives: seq<Life>)
    requires Armed(s)
    ensures var (s', out) := LifeRun(s, lives);
            && Armed(s')
            && |Settled(out)| + Unsettled(s') == RestartsOfSettled(s, lives) + Unsettled(s)
            && |Refunded(out)| == |Settled(out)|
    decreases |lives|
  {
    if lives != [] {
      var before, life := lives[..|lives| - 1], lives[|lives| - 1];
      SettlementsAcrossRestarts(s, before);
      var (s1, out1) := LifeRun(s, before);
      var (s2, out2) := LiveOn(s1, life);
      SettledConcat(out1, out2);
      RefundedConcat(out1, out2);
      PaidAmounts(out2);
      if life.Happens? {
        StepPays(s1, life.op);
      }
    }
  }

  /** Nothing that can happen later makes a life settle twice if and only if no crash so far hit a settled driver. */
  lemma {:induction false} SettlesOnceAcrossRestartsIff(s: DriverState, lives: seq<Life>)
    requires Armed(s) && !IsDone(s)
    ensures (forall ops :: |Settled(LifeRun(s, lives).1 + DriverRun(LifeRun(s, lives).0, ops).1)| <= 1)
            <==> RestartsOfSettled(s, lives) == 0
  {
    SettlementsAcrossRestarts(s, lives);
    var (s', out) := LifeRun(s, lives);
    if RestartsOfSettled(s, lives) == 0 {
      forall ops ensures |Settled(out + DriverRun(s', ops).1)| <= 1 {
        RunSettles(s', ops);
        SettledConcat(out, DriverRun(s', ops).1);
      }
    } else {
      var ops := [DeviceDone(0, [])];
      assert ops[..0] == [];
      RunSettles(s', ops);
      StepPays(s', ops[0]);
      SettledConcat(out, DriverRun(s', ops).1);
      assert |Settled(out + DriverRun(s', ops).1)| > 1;
    }
  }

  /** A run without restarts settles if it was open and no longer is. */
  lemma {:induction false} RunSettles(s: DriverState, ops: seq<Op>)
    requires Armed(s)
    ensures Armed(DriverRun(s, ops).0)
    ensures |Settled(DriverRun(s, ops).1)| + Unsettled(DriverRun(s, ops).0) == Unsettled(s)
    decreases |ops|
  {
    if ops != [] {
      var before := ops[..|ops| - 1];
      RunSettles(s, before);
      var (s1, out1) := DriverRun(s, before);
      StepPays(s1, ops[|ops| - 1]);
      PaidAmounts(DriverStep(s1, ops[|ops| - 1]).1);
      SettledConcat(out1, DriverStep(s1, ops[|ops| - 1]).1);
    }
  }

  /** What a host must read before it restarts: the crashed and the restarted driver together settle
      at most once, whatever follows, if and only if the crashed one had not settled. */
  lemma {:induction false} RestartSettlesOnceIff(s: DriverState, journal: Progress)
    ensures (forall ops :: |Settled(DriverRun(RestartedFrom(s, journal), ops).1)| + (if IsDone(s) then 1 else 0) <= 1)
            <==> !IsDone(s)
  {
    var r := RestartedFrom(s, journal);
    forall ops ensures |Settled(DriverRun(r, ops).1)| <= 1 {
      RunSettles(r, ops);
    }
    var ops := [DeviceDone(0, [])];
    assert ops[..0] == [];
    RunSettles(r, ops);
    StepPays(r, ops[0]);
    assert |Settled(DriverRun(r, ops).1)| == 1;
  }

  // ---- A forgotten stop ----

  /** A restarted driver settles on the same tick before the lease deadline as the one that crashed
      would have, if and only if no stop was waiting to be settled. */
  lemma RestartKeepsTheTickIff(s: DriverState, journal: Progress, at: Millis)
    requires Armed(s) && !IsDone(s) && at < s.grant.lease.expiresAt
    ensures (IsDone(Ticked(RestartedFrom(s, journal), at).0) <==> IsDone(Ticked(s, at).0)) <==> s.pendingStop.None?
  {
    TickBeforeTheLease(RestartedFrom(s, journal), at);
    TickBeforeTheLease(s, at);
  }

  lemma TickBeforeTheLease(s: DriverState, at: Millis)
    requires Armed(s) && !IsDone(s) && at < s.grant.lease.expiresAt
    ensures IsDone(Ticked(s, at).0) <==> s.pendingStop.Some?
  {
    if s.pendingStop.Some? {
      StepPays(s, TimerTick(at));
    } else {
      var observed := s.(last := Synthesized(s.ackedAt, s.price, at));
      DispatchProgress(observed, observed.last);
      DispatchTick(Dispatched(observed, ProgressObserved(observed.last)).0, at);
    }
  }

  /** What forgetting it costs: the next tick would have billed the reading frozen by the stop; after a
      restart nothing is frozen, and a tick past the lease deadline bills the time elapsed since the ack,
      less at most the one second of the restart, however long ago the stop was. */
  lemma ForgottenStopBillsOn(s: DriverState, at: Millis)
    requires Armed(s) && !IsDone(s) && s.pendingStop.Some?
    requires JournalIsOwnReading(s) && s.last.at <= at && s.grant.lease.expiresAt <= at
    ensures var r := Restarted(s);
            && Pays(Ticked(s, at).1, s.grant, Payout(s.grant, s.last.costMillisTotal))
            && Pays(Ticked(r, at).1, s.grant, Payout(s.grant, CostAt(r.ackedAt, s.price, at)))
            && SecondsAt(s.ackedAt, at) <= SecondsAt(r.ackedAt, at) + 1
  {
    var r := Restarted(s);
    ResumeSlips(s, s.last, s.ackedAt.value);
    DispatchTerminal(s.(pendingStop := None), TerminalOf(s, StopKind(s.pendingStop.value), s.last.at, None));
    SecondsMonotone(r.ackedAt, r.price, r.last.at, at);
    TickReads(r, at);
    SlipCosts(s.ackedAt.value, r.ackedAt.value, 999, at);
  }
}
