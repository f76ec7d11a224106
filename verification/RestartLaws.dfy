/** The bill of a charger driver that was restarted on the way, against the bill of one that was not. */
module RestartLaws {
  import opened Machine
  import opened Wrappers
  import opened Delivery
  import opened ChargerDriver
  import opened ChargerLaws
  import opened CrashLaws

  /** The same life had nothing crashed. */
  function OpsOf(lives: seq<Life>): seq<Op>
    decreases |lives|
  {
    if lives == [] then []
    else OpsOf(lives[..|lives| - 1]) + (if lives[|lives| - 1].Happens? then [lives[|lives| - 1].op] else [])
  }

  /** Every crash hits a driver that is open and has no stop waiting to be settled. */
  predicate Clean(s: DriverState, lives: seq<Life>)
    decreases |lives|
  {
    lives != [] ==>
      var before, life := lives[..|lives| - 1], lives[|lives| - 1];
      && Clean(s, before)
      && (life.Crash? ==> !IsDone(LifeRun(s, before).0) && LifeRun(s, before).0.pendingStop.None?)
  }

  function LastTick(start: Millis, lives: seq<Life>): Millis
    decreases |lives|
  {
    if lives == [] then start
    else if lives[|lives| - 1].Happens? && lives[|lives| - 1].op.TimerTick? then lives[|lives| - 1].op.at
    else LastTick(start, lives[..|lives| - 1])
  }

  /** Nothing happens more than `gap` milliseconds after the latest timer tick, and no restart is from a journal more
      than `lag` milliseconds older than that. */
  predicate Prompt(start: Millis, lives: seq<Life>, gap: nat, lag: nat)
    decreases |lives|
  {
    lives != [] ==>
      var before, life := lives[..|lives| - 1], lives[|lives| - 1];
      && Prompt(start, before, gap, lag)
      && (match life
          case Happens(op) => op.at <= LastTick(start, before) + gap
          case Crash(journal) => LastTick(start, before) <= journal.at + lag)
  }

  // ---- The meter of a restarted driver ----

  /** A meter with the instant it counts from. */
  datatype Dial = Dial(meter: Meter, ack: Millis)

  function DialStep(d: Dial, grant: Grant, price: PriceVector, life: Life): Dial {
    match life
    case Happens(op) => d.(meter := MeterStep(d.meter, grant, price, Some(d.ack), op))
    case Crash(journal) => Dial(Running(journal.at), SatSub(journal.at, WrapU64(journal.secondsTotal * 1000)))
  }

  function MeterOf(b: Beginning): Meter { MeterRun(b.start, b.grant, b.price, Some(b.ack), b.ops) }

  function DialAfter(b: Beginning, lives: seq<Life>): Dial
    decreases |lives|
  {
    if lives == [] then Dial(MeterOf(b), b.ack)
    else DialStep(DialAfter(b, lives[..|lives| - 1]), b.grant, b.price, lives[|lives| - 1])
  }

  /** A meter that runs has not used up its seconds; with a cap of zero it has not been read. */
  predicate BelowCap(grant: Grant, running: bool, seconds: int) {
    running && grant.caps.maxSeconds.Some? ==> seconds < Max(grant.caps.maxSeconds.value, 1)
  }

  /** The driver agrees with its dial. */
  predicate Shows(s: DriverState, d: Dial, now: Millis) {
    && Tracks(s, d.meter, Some(d.ack), now)
    && s.ackedAt == Some(d.ack) && JournalIsOwnReading(s) && s.last.at <= now
    && BelowCap(s.grant, d.meter.Running?, s.last.secondsTotal)
  }

  lemma RestartShows(s: DriverState, journal: Progress, acked: Millis, now: Millis)
    requires Armed(s) && ReadFrom(journal, s.price, acked) && journal.at <= now
    requires BelowCap(s.grant, true, journal.secondsTotal)
    ensures Shows(RestartedFrom(s, journal), DialStep(Dial(Running(0), 0), s.grant, s.price, Crash(journal)), now)
  {
    ResumeSlips(s, journal, acked);
  }

  lemma StepShows(s: DriverState, d: Dial, now: Millis, op: Op)
    requires Shows(s, d, now) && now <= op.at && !op.GrantAck?
    ensures var (s', out) := DriverStep(s, op);
            var d' := DialStep(d, s.grant, s.price, Happens(op));
            && Shows(s', d', op.at) && s'.grant == s.grant && s'.price == s.price
            && (if d'.meter.Billed? && !d.meter.Billed?
                then Pays(out, s.grant, Payout(s.grant, CostAt(Some(d'.ack), s.price, d'.meter.seen)))
                else PaysNothing(out))
  {
    TrackStep(s, d.meter, Some(d.ack), now, op);
    StepReadsTheClock(s, op);
  }

  lemma BeginningShows(b: Beginning)
    requires Counting(b)
    ensures Shows(Begun(b), Dial(MeterOf(b), b.ack), Latest(b.start, b.ops))
    ensures Begun(b).grant == b.grant && Begun(b).price == b.price
  {
    TrackRun(b.device, b.grant, b.price, b.start, Some(b.ack), b.ops);
    OpenedJournal(b.device, b.grant, b.price, b.start, b.ack, b.ops);
    if b.grant.caps.maxSeconds.Some? {
      RunningBelowCap(b.start, b.grant, b.price, Some(b.ack), b.ops);
      StartsAtOrBeforeAck(b.start, Some(b.ack), b.ops);
    }
  }

  lemma {:induction false} LifeShows(b: Beginning, lives: seq<Life>)
    requires Plausible(b, lives) && Clean(Begun(b), lives)
    ensures var (s, out) := LifeRun(Begun(b), lives);
            var m, d := MeterOf(b), DialAfter(b, lives);
            && Shows(s, d, Now(b, lives)) && s.grant == b.grant && s.price == b.price
            && (if d.meter.Billed? && !m.Billed? then Pays(out, b.grant, Payout(b.grant, CostAt(Some(d.ack), b.price, d.meter.seen)))
                else PaysNothing(out))
            && (m.Billed? ==> d == Dial(m, b.ack))
            && (d.meter.Running? ==> d.meter.seen <= LastTick(Begun(b).last.at, lives))
    decreases |lives|, 0
  {
    if lives == [] {
      BeginningShows(b);
    } else {
      var before, life := lives[..|lives| - 1], lives[|lives| - 1];
      LifeShows(b, before);
      var (s1, out1) := LifeRun(Begun(b), before);
      match life {
        case Happens(op) => StepShows(s1, DialAfter(b, before), Now(b, before), op);
        case Crash(journal) =>
          var acked := WhereItCounted(b, before, journal);
          JournalOfRunning(b, before, journal);
          RestartShows(s1, journal, acked, Now(b, before));
      }
      PaysConcat(out1, LiveOn(s1, life).1);
    }
  }

  /** What a driver that still runs had journalled before was below the cap too, and read no later than the latest tick. */
  lemma {:induction false} JournalOfRunning(b: Beginning, lives: seq<Life>, journal: Progress)
    requires Plausible(b, lives) && Clean(Begun(b), lives) && WasJournal(b, lives, journal)
    requires DialAfter(b, lives).meter.Running?
    ensures BelowCap(b.grant, true, journal.secondsTotal) && journal.at <= LastTick(Begun(b).last.at, lives)
    decreases |lives|, 1
  {
    if i :| 0 <= i <= |b.ops| && DriverRun(Opened(b), b.ops[..i]).0.last == journal && b.ack <= journal.at {
      RanBefore(b, lives, 0);
      assert lives[..0] == [];
      EarlierLife(b, lives, 0);
      MeterRanBefore(b, i);
      JournalOfRunningMeter(b, i);
      BeginningShows(b);
      TicksGrow(b, lives, 0);
    } else {
      var i :| 0 <= i <= |lives| && StateAfter(b, lives[..i]).last == journal;
      RanBefore(b, lives, i);
      EarlierLife(b, lives, i);
      LifeShows(b, lives[..i]);
      TicksGrow(b, lives, i);
    }
  }

  lemma {:induction false} TicksGrow(b: Beginning, lives: seq<Life>, i: nat)
    requires i <= |lives| && Plausible(b, lives)
    ensures LastTick(Begun(b).last.at, lives[..i]) <= LastTick(Begun(b).last.at, lives) <= Now(b, lives)
    decreases |lives|
  {
    if lives == [] {
      OpenedJournal(b.device, b.grant, b.price, b.start, b.ack, b.ops);
    } else if i == |lives| {
      assert lives[..i] == lives;
      TicksGrow(b, lives[..i - 1], i - 1);
      EarlierLife(b, lives, i - 1);
    } else {
      var before := lives[..|lives| - 1];
      TicksGrow(b, before, i);
      EarlierLife(b, lives, |lives| - 1);
      assert before[..i] == lives[..i];
    }
  }

  lemma JournalOfRunningMeter(b: Beginning, i: nat)
    requires Timeline(b.start, Some(b.ack), b.ops) && i <= |b.ops|
    requires MeterRun(b.start, b.grant, b.price, Some(b.ack), b.ops[..i]).Running?
    ensures var last, m := DriverRun(Opened(b), b.ops[..i]).0.last, MeterRun(b.start, b.grant, b.price, Some(b.ack), b.ops[..i]);
            BelowCap(b.grant, true, last.secondsTotal) && last.at == m.seen
  {
    EarlierTimeline(b.start, b.ack, b.ops, i);
    TrackRun(b.device, b.grant, b.price, b.start, Some(b.ack), b.ops[..i]);
    if b.grant.caps.maxSeconds.Some? {
      RunningBelowCap(b.start, b.grant, b.price, Some(b.ack), b.ops[..i]);
      StartsAtOrBeforeAck(b.start, Some(b.ack), b.ops[..i]);
    }
  }

  lemma {:induction false} MeterRanBefore(b: Beginning, i: nat)
    requires i <= |b.ops| && Timeline(b.start, Some(b.ack), b.ops) && MeterOf(b).Running?
    ensures var m := MeterRun(b.start, b.grant, b.price, Some(b.ack), b.ops[..i]); m.Running? && m.seen <= MeterOf(b).seen
    decreases |b.ops|
  {
    if i == |b.ops| {
      assert b.ops[..i] == b.ops;
    } else {
      TrackRun(b.device, b.grant, b.price, b.start, Some(b.ack), b.ops[..|b.ops| - 1]);
      MeterRanBefore(b.(ops := b.ops[..|b.ops| - 1]), i);
      assert b.ops[..|b.ops| - 1][..i] == b.ops[..i];
    }
  }

  /** In a clean life a meter that runs has always run. */
  lemma {:induction false} RanBefore(b: Beginning, lives: seq<Life>, i: nat)
    requires i <= |lives| && Plausible(b, lives) && Clean(Begun(b), lives)
    requires DialAfter(b, lives).meter.Running?
    ensures DialAfter(b, lives[..i]).meter.Running? && Clean(Begun(b), lives[..i])
    decreases |lives|, 0
  {
    if i == |lives| {
      assert lives[..i] == lives;
    } else {
      var before := lives[..|lives| - 1];
      if lives[|lives| - 1].Crash? {
        LifeShows(b, before);
      }
      RanBefore(b, before, i);
      assert before[..i] == lives[..i];
    }
  }

  // ---- The two meters side by side ----

  /** How far a driver behind by `late` milliseconds can run past a cap the other has met, in whole seconds. */
  function Overshoot(late: nat): nat { if late == 0 then 0 else (late - 1) / 1000 }

  /** The uninterrupted meter was stopped by a cap which the restarted one, being behind, passed later:
      by the money cap, or by the seconds cap and then by little. */
  predicate StoppedFirst(m0: Meter, d: Dial, ack: Millis, grant: Grant, price: PriceVector, late: nat) {
    && !m0.Running? && (d.meter.Billed? ==> m0.Billed?)
    && (|| Reaches(CostAt(Some(ack), price, m0.seen), grant.caps.maxCostMillis)
        || (Reaches(SecondsAt(Some(ack), m0.seen), grant.caps.maxSeconds)
            && var cap := grant.caps.maxSeconds.value;
               0 < cap && (!d.meter.Running? ==> SecondsAt(Some(d.ack), d.meter.seen) <= cap + Overshoot(late))))
  }

  predicate Alike(m0: Meter, m: Meter) {
    m.seen <= m0.seen && (m.Running? <==> m0.Running?) && (m.Frozen? <==> m0.Frozen?)
  }

  predicate Close(m0: Meter, d: Dial, ack: Millis, slip: nat, grant: Grant, price: PriceVector, gap: nat, lag: nat) {
    && ack <= d.ack <= ack + slip
    && (d.meter.Running? ==> d.ack <= d.meter.seen)
    && m0.seen <= d.meter.seen + lag
    && BelowCap(grant, d.meter.Running?, SecondsAt(Some(d.ack), d.meter.seen))
    && (Alike(m0, d.meter) || StoppedFirst(m0, d, ack, grant, price, gap + lag))
  }

  lemma CrashKeepsClose(m0: Meter, d: Dial, ack: Millis, slip: nat, grant: Grant, price: PriceVector, gap: nat, lag: nat,
                        journal: Progress, acked: Millis)
    requires Close(m0, d, ack, slip, grant, price, gap, lag) && d.meter.Running?
    requires ReadFrom(journal, price, acked) && ack <= acked <= ack + slip
    requires BelowCap(grant, true, journal.secondsTotal)
    requires m0.seen <= journal.at + lag && (m0.Running? ==> journal.at <= m0.seen)
    ensures Close(m0, DialStep(d, grant, price, Crash(journal)), ack, slip + 999, grant, price, gap, lag)
  {
    var d' := DialStep(d, grant, price, Crash(journal));
    assert journal.secondsTotal * 1000 == journal.at - acked - (journal.at - acked) % 1000;
    assert acked <= d'.ack <= acked + 999;
    assert SecondsAt(Some(d'.ack), journal.at) == journal.secondsTotal;
  }

  lemma StepKeepsClose(m0: Meter, d: Dial, ack: Millis, slip: nat, grant: Grant, price: PriceVector, gap: nat, lag: nat, op: Op)
    requires Close(m0, d, ack, slip, grant, price, gap, lag) && !op.GrantAck?
    requires d.meter.Running? ==> d.meter.seen <= op.at <= d.meter.seen + gap + lag && m0.seen <= op.at
    ensures Close(MeterStep(m0, grant, price, Some(ack), op), DialStep(d, grant, price, Happens(op)),
                  ack, slip, grant, price, gap, lag)
  {
    if d.meter.Running? {
      SlipCosts(ack, d.ack, slip, op.at);
      MulMonotone(SecondsAt(Some(d.ack), op.at), SecondsAt(Some(ack), op.at), price.perSecondMillis);
      OneGapMore(d.ack, d.meter.seen, op.at, gap + lag);
    }
  }

  lemma OneGapMore(ack: Millis, t: Millis, u: Millis, late: nat)
    requires ack <= t <= u <= t + late
    ensures SecondsAt(Some(ack), u) <= SecondsAt(Some(ack), t) + Overshoot(late) + 1
    ensures t == u ==> SecondsAt(Some(ack), u) == SecondsAt(Some(ack), t)
  {
  }

  lemma {:induction false} TimelineGoesOn(b: Beginning, lives: seq<Life>)
    requires Plausible(b, lives)
    ensures var ops := b.ops + OpsOf(lives);
            Timeline(b.start, Some(b.ack), ops) && AckSeen(ops) && Latest(b.start, ops) == Now(b, lives)
    decreases |lives|
  {
    if lives == [] {
      assert b.ops + OpsOf(lives) == b.ops;
    } else {
      var earlier, life := lives[..|lives| - 1], lives[|lives| - 1];
      TimelineGoesOn(b, earlier);
      var ops := b.ops + OpsOf(lives);
      if life.Happens? {
        assert ops[..|ops| - 1] == b.ops + OpsOf(earlier);
      } else {
        assert ops == b.ops + OpsOf(earlier);
      }
    }
  }

  function UninterruptedMeter(b: Beginning, lives: seq<Life>): Meter {
    MeterRun(b.start, b.grant, b.price, Some(b.ack), b.ops + OpsOf(lives))
  }

  /** A crash is invisible to the uninterrupted meter. */
  lemma MeterGoesOn(b: Beginning, lives: seq<Life>)
    ensures lives == [] ==> UninterruptedMeter(b, lives) == MeterOf(b)
    ensures lives != [] ==>
              var life, m0 := lives[|lives| - 1], UninterruptedMeter(b, lives[..|lives| - 1]);
              UninterruptedMeter(b, lives) == if life.Crash? then m0 else MeterStep(m0, b.grant, b.price, Some(b.ack), life.op)
  {
    var ops := b.ops + OpsOf(lives);
    if lives == [] {
      assert ops == b.ops;
    } else if lives[|lives| - 1].Crash? {
      assert ops == b.ops + OpsOf(lives[..|lives| - 1]);
    } else {
      assert ops[..|ops| - 1] == b.ops + OpsOf(lives[..|lives| - 1]);
    }
  }

  /** The restarted meter, as long as it runs, was last read at the latest tick or is at most `lag` behind it; the other,
      as long as that runs, was last read then. */
  lemma {:induction false} ReadAtLastTick(b: Beginning, lives: seq<Life>, gap: nat, lag: nat)
    requires Plausible(b, lives) && Clean(Begun(b), lives) && Prompt(Begun(b).last.at, lives, gap, lag)
    ensures var tick, m0, m := LastTick(Begun(b).last.at, lives), UninterruptedMeter(b, lives), DialAfter(b, lives).meter;
            && tick <= Now(b, lives)
            && (m0.Running? ==> m0.seen == tick)
            && (m.Running? ==> m0.seen <= tick <= m.seen + lag)
    decreases |lives|
  {
    MeterGoesOn(b, lives);
    if lives == [] {
      BeginningShows(b);
    } else {
      var before := lives[..|lives| - 1];
      ReadAtLastTick(b, before, gap, lag);
      if lives[|lives| - 1].Crash? {
        LifeShows(b, before);
      }
    }
  }

  lemma LifeKeepsClose(b: Beginning, lives: seq<Life>, gap: nat, lag: nat)
    requires lives != [] && Plausible(b, lives) && Clean(Begun(b), lives) && Prompt(Begun(b).last.at, lives, gap, lag)
    requires var before := lives[..|lives| - 1];
             Close(UninterruptedMeter(b, before), DialAfter(b, before), b.ack, 999 * Crashes(before), b.grant, b.price, gap, lag)
    ensures Close(UninterruptedMeter(b, lives), DialAfter(b, lives), b.ack, 999 * Crashes(lives), b.grant, b.price, gap, lag)
  {
    var before, life := lives[..|lives| - 1], lives[|lives| - 1];
    var m0, d := UninterruptedMeter(b, before), DialAfter(b, before);
    MeterGoesOn(b, lives);
    ReadAtLastTick(b, before, gap, lag);
    LifeShows(b, before);
    match life
    case Happens(op) =>
      StepKeepsClose(m0, d, b.ack, 999 * Crashes(before), b.grant, b.price, gap, lag, op);
    case Crash(journal) =>
      var acked := WhereItCounted(b, before, journal);
      JournalOfRunning(b, before, journal);
      CrashKeepsClose(m0, d, b.ack, 999 * Crashes(before), b.grant, b.price, gap, lag, journal, acked);
  }

  /** Crash or no crash, the two meters stay close. */
  lemma {:induction false} MetersStayClose(b: Beginning, lives: seq<Life>, gap: nat, lag: nat)
    requires Plausible(b, lives) && Clean(Begun(b), lives) && Prompt(Begun(b).last.at, lives, gap, lag)
    ensures Close(UninterruptedMeter(b, lives), DialAfter(b, lives), b.ack, 999 * Crashes(lives), b.grant, b.price, gap, lag)
    decreases |lives|
  {
    if lives == [] {
      MeterGoesOn(b, lives);
      BeginningShows(b);
    } else {
      MetersStayClose(b, lives[..|lives| - 1], gap, lag);
      LifeKeepsClose(b, lives, gap, lag);
    }
  }

  // ---- The two bills ----

  /** A payout grows no faster than the seconds it pays for. */
  lemma PayoutPerSecond(grant: Grant, x: u64, y: u64, more: nat, price: u64)
    requires x <= y + more
    ensures Payout(grant, SatMul(x, price)) <= Payout(grant, SatMul(y, price)) + more * price
  {
    MulMonotone(x, y + more, price);
    assert (y + more) * price == y * price + more * price;
    assert 0 <= more * price;
  }

  lemma BillsLittleLess(m0: Meter, d: Dial, ack: Millis, slip: nat, grant: Grant, price: PriceVector, gap: nat, lag: nat)
    requires Close(m0, d, ack, slip, grant, price, gap, lag)
    ensures Payout(grant, CostAt(Some(ack), price, m0.seen))
         <= Payout(grant, CostAt(Some(d.ack), price, d.meter.seen)) + Across(slip + lag) * price.perSecondMillis
  {
    PayoutPerSecond(grant, SecondsAt(Some(ack), m0.seen), SecondsAt(Some(d.ack), d.meter.seen),
                    Across(slip + lag), price.perSecondMillis);
  }

  lemma BillsLittleMore(m0: Meter, d: Dial, ack: Millis, slip: nat, grant: Grant, price: PriceVector, gap: nat, lag: nat)
    requires Close(m0, d, ack, slip, grant, price, gap, lag) && d.meter.Billed?
    ensures Payout(grant, CostAt(Some(d.ack), price, d.meter.seen))
         <= Payout(grant, CostAt(Some(ack), price, m0.seen)) + Overshoot(gap + lag) * price.perSecondMillis
  {
    var mine, full := SecondsAt(Some(d.ack), d.meter.seen), SecondsAt(Some(ack), m0.seen);
    MulMonotone(0, Overshoot(gap + lag), price.perSecondMillis);
    if Alike(m0, d.meter) || !Reaches(CostAt(Some(ack), price, m0.seen), grant.caps.maxCostMillis) {
      PayoutPerSecond(grant, mine, full, Overshoot(gap + lag), price.perSecondMillis);
    }
  }

  /** Everything the driver issued over its life, and over the same operations without the crashes. */
  function Issued(b: Beginning, lives: seq<Life>): seq<Outbound> {
    DriverRun(Opened(b), b.ops).1 + LifeRun(Begun(b), lives).1
  }

  function IssuedUninterrupted(b: Beginning, lives: seq<Life>): seq<Outbound> {
    DriverRun(Opened(b), b.ops + OpsOf(lives)).1
  }

  /** One settlement was made in each case, and these are what they burnt. */
  predicate Bills(b: Beginning, lives: seq<Life>, paid: u64, due: u64) {
    Pays(Issued(b, lives), b.grant, paid) && Pays(IssuedUninterrupted(b, lives), b.grant, due)
  }

  lemma MetersBill(b: Beginning, lives: seq<Life>)
    requires Plausible(b, lives) && Clean(Begun(b), lives)
    requires UninterruptedMeter(b, lives).Billed? && DialAfter(b, lives).meter.Billed?
    ensures var m0, d := UninterruptedMeter(b, lives), DialAfter(b, lives);
            Bills(b, lives, Payout(b.grant, CostAt(Some(d.ack), b.price, d.meter.seen)),
                  Payout(b.grant, CostAt(Some(b.ack), b.price, m0.seen)))
    ensures IsDone(DriverRun(Opened(b), b.ops + OpsOf(lives)).0)
  {
    EarlierLife(b, lives, 0);
    TrackRun(b.device, b.grant, b.price, b.start, Some(b.ack), b.ops);
    LifeShows(b, lives);
    PaysConcat(DriverRun(Opened(b), b.ops).1, LifeRun(Begun(b), lives).1);
    TimelineGoesOn(b, lives);
    TrackRun(b.device, b.grant, b.price, b.start, Some(b.ack), b.ops + OpsOf(lives));
  }

  /** Take any run to a moment when the journal is no older than the ack, and then any life in which every crash is
      clean. If it settles, the same operations without the crashes settle too. Its bill is lower by at most the price of
      the seconds that 999 milliseconds per crash and `lag` can make, and higher by at most that of the whole seconds
      short of `gap + lag`: not at all when no reading is ever more than a second old. */
  lemma {:induction false} RestartsBarelyMoveTheBill(b: Beginning, lives: seq<Life>, gap: nat, lag: nat)
    requires Plausible(b, lives) && Clean(Begun(b), lives) && Prompt(Begun(b).last.at, lives, gap, lag)
    requires IsDone(StateAfter(b, lives))
    ensures IsDone(DriverRun(Opened(b), b.ops + OpsOf(lives)).0)
    ensures exists paid: u64, due: u64 :: Bills(b, lives, paid, due)
              && due <= paid + Across(999 * Crashes(lives) + lag) * b.price.perSecondMillis
              && paid <= due + Overshoot(gap + lag) * b.price.perSecondMillis
  {
    LifeShows(b, lives);
    MetersStayClose(b, lives, gap, lag);
    var m0, d := UninterruptedMeter(b, lives), DialAfter(b, lives);
    BillsLittleLess(m0, d, b.ack, 999 * Crashes(lives), b.grant, b.price, gap, lag);
    BillsLittleMore(m0, d, b.ack, 999 * Crashes(lives), b.grant, b.price, gap, lag);
    MetersBill(b, lives);
  }
}
