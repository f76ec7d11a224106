/** What restarts can cost at most, they do cost: runs that reach the bounds of RestartLaws. */
module RestartBounds {
  import opened Machine
  import opened Wrappers
  import opened Delivery
  import opened ChargerDriver
  import opened ChargerLaws
  import opened CrashLaws
  import opened RestartLaws

  /** A milli-unit a second and no money cap, acknowledged at once. */
  function AckedAtOnce(maxSeconds: Option<u64>): Beginning {
    Beginning("", Grant(0, U64_MAX, Caps(None, maxSeconds, None), Lease(U64_MAX)), PriceVector(1), 0, 0, [GrantAck(0)])
  }

  /** A driver that has counted from time zero and not been read since. */
  predicate FromZero(b: Beginning, maxSeconds: Option<u64>) {
    && b.grant == Grant(0, U64_MAX, Caps(None, maxSeconds, None), Lease(U64_MAX)) && b.price == PriceVector(1) && b.ack == 0
    && Counting(b) && Begun(b).last.at == 0 && Latest(b.start, b.ops) == 0 && MeterOf(b) == Running(0)
  }

  lemma CountsFromZero(maxSeconds: Option<u64>)
    ensures FromZero(AckedAtOnce(maxSeconds), maxSeconds)
  {
    var b := AckedAtOnce(maxSeconds);
    assert b.ops[..0] == [];
    assert DriverRun(Opened(b), b.ops[..0]).0 == Opened(b);
  }

  /** A plausible, clean and prompt life, where its clock stands, and the two meters at its end. */
  predicate Stands(b: Beginning, lives: seq<Life>, gap: nat, crashes: nat, now: Millis, tick: Millis, d: Dial, m0: Meter) {
    && Clean(Begun(b), lives) && Prompt(Begun(b).last.at, lives, gap, 0)
    && Crashes(lives) == crashes && Now(b, lives) == now && LastTick(Begun(b).last.at, lives) == tick
    && DialAfter(b, lives) == d && UninterruptedMeter(b, lives) == m0
  }

  lemma BeginsToStand(b: Beginning, maxSeconds: Option<u64>, gap: nat)
    requires FromZero(b, maxSeconds)
    ensures Plausible(b, []) && Stands(b, [], gap, 0, 0, 0, Dial(Running(0), 0), Running(0))
  {
    MeterGoesOn(b, []);
  }

  /** One more operation, and what it does to the two meters. */
  lemma GoOn(b: Beginning, lives: seq<Life>, gap: nat, k: nat, now: Millis, tick: Millis, d: Dial, m0: Meter, op: Op)
    requires Plausible(b, lives) && Stands(b, lives, gap, k, now, tick, d, m0)
    requires !op.GrantAck? && now <= op.at <= tick + gap
    ensures Plausible(b, lives + [Happens(op)])
    ensures Stands(b, lives + [Happens(op)], gap, k, op.at, if op.TimerTick? then op.at else tick,
                   d.(meter := MeterStep(d.meter, b.grant, b.price, Some(d.ack), op)),
                   MeterStep(m0, b.grant, b.price, Some(b.ack), op))
  {
    var more := lives + [Happens(op)];
    assert more[..|more| - 1] == lives;
    MeterGoesOn(b, more);
  }

  /** A crash right after a tick that left the meter running, and a restart from that reading. */
  lemma CrashAfterTick(b: Beginning, lives: seq<Life>, gap: nat, k: nat, tick: Millis, d: Dial, m0: Meter)
    requires Plausible(b, lives) && Stands(b, lives, gap, k, tick, tick, d, m0) && d.meter == Running(tick)
    ensures var journal := Synthesized(Some(d.ack), b.price, tick);
            && Plausible(b, lives + [Crash(journal)])
            && Stands(b, lives + [Crash(journal)], gap, k + 1, tick, tick,
                      Dial(Running(tick), SatSub(tick, WrapU64(journal.secondsTotal * 1000))), m0)
  {
    var more := lives + [Crash(Synthesized(Some(d.ack), b.price, tick))];
    assert more[..|more| - 1] == lives;
    LifeShows(b, lives);
    assert lives[..|lives|] == lives;
    assert WasJournal(b, lives, StateAfter(b, lives).last);
    MeterGoesOn(b, more);
  }

  // ---- Downward ----

  /** `k` times over, a tick 999 milliseconds after the last restart and a crash. */
  function Slips(k: nat): seq<Life>
    requires 999 * (k + 1) < U64_MAX
  {
    if k == 0 then []
    else Slips(k - 1) + [Happens(TimerTick(999 * k))] + [Crash(Progress(0, 0, 0, 999 * k))]
  }

  lemma {:induction false} SlipsDropEverything(b: Beginning, k: nat)
    requires FromZero(b, None) && 999 * (k + 1) < U64_MAX
    ensures Plausible(b, Slips(k))
    ensures Stands(b, Slips(k), 999, k, 999 * k, 999 * k, Dial(Running(999 * k), 999 * k), Running(999 * k))
    decreases k
  {
    if k == 0 {
      BeginsToStand(b, None, 999);
    } else {
      SlipsDropEverything(b, k - 1);
      SlipOnce(b, Slips(k - 1), k);
    }
  }

  lemma SlipMeters(grant: Grant, price: PriceVector, k: nat)
    requires 1 <= k && 999 * k < U64_MAX && grant.caps == Caps(None, None, None) && grant.lease.expiresAt == U64_MAX
    ensures var t, u: Millis := 999 * (k - 1), 999 * k;
            && MeterStep(Running(t), grant, price, Some(t), TimerTick(u)) == Running(u)
            && MeterStep(Running(t), grant, price, Some(0), TimerTick(u)) == Running(u)
            && Synthesized(Some(t), price, u) == Progress(0, 0, 0, u)
  {
  }

  lemma SlipOnce(b: Beginning, lives: seq<Life>, k: nat)
    requires FromZero(b, None) && 1 <= k && 999 * (k + 1) < U64_MAX && Plausible(b, lives)
    requires Stands(b, lives, 999, k - 1, 999 * (k - 1), 999 * (k - 1), Dial(Running(999 * (k - 1)), 999 * (k - 1)),
                    Running(999 * (k - 1)))
    ensures var more := lives + [Happens(TimerTick(999 * k))] + [Crash(Progress(0, 0, 0, 999 * k))];
            && Plausible(b, more)
            && Stands(b, more, 999, k, 999 * k, 999 * k, Dial(Running(999 * k), 999 * k), Running(999 * k))
  {
    var t, u: Millis := 999 * (k - 1), 999 * k;
    GoOn(b, lives, 999, k - 1, t, t, Dial(Running(t), t), Running(t), TimerTick(u));
    SlipMeters(b.grant, b.price, k);
    CrashAfterTick(b, lives + [Happens(TimerTick(u))], 999, k - 1, u, Dial(Running(u), t), Running(u));
  }

  /** At a milli-unit a second, a clean and prompt life was billed `paid` and would have been billed `due`. */
  ghost predicate Billed(b: Beginning, lives: seq<Life>, gap: nat, crashes: nat, paid: int, due: int) {
    && b.price == PriceVector(1) && 0 <= paid <= U64_MAX && 0 <= due <= U64_MAX
    && Plausible(b, lives) && Clean(Begun(b), lives) && Prompt(Begun(b).last.at, lives, gap, 0)
    && Crashes(lives) == crashes && Bills(b, lives, paid, due)
  }

  ghost predicate LosesAll(b: Beginning, lives: seq<Life>, crashes: nat) {
    Billed(b, lives, 999, crashes, 0, Across(999 * crashes))
  }

  /** For every number of crashes that fits the clock there is a life, restarted each time from the latest journal, billed
      for no time at all while without the crashes it would have been billed for all the seconds that crashes can cost. */
  lemma {:induction false} LossIsAttained(k: nat)
    requires 999 * (k + 1) < U64_MAX
    ensures exists b, lives :: LosesAll(b, lives, k)
  {
    var b, t, u: Millis := AckedAtOnce(None), 999 * k, 999 * (k + 1);
    CountsFromZero(None);
    SlipsDropEverything(b, k);
    EndsBilled(b, Slips(k), 999, k, t, t, Dial(Running(t), t), Running(t), u);
    assert SecondsAt(Some(t), u) == 0 && SecondsAt(Some(0), u) == Across(999 * k);
    assert LosesAll(b, Slips(k) + [Happens(DeviceDone(u, []))], k);
  }

  /** The device ends, and both meters are billed. */
  lemma EndsBilled(b: Beginning, lives: seq<Life>, gap: nat, k: nat, now: Millis, tick: Millis, d: Dial, m0: Meter, at: Millis)
    requires Plausible(b, lives) && Stands(b, lives, gap, k, now, tick, d, m0) && now <= at <= tick + gap
    requires d.meter.Running? && !m0.Billed? && b.ack == 0 && b.price == PriceVector(1)
    requires b.grant.depositMillis == U64_MAX && b.grant.caps.maxCostMillis.None?
    ensures Billed(b, lives + [Happens(DeviceDone(at, []))], gap, k, SecondsAt(Some(d.ack), at),
                   SecondsAt(Some(0), if m0.Running? then at else m0.seen))
  {
    GoOn(b, lives, gap, k, now, tick, d, m0, DeviceDone(at, []));
    MetersBill(b, lives + [Happens(DeviceDone(at, []))]);
  }

  // ---- Upward ----

  /** A crash that costs a millisecond, and a tick at which the cap of one second is met by that millisecond alone. */
  function Straggler(): seq<Life> {
    [Happens(TimerTick(1)), Crash(Progress(0, 0, 0, 1)), Happens(TimerTick(1000))]
  }

  ghost predicate RunsOver(b: Beginning, lives: seq<Life>, gap: nat) {
    Billed(b, lives, gap, 1, 1 + Overshoot(gap), 1)
  }

  /** For every silence of a second or more that fits the clock there is a life with a single crash which is billed for all
      the seconds by which a restarted driver can run past its cap. */
  lemma {:induction false} OvershootIsAttained(gap: nat)
    requires 1000 <= gap && 1000 + gap < U64_MAX
    ensures exists b, lives :: RunsOver(b, lives, gap)
  {
    CountsFromZero(Some(1));
    StragglerRunsOver(AckedAtOnce(Some(1)), gap);
  }

  lemma StragglerRunsOver(b: Beginning, gap: nat)
    requires FromZero(b, Some(1)) && 1000 <= gap && 1000 + gap < U64_MAX
    ensures RunsOver(b, Straggler() + [Happens(DeviceDone(1000 + gap, []))], gap)
  {
    StragglerStands(b, gap);
    EndsBilled(b, Straggler(), gap, 1, 1000, 1000, Dial(Running(1000), 1), Frozen(1000), 1000 + gap);
    StragglerSeconds(gap);
  }

  lemma StragglerSeconds(gap: nat)
    requires 1000 <= gap && 1000 + gap < U64_MAX
    ensures SecondsAt(Some(1), 1000 + gap) == 1 + Overshoot(gap) && SecondsAt(Some(0), 1000) == 1
  {
  }

  lemma StragglerMeters(grant: Grant, price: PriceVector)
    requires grant.caps == Caps(None, Some(1), None) && grant.lease.expiresAt == U64_MAX
    ensures MeterStep(Running(0), grant, price, Some(0), TimerTick(1)) == Running(1)
    ensures Synthesized(Some(0), price, 1) == Progress(0, 0, 0, 1)
    ensures MeterStep(Running(1), grant, price, Some(1), TimerTick(1000)) == Running(1000)
    ensures MeterStep(Running(1), grant, price, Some(0), TimerTick(1000)) == Frozen(1000)
  {
  }

  lemma StragglerStands(b: Beginning, gap: nat)
    requires FromZero(b, Some(1)) && 1000 <= gap
    ensures Plausible(b, Straggler())
    ensures Stands(b, Straggler(), gap, 1, 1000, 1000, Dial(Running(1000), 1), Frozen(1000))
  {
    BeginsToStand(b, Some(1), gap);
    var ticked := [] + [Happens(TimerTick(1))];
    var crashed := ticked + [Crash(Progress(0, 0, 0, 1))];
    GoOn(b, [], gap, 0, 0, 0, Dial(Running(0), 0), Running(0), TimerTick(1));
    StragglerMeters(b.grant, b.price);
    CrashAfterTick(b, ticked, gap, 0, 1, Dial(Running(1), 0), Running(1));
    GoOn(b, crashed, gap, 1, 1, 1, Dial(Running(1), 1), Running(1), TimerTick(1000));
    assert Straggler() == crashed + [Happens(TimerTick(1000))];
  }
}
