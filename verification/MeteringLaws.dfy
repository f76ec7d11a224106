/** One metering session: what is billed does not depend on when the meter was sampled, and
    the drift streak counts what it says. */
module MeteringLaws {
  import opened Machine
  import opened Wrappers
  import opened Pricing
  import opened Protocol
  import opened Session
  import opened SessionLaws

  /** What has been charged since the current baseline.
      `regressed` adds up every drop of the reconciled reading, `rateTime` is price times time in
      thousandths, `drifts` says of each sample whether the tallies differed by more than tolerated.
      `steady` records that the price has not changed and the clock has not run backwards, `samePolicy`
      that the policy has not changed, `exact` that no cost had to be saturated. */
  datatype Sitting = Sitting(samples: nat, units: nat, regressed: nat, peak: nat, time: int, rateTime: int,
                             money: nat, drifts: seq<bool>, warnings: nat, steady: bool, samePolicy: bool, exact: bool)

  const NEW_SITTING := Sitting(0, 0, 0, 0, 0, 0, 0, [], 0, true, true, true)

  predicate IsWarning(a: Action) { a.Send? && a.message == Reject(TransitLossToleranceExceeded) }

  function Warnings(actions: seq<Action>): nat
    decreases |actions|
  {
    if actions == [] then 0
    else Warnings(actions[..|actions| - 1]) + if IsWarning(actions[|actions| - 1]) then 1 else 0
  }

  /** The sitting after one more charged sample of `s`. */
  function Sampled(t: Sitting, s: PeerSession, price: Price, policy: MeteringPolicy, c: Counters, now: Millis,
                   actions: seq<Action>): Sitting
  {
    var elapsed := Since(now, s.lastMeterAt);
    Sitting(t.samples + 1,
            t.units + Max(Charged(s, price, policy, c, now).billedUnits - s.billedUnits, 0),
            t.regressed + SatSub(s.billedUnits, Billable(s, c)),
            Max(t.peak, Billable(s, c)),
            t.time + TimeCost(price, elapsed),
            t.rateTime + elapsed * price.perSecond,
            t.money + IntervalCharge(s, price, c, now),
            t.drifts + [OverTolerance(s, policy, c)],
            t.warnings + Warnings(actions),
            t.steady && s.lastMeterAt <= now,
            t.samePolicy,
            t.exact && InI64(TimeCost(price, elapsed) + UnitCost(price, NewUnits(s, c))))
  }

  function SittingOf(inputs: seq<Input>, peer: PeerId): Sitting
    decreases |inputs|
  {
    if inputs == [] then NEW_SITTING
    else
      var k := |inputs| - 1;
      var t, n, input := SittingOf(inputs[..k], peer), NodeRun(inputs[..k]).0, inputs[k];
      var o := Lookup(n.peers, peer);
      if input.SetPrice? then t.(steady := t.steady && input.price == n.price)
      else if input.SetPolicy? then t.(samePolicy := t.samePolicy && input.policy == n.policy)
      else if !Concerns(input, peer) || o.None? || !input.event.MeterSample? || o.value.phase != Active then t
      else if o.value.lastCounters.None? then NEW_SITTING
      else Sampled(t, o.value, n.price, n.policy, input.event.counters, input.now, NodeStep(n, input).1)
  }

  /** The number of trailing trues. */
  function Trailing(bs: seq<bool>): nat
    decreases |bs|
  {
    if bs == [] || !bs[|bs| - 1] then 0 else 1 + Trailing(bs[..|bs| - 1])
  }

  /** It is the length of the longest suffix that is all true. */
  lemma {:induction false} TrailingIsLongestSuffix(bs: seq<bool>, k: nat)
    requires k <= |bs|
    ensures Trailing(bs) <= |bs|
    ensures k <= Trailing(bs) <==> forall i | |bs| - k <= i < |bs| :: bs[i]
    decreases |bs|
  {
    if bs != [] {
      var n := |bs| - 1;
      TrailingIsLongestSuffix(bs[..n], if k == 0 then 0 else k - 1);
      if 0 < k {
        assert (forall i | |bs| - k <= i < |bs| :: bs[i])
               <==> bs[n] && forall i | n - (k - 1) <= i < n :: bs[..n][i];
      }
    }
  }

  function CountTrue(bs: seq<bool>): nat
    decreases |bs|
  {
    if bs == [] then 0 else CountTrue(bs[..|bs| - 1]) + if bs[|bs| - 1] then 1 else 0
  }

  // ---- Invariants of a metering session in progress ----

  /** Units charged are the reconciled reading plus every unit it ever fell back by. */
  predicate UnitsTelescope(t: Sitting, s: PeerSession) {
    t.units == s.billedUnits + t.regressed && t.peak <= t.units && s.billedUnits <= t.peak
  }

  /** Time charged is price times elapsed time, less at most 0.999 of a milli-unit per sample toward zero. */
  predicate TimeTelescopes(t: Sitting, s: PeerSession, price: Price) {
    t.steady ==>
      && s.meteringStart <= s.lastMeterAt
      && t.rateTime == (s.lastMeterAt - s.meteringStart) * price.perSecond
      && (0 <= price.perSecond ==> 1000 * t.time <= t.rateTime <= 1000 * t.time + 999 * t.samples)
      && (price.perSecond <= 0 ==> 1000 * t.time - 999 * t.samples <= t.rateTime <= 1000 * t.time)
  }

  /** With nonnegative prices and no saturation, money is time plus units at their price. */
  predicate MoneyAdds(t: Sitting, price: Price) {
    t.steady && t.exact && 0 <= price.perSecond && 0 <= price.perUnit
    ==> t.money == t.time + t.units * price.perUnit && 0 <= t.time
  }

  /** The streak counts the current run of over-tolerance samples, up to the counter's limit; under a policy that has not
      changed the run has not reached the policy's limit while the peer is active. */
  predicate StreakCounts(t: Sitting, s: PeerSession, policy: MeteringPolicy) {
    && (s.peerReport.None? ==> Trailing(t.drifts) == 0)
    && s.overToleranceStreak == Min(Trailing(t.drifts), U8_MAX)
    && (t.samePolicy && 1 <= policy.maxStreak ==>
          && Trailing(t.drifts) <= policy.maxStreak
          && (s.phase == Active ==> Trailing(t.drifts) < policy.maxStreak))
  }

  predicate InProgress(t: Sitting, s: PeerSession, price: Price, policy: MeteringPolicy) {
    && UnitsTelescope(t, s)
    && TimeTelescopes(t, s, price)
    && MoneyAdds(t, price)
    && StreakCounts(t, s, policy)
    && t.warnings == CountTrue(t.drifts)
    && |t.drifts| == t.samples
  }

  lemma TruncationLosesUnderOne(price: Price, elapsed: u64)
    ensures 0 <= price.perSecond ==> 0 <= elapsed * price.perSecond - 1000 * TimeCost(price, elapsed) <= 999
    ensures price.perSecond <= 0 ==> -999 <= elapsed * price.perSecond - 1000 * TimeCost(price, elapsed) <= 0
  {
    if 0 <= price.perSecond {
      assert 0 <= elapsed * price.perSecond;
    } else {
      assert elapsed * price.perSecond <= 0;
    }
  }

  lemma SampleTime(t: Sitting, s: PeerSession, price: Price, policy: MeteringPolicy, c: Counters, now: Millis,
                   actions: seq<Action>)
    requires TimeTelescopes(t, s, price)
    ensures TimeTelescopes(Sampled(t, s, price, policy, c, now, actions), Charged(s, price, policy, c, now), price)
  {
    if t.steady && s.lastMeterAt <= now {
      var a, b := s.lastMeterAt - s.meteringStart, now - s.lastMeterAt;
      assert (a + b) * price.perSecond == a * price.perSecond + b * price.perSecond;
      TruncationLosesUnderOne(price, b);
    }
  }

  lemma SampleMoney(t: Sitting, s: PeerSession, price: Price, policy: MeteringPolicy, c: Counters, now: Millis,
                    actions: seq<Action>)
    requires MoneyAdds(t, price)
    ensures MoneyAdds(Sampled(t, s, price, policy, c, now, actions), price)
  {
    var t' := Sampled(t, s, price, policy, c, now, actions);
    if t'.steady && t'.exact && 0 <= price.perSecond && 0 <= price.perUnit {
      var elapsed, units := Since(now, s.lastMeterAt), NewUnits(s, c);
      MulNonNegative(elapsed, price.perSecond);
      MulNonNegative(units, price.perUnit);
      CostExactIff(price, elapsed, units);
      assert (t.units + units) * price.perUnit == t.units * price.perUnit + units * price.perUnit;
    }
  }

  lemma SampleStreak(t: Sitting, s: PeerSession, price: Price, policy: MeteringPolicy, c: Counters, now: Millis,
                     actions: seq<Action>)
    requires StreakCounts(t, s, policy) && s.phase == Active
    ensures StreakCounts(Sampled(t, s, price, policy, c, now, actions), Charged(s, price, policy, c, now), policy)
  {
    var over := OverTolerance(s, policy, c);
    assert (t.drifts + [over])[..|t.drifts|] == t.drifts;
  }

  lemma WarningsConcat(a: seq<Action>, b: seq<Action>)
    ensures Warnings(a + b) == Warnings(a) + Warnings(b)
    decreases |b|
  {
    if b == [] {
      assert a + b == a;
    } else {
      WarningsConcat(a, b[..|b| - 1]);
      assert (a + b)[..|a + b| - 1] == a + b[..|b| - 1];
    }
  }

  lemma {:induction false} NoWarnings(actions: seq<Action>)
    requires forall a | a in actions :: !IsWarning(a)
    ensures Warnings(actions) == 0
    decreases |actions|
  {
    if actions != [] {
      NoWarnings(actions[..|actions| - 1]);
    }
  }

  /** A sample sends a transit-loss warning exactly when it is over tolerance. */
  lemma WarnsIffOver(peer: PeerId, s: PeerSession, price: Price, policy: MeteringPolicy, c: Counters, now: Millis)
    ensures Warnings(SampleActions(peer, s, price, policy, c, now)) == if OverTolerance(s, policy, c) then 1 else 0
  {
    var actions := SampleActions(peer, s, price, policy, c, now);
    if OverTolerance(s, policy, c) {
      var warning := [Send(peer, Reject(TransitLossToleranceExceeded))];
      assert actions == warning + actions[1..];
      WarningsConcat(warning, actions[1..]);
      NoWarnings(actions[1..]);
      assert warning[..0] == [];
    } else {
      NoWarnings(actions);
    }
  }

  lemma SampleKeeps(peer: PeerId, t: Sitting, s: PeerSession, price: Price, policy: MeteringPolicy, c: Counters, now: Millis)
    requires InProgress(t, s, price, policy) && IsCharged(s)
    ensures InProgress(Sampled(t, s, price, policy, c, now, SampleActions(peer, s, price, policy, c, now)),
                       Charged(s, price, policy, c, now), price, policy)
  {
    var actions := SampleActions(peer, s, price, policy, c, now);
    SampleTime(t, s, price, policy, c, now, actions);
    SampleMoney(t, s, price, policy, c, now, actions);
    SampleStreak(t, s, price, policy, c, now, actions);
    WarnsIffOver(peer, s, price, policy, c, now);
    var over := OverTolerance(s, policy, c);
    assert (t.drifts + [over])[..|t.drifts|] == t.drifts;
  }

  lemma TermsChangeKeeps(t: Sitting, s: PeerSession, price: Price, policy: MeteringPolicy, price': Price, policy': MeteringPolicy)
    requires InProgress(t, s, price, policy)
    ensures InProgress(t.(steady := t.steady && price' == price, samePolicy := t.samePolicy && policy' == policy), s, price', policy')
  {
  }

  lemma BaselineStarts(s: PeerSession, price: Price, policy: MeteringPolicy, c: Counters, now: Millis)
    requires s.phase == Active
    ensures InProgress(NEW_SITTING, WithBaseline(s, c, now), price, policy)
  {
  }

  /** Anything but a sample leaves a metering session as it is, or ends it. */
  lemma OtherEventKeeps(t: Sitting, s: PeerSession, price: Price, policy: MeteringPolicy, event: Event, now: Millis)
    requires !event.ClockTick? && (event.MeterSample? ==> s.phase != Active)
    requires s.lastCounters.Some? ==> InProgress(t, s, price, policy)
    ensures var o' := PeerStep(Some(s), price, policy, event, now).0;
            o'.Some? && o'.value.lastCounters.Some? ==> s.lastCounters.Some? && InProgress(t, o'.value, price, policy)
  {
    var o' := PeerStep(Some(s), price, policy, event, now).0;
    if o'.Some? && o'.value.lastCounters.Some? {
      assert o'.value.lastMeterAt == s.lastMeterAt && o'.value.meteringStart == s.meteringStart;
    }
  }

  lemma OnlyTrackedPeersHaveBaselines(price: Price, policy: MeteringPolicy, event: Event, now: Millis)
    requires !event.ClockTick?
    ensures var o' := PeerStep(None, price, policy, event, now).0; o'.Some? ==> o'.value.lastCounters.None?
  {
  }

  /** In every run, a peer whose metering session has a baseline satisfies all of the above. */
  lemma {:induction false} MeteringInvariant(inputs: seq<Input>, peer: PeerId)
    requires SessionOf(inputs, peer).Some? && SessionOf(inputs, peer).value.lastCounters.Some?
    ensures InProgress(SittingOf(inputs, peer), SessionOf(inputs, peer).value,
                       NodeRun(inputs).0.price, NodeRun(inputs).0.policy)
    decreases |inputs|
  {
    var k := |inputs| - 1;
    var before, input, n := inputs[..k], inputs[k], NodeRun(inputs[..k]).0;
    StepIsLocal(n, input, peer);
    var o, t := SessionOf(before, peer), SittingOf(before, peer);
    if !input.Deliver? {
      MeteringInvariant(before, peer);
      TermsChangeKeeps(t, o.value, n.price, n.policy, NodeStep(n, input).0.price, NodeStep(n, input).0.policy);
    } else if !Concerns(input, peer) {
      MeteringInvariant(before, peer);
    } else if input.event.MeterSample? && o.value.phase == Active {
      if o.value.lastCounters.Some? {
        MeteringInvariant(before, peer);
        SampleKeeps(peer, t, o.value, n.price, n.policy, input.event.counters, input.now);
      } else {
        BaselineStarts(o.value, n.price, n.policy, input.event.counters, input.now);
      }
    } else {
      OnlyTrackedPeersHaveBaselines(n.price, n.policy, input.event, input.now);
      if o.value.lastCounters.Some? {
        MeteringInvariant(before, peer);
      }
      OtherEventKeeps(t, o.value, n.price, n.policy, input.event, input.now);
    }
  }

  // ---- Interruptions ----

  /** The peer has not been continuously active since a sample was last taken of it. */
  predicate Interrupted(inputs: seq<Input>, peer: PeerId)
    decreases |inputs|
  {
    if inputs == [] then true
    else
      var before, input := inputs[..|inputs| - 1], inputs[|inputs| - 1];
      var o := SessionOf(before, peer);
      if Concerns(input, peer) && input.event.MeterSample? && o.Some? && o.value.phase == Active then false
      else
        || Interrupted(before, peer)
        || SessionOf(inputs, peer).None?
        || SessionOf(inputs, peer).value.phase != Active
  }

  /** A suspension, a pending verification, a rejection or a reconnect is never billed: whenever a sample
      would be charged, the peer has been active without a break since the previous sample. */
  lemma {:induction false} GapsAreNeverBilled(inputs: seq<Input>, peer: PeerId)
    requires SessionOf(inputs, peer).Some? && IsCharged(SessionOf(inputs, peer).value)
    ensures !Interrupted(inputs, peer)
    decreases |inputs|
  {
    var k := |inputs| - 1;
    var before, input, n := inputs[..k], inputs[k], NodeRun(inputs[..k]).0;
    StepIsLocal(n, input, peer);
    var o := SessionOf(before, peer);
    if o.Some? && IsCharged(o.value) {
      GapsAreNeverBilled(before, peer);
    } else if Concerns(input, peer) {
      OnlyTrackedPeersHaveBaselines(n.price, n.policy, input.event, input.now);
    }
  }

  // ---- Sampling schedules ----

  /** Units charged so far are at least the largest reading ever billable, and equal to the last one
      exactly when the reconciled reading never fell. */
  lemma {:induction false} UnitsChargedAreTheReading(inputs: seq<Input>, peer: PeerId)
    requires SessionOf(inputs, peer).Some? && SessionOf(inputs, peer).value.lastCounters.Some?
    ensures var t, s := SittingOf(inputs, peer), SessionOf(inputs, peer).value;
            t.peak <= t.units && (t.units == s.billedUnits <==> t.regressed == 0)
  {
    MeteringInvariant(inputs, peer);
  }

  /** The delivery counts sampled since the current baseline, that one included, the peer's reports since, and those of
      them that were in force at a charged sample. */
  datatype Tallies = Tallies(sampled: seq<u64>, reported: seq<u64>, inForce: seq<u64>)

  const NO_TALLIES := Tallies([], [], [])

  function SampledTallies(t: Tallies, c: Counters): Tallies {
    Tallies(t.sampled + [c.delivered], t.reported,
            if t.reported == [] then t.inForce else t.inForce + [t.reported[|t.reported| - 1]])
  }

  function NextTallies(t: Tallies, o: Option<PeerSession>, event: Event): Tallies {
    if o.None? then t
    else match event
      case MeterSample(_, c) =>
        if o.value.phase != Active then t
        else if o.value.lastCounters.None? then Tallies([c.delivered], [], [])
        else SampledTallies(t, c)
      case MessageReceived(_, message) =>
        if message.MeteringReport? then t.(reported := t.reported + [message.received]) else t
      case PeerConnected(_) => t
      case PeerDisconnected(_) => t
      case BootstrapVerified(_, _, _) => t
      case ClockTick => t
  }

  function TalliesOf(inputs: seq<Input>, peer: PeerId): Tallies
    decreases |inputs|
  {
    if inputs == [] then NO_TALLIES
    else
      var k := |inputs| - 1;
      var t := TalliesOf(inputs[..k], peer);
      if Concerns(inputs[k], peer) then NextTallies(t, SessionOf(inputs[..k], peer), inputs[k].event) else t
  }

  predicate Rising(xs: seq<u64>) { forall i | 0 < i < |xs| :: xs[i - 1] <= xs[i] }

  lemma RisingPrefix(xs: seq<u64>, x: u64)
    requires Rising(xs + [x])
    ensures Rising(xs) && (xs != [] ==> xs[|xs| - 1] <= x)
  {
    var ys := xs + [x];
    assert forall i | 0 <= i < |xs| :: ys[i] == xs[i];
    assert xs != [] ==> ys[|xs| - 1] <= ys[|xs|];
  }

  /** The session remembers the last of each tally, and has not been billed beyond what they amount to. */
  predicate TalliesFit(s: PeerSession, t: Tallies)
    requires s.lastCounters.Some?
  {
    && t.sampled != [] && s.lastCounters.value.delivered == t.sampled[|t.sampled| - 1]
    && (s.peerReport.None? <==> t.reported == [])
    && (s.peerReport.Some? ==> s.peerReport.value.received == t.reported[|t.reported| - 1])
    && (Rising(t.sampled) && Rising(t.reported) ==> s.billedUnits <= Billable(s, s.lastCounters.value))
  }

  /** Every tally there has been is within what was charged. */
  predicate TalliesCovered(baseline: u64, t: Tallies, units: nat) {
    && t.sampled != [] && t.sampled[0] == baseline
    && (forall x | x in t.sampled :: x - baseline <= units)
    && (forall r | r in t.inForce :: r <= units)
  }

  /** What the tallies of a session with a baseline say of it and of what it was charged. */
  predicate TalliesHold(s: PeerSession, t: Tallies, m: Sitting) {
    && s.lastCounters.Some?
    && TalliesFit(s, t)
    && TalliesCovered(s.meteringBaseline.delivered, t, m.units)
    && (Rising(t.sampled) && Rising(t.reported) ==> m.regressed == 0)
    && UnitsTelescope(m, s)
  }

  lemma SampleFits(s: PeerSession, t: Tallies, m: Sitting, price: Price, policy: MeteringPolicy, c: Counters, now: Millis)
    requires IsCharged(s) && TalliesHold(s, t, m)
    ensures TalliesFit(Charged(s, price, policy, c, now), SampledTallies(t, c))
    ensures var t' := SampledTallies(t, c);
            Rising(t'.sampled) && Rising(t'.reported) ==> m.regressed == 0 && s.billedUnits <= Billable(s, c)
  {
    if Rising(t.sampled + [c.delivered]) {
      RisingPrefix(t.sampled, c.delivered);
    }
  }

  lemma SampleCovers(s: PeerSession, t: Tallies, m: Sitting, price: Price, policy: MeteringPolicy, c: Counters, now: Millis,
                     actions: seq<Action>)
    requires IsCharged(s) && TalliesHold(s, t, m)
    ensures TalliesCovered(s.meteringBaseline.delivered, SampledTallies(t, c), Sampled(m, s, price, policy, c, now, actions).units)
  {
    var m' := Sampled(m, s, price, policy, c, now, actions);
    assert m.units <= m'.units && Billable(s, c) <= m'.units;
    assert t.reported != [] ==> t.reported[|t.reported| - 1] <= Billable(s, c);
    assert c.delivered - s.meteringBaseline.delivered <= Billable(s, c);
  }

  lemma TalliesAfterSample(s: PeerSession, t: Tallies, m: Sitting, price: Price, policy: MeteringPolicy, c: Counters, now: Millis,
                           actions: seq<Action>)
    requires IsCharged(s) && TalliesHold(s, t, m)
    ensures TalliesHold(Charged(s, price, policy, c, now), SampledTallies(t, c), Sampled(m, s, price, policy, c, now, actions))
  {
    SampleFits(s, t, m, price, policy, c, now);
    SampleCovers(s, t, m, price, policy, c, now, actions);
  }

  /** Any other event of a session with a baseline ends the metering session, or keeps it with one report more at most. */
  lemma TalliesAfterOther(s: PeerSession, t: Tallies, m: Sitting, price: Price, policy: MeteringPolicy, event: Event, now: Millis)
    requires !event.ClockTick? && (event.MeterSample? ==> s.phase != Active) && TalliesHold(s, t, m)
    ensures var o' := PeerStep(Some(s), price, policy, event, now).0;
            o'.Some? && o'.value.lastCounters.Some? ==> TalliesHold(o'.value, NextTallies(t, Some(s), event), m)
  {
    if event.MessageReceived? && event.message.MeteringReport? && Rising(t.reported + [event.message.received]) {
      RisingPrefix(t.reported, event.message.received);
    }
  }

  /** How session, tallies and charges follow from the history one input shorter. */
  lemma OneInput(inputs: seq<Input>, peer: PeerId)
    requires inputs != []
    ensures var k := |inputs| - 1;
            var before, input, n := inputs[..k], inputs[k], NodeRun(inputs[..k]).0;
            var o, m := SessionOf(before, peer), SittingOf(before, peer);
            && SessionOf(inputs, peer) == (if Concerns(input, peer) then PeerStep(o, n.price, n.policy, input.event, input.now).0 else o)
            && (!Concerns(input, peer) || o.None? || !input.event.MeterSample? || o.value.phase != Active ==>
                  SittingOf(inputs, peer) == m.(steady := SittingOf(inputs, peer).steady, samePolicy := SittingOf(inputs, peer).samePolicy))
            && (Concerns(input, peer) && o.Some? && input.event.MeterSample? && o.value.phase == Active ==>
                  SittingOf(inputs, peer) == if o.value.lastCounters.None? then NEW_SITTING
                    else Sampled(m, o.value, n.price, n.policy, input.event.counters, input.now, NodeStep(n, input).1))
  {
    StepIsLocal(NodeRun(inputs[..|inputs| - 1]).0, inputs[|inputs| - 1], peer);
  }

  lemma {:induction false} TalliesAlwaysHold(inputs: seq<Input>, peer: PeerId)
    requires SessionOf(inputs, peer).Some? && SessionOf(inputs, peer).value.lastCounters.Some?
    ensures TalliesHold(SessionOf(inputs, peer).value, TalliesOf(inputs, peer), SittingOf(inputs, peer))
    decreases |inputs|
  {
    var k := |inputs| - 1;
    var before, input, n := inputs[..k], inputs[k], NodeRun(inputs[..k]).0;
    var o, t, m := SessionOf(before, peer), TalliesOf(before, peer), SittingOf(before, peer);
    OneInput(inputs, peer);
    if o.Some? && o.value.lastCounters.Some? {
      TalliesAlwaysHold(before, peer);
      if Concerns(input, peer) {
        if input.event.MeterSample? && o.value.phase == Active {
          TalliesAfterSample(o.value, t, m, n.price, n.policy, input.event.counters, input.now, NodeStep(n, input).1);
        } else {
          TalliesAfterOther(o.value, t, m, n.price, n.policy, input.event, input.now);
        }
      }
    } else {
      OnlyTrackedPeersHaveBaselines(n.price, n.policy, input.event, input.now);
    }
  }

  /** When neither our counter nor the peer's reports have fallen since the baseline, the reconciled reading has not
      either, so the units charged are exactly that reading. */
  lemma {:induction false} RisingTalliesNeverRegress(inputs: seq<Input>, peer: PeerId)
    requires SessionOf(inputs, peer).Some? && SessionOf(inputs, peer).value.lastCounters.Some?
    ensures TalliesFit(SessionOf(inputs, peer).value, TalliesOf(inputs, peer))
    ensures Rising(TalliesOf(inputs, peer).sampled) && Rising(TalliesOf(inputs, peer).reported)
            ==> SittingOf(inputs, peer).regressed == 0
  {
    TalliesAlwaysHold(inputs, peer);
  }

  /** Units charged in a metering session are never fewer than any count of ours less the baseline, nor than any report of
      the peer's that was in force at a charged sample: the peer always pays for the higher tally. */
  lemma {:induction false} EveryTallyIsCharged(inputs: seq<Input>, peer: PeerId)
    requires SessionOf(inputs, peer).Some? && SessionOf(inputs, peer).value.lastCounters.Some?
    ensures TalliesOf(inputs, peer).sampled != []
    ensures forall x | x in TalliesOf(inputs, peer).sampled :: x - TalliesOf(inputs, peer).sampled[0] <= SittingOf(inputs, peer).units
    ensures forall r | r in TalliesOf(inputs, peer).inForce :: r <= SittingOf(inputs, peer).units
  {
    TalliesAlwaysHold(inputs, peer);
  }

  /** Two metering sessions may be compared: same price throughout, same duration, same final reading. */
  predicate Comparable(inputs: seq<Input>, peer: PeerId, inputs': seq<Input>, peer': PeerId) {
    var t, t' := SittingOf(inputs, peer), SittingOf(inputs', peer');
    var o, o' := SessionOf(inputs, peer), SessionOf(inputs', peer');
    && o.Some? && o'.Some? && o.value.lastCounters.Some? && o'.value.lastCounters.Some?
    && t.steady && t'.steady && NodeRun(inputs).0.price == NodeRun(inputs').0.price
    && o.value.billedUnits == o'.value.billedUnits
    && o.value.lastMeterAt - o.value.meteringStart == o'.value.lastMeterAt - o'.value.meteringStart
  }

  /** They charge the same units, and times that differ by less than the number of samples; with
      nonnegative prices and nothing saturated the money charged differs by less than that too. */
  predicate ChargeAlike(t: Sitting, t': Sitting, price: Price) {
    var most := Max(Max(t.samples, t'.samples), 1);
    && t.units == t'.units
    && AbsDiff(t.time, t'.time) < most
    && (t.exact && t'.exact && 0 <= price.perSecond && 0 <= price.perUnit ==> AbsDiff(t.money, t'.money) < most)
  }

  /** However differently two sessions were sampled, they charge alike when the counters and the
      reports of neither ever fell. */
  lemma {:induction false} SamplingScheduleIndependence(inputs: seq<Input>, peer: PeerId, inputs': seq<Input>, peer': PeerId)
    requires Comparable(inputs, peer, inputs', peer')
    requires Rising(TalliesOf(inputs, peer).sampled) && Rising(TalliesOf(inputs, peer).reported)
    requires Rising(TalliesOf(inputs', peer').sampled) && Rising(TalliesOf(inputs', peer').reported)
    ensures ChargeAlike(SittingOf(inputs, peer), SittingOf(inputs', peer'), NodeRun(inputs).0.price)
  {
    RisingTalliesNeverRegress(inputs, peer);
    RisingTalliesNeverRegress(inputs', peer');
    SchedulesWithoutRegress(inputs, peer, inputs', peer');
  }

  /** It is enough that the reconciled reading never fell, whatever the two tallies did. */
  lemma {:induction false} SchedulesWithoutRegress(inputs: seq<Input>, peer: PeerId, inputs': seq<Input>, peer': PeerId)
    requires Comparable(inputs, peer, inputs', peer')
    requires SittingOf(inputs, peer).regressed == 0 && SittingOf(inputs', peer').regressed == 0
    ensures ChargeAlike(SittingOf(inputs, peer), SittingOf(inputs', peer'), NodeRun(inputs).0.price)
  {
    MeteringInvariant(inputs, peer);
    MeteringInvariant(inputs', peer');
    SittingsAgree(SittingOf(inputs, peer), SessionOf(inputs, peer).value, NodeRun(inputs).0.policy,
                  SittingOf(inputs', peer'), SessionOf(inputs', peer').value, NodeRun(inputs').0.policy,
                  NodeRun(inputs).0.price);
  }

  lemma SittingsAgree(t: Sitting, s: PeerSession, policy: MeteringPolicy,
                      t': Sitting, s': PeerSession, policy': MeteringPolicy, price: Price)
    requires InProgress(t, s, price, policy) && InProgress(t', s', price, policy')
    requires t.steady && t'.steady && t.regressed == 0 && t'.regressed == 0 && s.billedUnits == s'.billedUnits
    requires s.lastMeterAt - s.meteringStart == s'.lastMeterAt - s'.meteringStart
    ensures ChargeAlike(t, t', price)
  {
    SameBand(t.rateTime, t.time, t.samples, t'.time, t'.samples, 0 <= price.perSecond);
  }

  /** Two roundings of one total lie less than the larger number of roundings apart. */
  lemma SameBand(total: int, a: int, n: nat, b: int, m: nat, down: bool)
    requires down ==> 1000 * a <= total <= 1000 * a + 999 * n && 1000 * b <= total <= 1000 * b + 999 * m
    requires !down ==> 1000 * a - 999 * n <= total <= 1000 * a && 1000 * b - 999 * m <= total <= 1000 * b
    ensures AbsDiff(a, b) < Max(Max(n, m), 1)
  {
  }

  // ---- Drift ----

  /** At any charged sample: the peer is warned exactly when the sample is over tolerance, and it is cut for drift exactly
      when the run of over-tolerance samples it ends has reached the limit; the streak counter is never wrong about that.
      Under a policy unchanged since the baseline, with a positive limit, the cut comes on exactly the sample that
      completes a run of that length. */
  lemma {:induction false} DriftMeaning(inputs: seq<Input>, peer: PeerId, c: Counters, now: Millis)
    requires SessionOf(inputs, peer).Some? && IsCharged(SessionOf(inputs, peer).value)
    ensures var s, n := SessionOf(inputs, peer).value, NodeRun(inputs).0;
            var over := OverTolerance(s, n.policy, c);
            var run := Trailing(SittingOf(inputs, peer).drifts + [over]);
            var (n', actions) := NodeStep(n, Deliver(MeterSample(peer, c), now));
            && Warnings(actions) == (if over then 1 else 0)
            && peer in n'.peers
            && n'.peers[peer].overToleranceStreak == Min(run, U8_MAX)
            && (n'.peers[peer].phase == Suspended <==> Exhausts(s, n.price, c, now) || n.policy.maxStreak <= run)
            && (SittingOf(inputs, peer).samePolicy && 1 <= n.policy.maxStreak ==> run <= n.policy.maxStreak)
            && (Send(peer, Reject(BalanceVerificationFailed)) in actions <==> Exhausts(s, n.price, c, now))
  {
    MeteringInvariant(inputs, peer);
    var n := NodeRun(inputs).0;
    DriftOfSample(peer, SittingOf(inputs, peer), SessionOf(inputs, peer).value, n.price, n.policy, c, now);
  }

  lemma DriftOfSample(peer: PeerId, t: Sitting, s: PeerSession, price: Price, policy: MeteringPolicy, c: Counters, now: Millis)
    requires InProgress(t, s, price, policy) && IsCharged(s)
    ensures var over := OverTolerance(s, policy, c);
            var run, s', actions := Trailing(t.drifts + [over]), Charged(s, price, policy, c, now),
                                    SampleActions(peer, s, price, policy, c, now);
            && Warnings(actions) == (if over then 1 else 0)
            && s'.overToleranceStreak == Min(run, U8_MAX)
            && (s'.phase == Suspended <==> Exhausts(s, price, c, now) || policy.maxStreak <= run)
            && (t.samePolicy && 1 <= policy.maxStreak ==> run <= policy.maxStreak)
            && (Send(peer, Reject(BalanceVerificationFailed)) in actions <==> Exhausts(s, price, c, now))
  {
    WarnsIffOver(peer, s, price, policy, c, now);
    SampleStreak(t, s, price, policy, c, now, []);
  }

  /** A sample within tolerance that the balance covers spares the peer if and only if the limit is positive, whatever
      its streak was. */
  lemma {:induction false} HonestPeerSparedIff(inputs: seq<Input>, peer: PeerId, c: Counters, now: Millis)
    requires SessionOf(inputs, peer).Some? && IsCharged(SessionOf(inputs, peer).value)
    requires !OverTolerance(SessionOf(inputs, peer).value, NodeRun(inputs).0.policy, c)
    requires !Exhausts(SessionOf(inputs, peer).value, NodeRun(inputs).0.price, c, now)
    ensures var n' := NodeStep(NodeRun(inputs).0, Deliver(MeterSample(peer, c), now)).0;
            peer in n'.peers && (n'.peers[peer].phase == Active <==> 1 <= NodeRun(inputs).0.policy.maxStreak)
  {
    DriftMeaning(inputs, peer, c, now);
  }
}
