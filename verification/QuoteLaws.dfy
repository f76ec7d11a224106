/** What holds over every interleaving of monitors and janitor. */
module QuoteLaws {
  import opened Machine
  import opened Wrappers
  import opened Quotes

  /** The monitor is between claiming its quote and releasing it or recording the grant. */
  predicate HoldsClaim(m: Monitor) { m.Minting? || m.Granting? || m.Releasing? || m.Finishing? }

  /** A monitor's private copy fits where it stands. */
  predicate CopyFits(id: QuoteId, m: Monitor, settled: bool, granted: seq<u64>) {
    match m
    case Sleeping => granted == []
    case Polled(r) => r.quoteId == id && !r.processing && !r.sessionGranted && granted == []
    case Writing(r) => r.quoteId == id && !r.processing && !r.sessionGranted && granted == []
    case Claiming(r) =>
      && r.quoteId == id && r.processing && !r.sessionGranted && granted == []
      && r.cachedStateAt.Some? && (r.cachedState == Some(Paid) || (r.cachedState == Some(Issued) && settled))
    case Minting(r) => r.quoteId == id && r.processing && !r.sessionGranted && r.cachedStateAt.Some? && granted == []
    case Granting(r) =>
      r.quoteId == id && r.processing && !r.sessionGranted && r.cachedStateAt.Some? && granted == [] && settled
    case Releasing(r) => r.quoteId == id && !r.processing && !r.sessionGranted && granted == []
    case Finishing(r) => r.quoteId == id && IsGrantRecord(r, granted) && settled
    case Exited => |granted| <= 1 && (granted != [] ==> settled)
  }

  /** A granted record carries Issued, a completion time and the allotment of the one grant made. */
  predicate IsGrantRecord(r: Record, granted: seq<u64>) {
    r.sessionGranted && r.cachedState == Some(Issued) && r.completedAt.Some? && granted == [r.allotment]
  }

  predicate RecordFits(r: Record, m: Monitor, granted: seq<u64>) {
    && (r.processing && !r.sessionGranted ==> HoldsClaim(m))
    && (r.sessionGranted ==> m.Exited? && IsGrantRecord(r, granted))
  }

  predicate QuoteFits(w: World, id: QuoteId) {
    && (id in w.monitors ==> id in w.grants && CopyFits(id, w.monitors[id], id in w.settled, w.grants[id]))
    && (id in w.records ==>
          && id in w.monitors && id in w.grants
          && w.records[id].quoteId == id
          && RecordFits(w.records[id], w.monitors[id], w.grants[id]))
  }

  ghost predicate WorldInvariant(w: World) { forall id :: QuoteFits(w, id) }

  lemma OpenKeepsQuote(w: World, record: Record, id: QuoteId)
    requires QuoteFits(w, id)
    ensures QuoteFits(WorldStep(w, Open(record)), id)
  {
  }

  lemma WakeKeepsQuote(w: World, step: Step, id: QuoteId)
    requires QuoteFits(w, id) && (step.Wake? || step.Status?)
    ensures QuoteFits(WorldStep(w, step), id)
  {
    if step.Status? && step.id == id && id in w.monitors && w.monitors[id].Polled? {
      AnswerFits(id, w.monitors[id].record, step.answer, step.now, id in w.settled, w.grants[id]);
    }
  }

  /** What the mint answers is noted in the private copy, and a settled quote is then claimed. */
  lemma AnswerFits(id: QuoteId, r: Record, answer: Result<QuoteState, string>, now: int, settled: bool, granted: seq<u64>)
    requires CopyFits(id, Polled(r), settled, granted)
    ensures CopyFits(id, Answered(r, answer, now), settled || answer == Ok(Issued), granted)
    ensures !HoldsClaim(Answered(r, answer, now)) && !Answered(r, answer, now).Exited?
  {
  }

  lemma StoreKeepsQuote(w: World, step: Step, id: QuoteId)
    requires QuoteFits(w, id) && step.Store?
    ensures QuoteFits(WorldStep(w, step), id)
  {
  }

  lemma MintKeepsQuote(w: World, step: Step, id: QuoteId)
    requires QuoteFits(w, id) && step.Mint?
    ensures QuoteFits(WorldStep(w, step), id)
  {
  }

  lemma GrantKeepsQuote(w: World, step: Step, id: QuoteId)
    requires QuoteFits(w, id) && step.Grant?
    ensures QuoteFits(WorldStep(w, step), id)
  {
  }

  lemma StepKeepsQuote(w: World, step: Step, id: QuoteId)
    requires QuoteFits(w, id)
    ensures QuoteFits(WorldStep(w, step), id)
  {
    match step
    case Open(record) => OpenKeepsQuote(w, record, id);
    case Wake(_, _) => WakeKeepsQuote(w, step, id);
    case Status(_, _, _) => WakeKeepsQuote(w, step, id);
    case Store(_) => StoreKeepsQuote(w, step, id);
    case Mint(_, _) => MintKeepsQuote(w, step, id);
    case Grant(_, _) => GrantKeepsQuote(w, step, id);
    case Sweep(_, _) =>
    case RemoveNext =>
  }

  /** Every interleaving of openings, monitor steps and janitor steps keeps the invariant. */
  lemma {:induction false} InvariantHolds(steps: seq<Step>)
    ensures WorldInvariant(WorldRun(steps))
    decreases |steps|
  {
    if steps != [] {
      var before := steps[..|steps| - 1];
      InvariantHolds(before);
      forall id ensures QuoteFits(WorldRun(steps), id) {
        StepKeepsQuote(WorldRun(before), steps[|steps| - 1], id);
      }
    }
  }

  /** A record marked `processing` but not granted exists only while its own monitor holds the claim. */
  lemma NoOrphanedClaim(steps: seq<Step>, id: QuoteId)
    requires id in WorldRun(steps).records
    requires WorldRun(steps).records[id].processing && !WorldRun(steps).records[id].sessionGranted
    ensures id in WorldRun(steps).monitors && HoldsClaim(WorldRun(steps).monitors[id])
  {
    InvariantHolds(steps);
    assert QuoteFits(WorldRun(steps), id);
  }

  /** Access is granted at most once per quote, only after the mint has settled it, and a record that
      says so carries Issued, a completion time and exactly the allotment granted. */
  lemma GrantedOnceAndPaid(steps: seq<Step>, id: QuoteId)
    requires id in WorldRun(steps).grants && id in WorldRun(steps).monitors
    ensures var w := WorldRun(steps);
            && |w.grants[id]| <= 1
            && (w.grants[id] != [] ==> id in w.settled)
            && (id in w.records && w.records[id].sessionGranted ==> IsGrantRecord(w.records[id], w.grants[id]))
  {
    InvariantHolds(steps);
    assert QuoteFits(WorldRun(steps), id);
  }

  /** From some time on the record is always listed as stale. */
  ghost predicate EventuallyStale(r: Record) {
    exists t: int :: StaleAfter(r, t)
  }

  ghost predicate StaleAfter(r: Record, t: int) {
    forall now: int | t < now :: IsStale(r, MAX_AGE_SECS, now)
  }

  /** A record can be collected unless it has no expiry and is either claimed and ungranted, or granted
      without a completion time. */
  lemma EventuallyStaleIff(r: Record)
    ensures EventuallyStale(r) <==>
              r.expiry > 0 || (!r.processing && !r.sessionGranted) || (r.sessionGranted && r.completedAt.Some?)
  {
    if r.expiry > 0 {
      assert StaleAfter(r, r.expiry + EXPIRY_GRACE_SECS);
    } else if !r.processing && !r.sessionGranted {
      assert StaleAfter(r, r.createdAt + MAX_AGE_SECS);
    } else if r.sessionGranted && r.completedAt.Some? {
      assert StaleAfter(r, r.completedAt.value + SETTLED_RETENTION_SECS);
    } else {
      forall t: int ensures !StaleAfter(r, t) {
        assert !IsStale(r, MAX_AGE_SECS, t + 1);
      }
    }
  }

  /** No quote gets stuck: whenever its monitor holds no claim, a stored record is one the janitor
      will eventually list. */
  lemma NothingIsStuck(steps: seq<Step>, id: QuoteId)
    requires id in WorldRun(steps).records && id in WorldRun(steps).monitors
    requires !HoldsClaim(WorldRun(steps).monitors[id])
    ensures EventuallyStale(WorldRun(steps).records[id])
  {
    InvariantHolds(steps);
    assert QuoteFits(WorldRun(steps), id);
    EventuallyStaleIff(WorldRun(steps).records[id]);
  }

  /** How many of its own steps a claim can still last. */
  function ClaimRank(m: Monitor): nat {
    match m
    case Minting(_) => 3
    case Granting(_) => 2
    case Releasing(_) => 1
    case Finishing(_) => 1
    case Sleeping => 0
    case Polled(_) => 0
    case Writing(_) => 0
    case Claiming(_) => 0
    case Exited => 0
  }

  /** The step is the one the monitor of `id` is waiting for. */
  predicate IsTurnOf(w: World, id: QuoteId, step: Step) {
    id in w.monitors && id in w.grants &&
    match w.monitors[id]
    case Minting(_) => step.Mint? && step.id == id
    case Granting(_) => step.Grant? && step.id == id
    case Releasing(_) => step.Store? && step.id == id
    case Finishing(_) => step.Store? && step.id == id
    case Sleeping => step.Wake? && step.id == id
    case Polled(_) => step.Status? && step.id == id
    case Writing(_) => step.Store? && step.id == id
    case Claiming(_) => step.Store? && step.id == id
    case Exited => false
  }

  /** A claim runs out: each of its monitor's own steps brings its end nearer, whatever the outcome,
      and no other task can prolong or touch it. */
  lemma ClaimRunsOut(steps: seq<Step>, id: QuoteId, step: Step)
    requires id in WorldRun(steps).monitors && HoldsClaim(WorldRun(steps).monitors[id])
    ensures var w, w' := WorldRun(steps), WorldStep(WorldRun(steps), step);
            && id in w'.monitors
            && (if IsTurnOf(w, id, step) then ClaimRank(w'.monitors[id]) < ClaimRank(w.monitors[id])
                else w'.monitors[id] == w.monitors[id])
  {
    InvariantHolds(steps);
    ClaimStep(WorldRun(steps), id, step);
  }

  lemma ClaimStep(w: World, id: QuoteId, step: Step)
    requires QuoteFits(w, id) && id in w.monitors && HoldsClaim(w.monitors[id])
    ensures var w' := WorldStep(w, step);
            && id in w'.monitors
            && (if IsTurnOf(w, id, step) then ClaimRank(w'.monitors[id]) < ClaimRank(w.monitors[id])
                else w'.monitors[id] == w.monitors[id])
  {
  }
}
