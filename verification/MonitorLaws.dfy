/** What a monitor makes of its quote when nobody interferes, and which quotes the store lists, told from the outside. */
module MonitorLaws {
  import opened Machine
  import opened Wrappers
  import opened Quotes

  // ---- What is listed ----

  /** A quote is stale half an hour after it was made unless it is claimed or granted, ten minutes after it was completed,
      and five minutes after it expired if it does. */
  lemma StaleTimes(r: Record, now: int)
    ensures IsStale(r, MAX_AGE_SECS, now) <==>
              || (!r.processing && !r.sessionGranted && r.createdAt + 1800 < now)
              || (r.sessionGranted && r.completedAt.Some? && r.completedAt.value + 600 < now)
              || (0 < r.expiry && r.expiry + 300 < now)
  {
  }

  /** A quote awaits processing when the mint was last seen to have been paid for it, and it is neither claimed nor granted. */
  lemma AwaitsProcessing(r: Record)
    ensures IsPaidUnprocessed(r) <==>
              (r.cachedState == Some(Paid) || r.cachedState == Some(Issued)) && !r.processing && !r.sessionGranted
  {
  }

  // ---- One round of a monitor ----

  function StepAll(w: World, steps: seq<Step>): World
    decreases |steps|
  {
    if steps == [] then w else StepAll(WorldStep(w, steps[0]), steps[1..])
  }

  /** The monitor is about to wake to a stored quote that is neither claimed nor granted. */
  predicate Waiting(w: World, id: QuoteId) {
    && id in w.monitors && w.monitors[id] == Sleeping && id in w.grants
    && id in w.records && !w.records[id].processing && !w.records[id].sessionGranted
  }

  /** The world with the quote's record and monitor as given. */
  function With(w: World, id: QuoteId, r: Record, m: Monitor): World {
    w.(records := w.records[id := r], monitors := w.monitors[id := m])
  }

  /** Waking ends the monitor when its time is up, or the quote is gone or granted; a claimed quote is left alone. */
  lemma WakingUp(w: World, id: QuoteId, lifetimeOver: bool)
    requires id in w.monitors && w.monitors[id] == Sleeping
    ensures var w' := WorldStep(w, Wake(id, lifetimeOver));
            && w' == w.(monitors := w'.monitors) && id in w'.monitors
            && (w'.monitors[id] == Exited <==> lifetimeOver || id !in w.records || w.records[id].sessionGranted)
            && (w'.monitors[id] == Sleeping <==>
                  !lifetimeOver && id in w.records && !w.records[id].sessionGranted && w.records[id].processing)
            && (Waiting(w, id) && !lifetimeOver ==> w'.monitors[id] == Polled(w.records[id]))
  {
  }

  lemma Steps3(w: World, a: Step, b: Step, c: Step)
    ensures StepAll(w, [a, b, c]) == WorldStep(WorldStep(WorldStep(w, a), b), c)
  {
    assert [a, b, c][1..] == [b, c] && [b, c][1..] == [c] && [c][1..] == [];
    var w2 := WorldStep(WorldStep(w, a), b);
    assert StepAll(w2, [c]) == StepAll(WorldStep(w2, c), []);
    assert StepAll(WorldStep(w, a), [b, c]) == StepAll(w2, [c]);
  }

  /** While the mint is unpaid only that is noted; when it cannot be asked nothing is. */
  lemma UnpaidRound(w: World, id: QuoteId, now: int, reason: string)
    requires Waiting(w, id)
    ensures StepAll(w, [Wake(id, false), Status(id, Ok(Unpaid), now), Store(id)])
         == With(w, id, w.records[id].(cachedState := Some(Unpaid), cachedStateAt := Some(now)), Sleeping)
    ensures WorldStep(WorldStep(w, Wake(id, false)), Status(id, Err(reason), now)) == w
  {
    Steps3(w, Wake(id, false), Status(id, Ok(Unpaid), now), Store(id));
    var r := w.records[id].(cachedState := Some(Unpaid), cachedStateAt := Some(now));
    WakingUp(w, id, false);
    var w1 := WorldStep(w, Wake(id, false));
    assert WorldStep(w1, Status(id, Ok(Unpaid), now)) == w.(monitors := w.monitors[id := Writing(r)]);
    assert w.monitors[id := Sleeping] == w.monitors;
  }

  /** The first three steps of a round when the mint was paid: the claim is on record before anything else is done. */
  function Claim(id: QuoteId, state: QuoteState, now: int): seq<Step> {
    [Wake(id, false), Status(id, Ok(state), now), Store(id)]
  }

  function Claimed(r: Record, state: QuoteState, now: int): Record {
    r.(cachedState := Some(state), cachedStateAt := Some(now), processing := true)
  }

  /** A paid quote is then minted; one already issued is not. */
  lemma ClaimRound(w: World, id: QuoteId, state: QuoteState, now: int)
    requires Waiting(w, id) && state != Unpaid
    ensures var r := Claimed(w.records[id], state, now);
            StepAll(w, Claim(id, state, now))
            == With(w, id, r, if state == Paid then Minting(r) else Granting(r))
               .(settled := if state == Issued then w.settled + {id} else w.settled)
  {
    Steps3(w, Wake(id, false), Status(id, Ok(state), now), Store(id));
    WakingUp(w, id, false);
    var r, w1 := Claimed(w.records[id], state, now), WorldStep(w, Wake(id, false));
    assert WorldStep(w1, Status(id, Ok(state), now))
        == w.(monitors := w.monitors[id := Claiming(r)], settled := if state == Issued then w.settled + {id} else w.settled);
  }

  /** When access is granted the record says so, with the time of the poll, the allotment, and the mint's coins issued. */
  function GrantedAs(r: Record, now: int, allotment: u64): Record {
    r.(cachedState := Some(Issued), cachedStateAt := Some(now), processing := true,
       sessionGranted := true, completedAt := Some(now), allotment := allotment)
  }

  /** A paid quote whose minting and granting succeed ends granted, once, and its monitor exits. */
  lemma PaidRound(w: World, id: QuoteId, now: int, allotment: u64)
    requires Waiting(w, id)
    ensures var minted := WorldStep(StepAll(w, Claim(id, Paid, now)), Mint(id, true));
            WorldStep(WorldStep(minted, Grant(id, Ok(allotment))), Store(id))
            == With(w, id, GrantedAs(w.records[id], now, allotment), Exited)
               .(settled := w.settled + {id}, grants := w.grants[id := w.grants[id] + [allotment]])
  {
    ClaimRound(w, id, Paid, now);
    var r := Claimed(w.records[id], Paid, now);
    MintedRound(w, id, r);
    FinishRound(With(w, id, r, Granting(r)).(settled := w.settled + {id}), id, now, allotment);
  }

  lemma MintedRound(w: World, id: QuoteId, r: Record)
    ensures WorldStep(With(w, id, r, Minting(r)), Mint(id, true)) == With(w, id, r, Granting(r)).(settled := w.settled + {id})
  {
  }

  /** So does one the mint had issued already, without minting. */
  lemma IssuedRound(w: World, id: QuoteId, now: int, allotment: u64)
    requires Waiting(w, id)
    ensures WorldStep(WorldStep(StepAll(w, Claim(id, Issued, now)), Grant(id, Ok(allotment))), Store(id))
         == With(w, id, GrantedAs(w.records[id], now, allotment), Exited)
            .(settled := w.settled + {id}, grants := w.grants[id := w.grants[id] + [allotment]])
  {
    ClaimRound(w, id, Issued, now);
    var r := Claimed(w.records[id], Issued, now);
    FinishRound(With(w, id, r, Granting(r)).(settled := w.settled + {id}), id, now, allotment);
  }

  lemma FinishRound(w: World, id: QuoteId, now: int, allotment: u64)
    requires id in w.monitors && id in w.grants && w.monitors[id].Granting?
    requires w.monitors[id].record.cachedStateAt == Some(now) && w.monitors[id].record.processing
    ensures WorldStep(WorldStep(w, Grant(id, Ok(allotment))), Store(id))
         == With(w, id, GrantedAs(w.monitors[id].record, now, allotment), Exited)
            .(grants := w.grants[id := w.grants[id] + [allotment]])
  {
  }

  /** When minting or granting fails the claim is taken back, what the mint said stays noted, and the monitor goes on. */
  lemma MintFailedRound(w: World, id: QuoteId, now: int)
    requires Waiting(w, id)
    ensures WorldStep(WorldStep(StepAll(w, Claim(id, Paid, now)), Mint(id, false)), Store(id))
         == With(w, id, w.records[id].(cachedState := Some(Paid), cachedStateAt := Some(now)), Sleeping)
  {
    ClaimRound(w, id, Paid, now);
    var r := Claimed(w.records[id], Paid, now);
    ReleaseRound(With(w, id, r, Minting(r)), id, "");
  }

  lemma GrantFailedRound(w: World, id: QuoteId, now: int, reason: string)
    requires Waiting(w, id)
    ensures WorldStep(WorldStep(StepAll(w, Claim(id, Issued, now)), Grant(id, Err(reason))), Store(id))
         == With(w, id, w.records[id].(cachedState := Some(Issued), cachedStateAt := Some(now)), Sleeping)
            .(settled := w.settled + {id})
  {
    ClaimRound(w, id, Issued, now);
    var r := Claimed(w.records[id], Issued, now);
    ReleaseRound(With(w, id, r, Granting(r)).(settled := w.settled + {id}), id, reason);
  }

  lemma ReleaseRound(w: World, id: QuoteId, reason: string)
    requires id in w.monitors && id in w.grants && (w.monitors[id].Minting? || w.monitors[id].Granting?)
    ensures var failure := if w.monitors[id].Minting? then Mint(id, false) else Grant(id, Err(reason));
            WorldStep(WorldStep(w, failure), Store(id)) == With(w, id, w.monitors[id].record.(processing := false), Sleeping)
  {
  }
}
