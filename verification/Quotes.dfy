/** Lightning quotes: the store, the monitor that watches one quote until it is paid, and the
    janitor that removes stale ones. */
module Quotes {
  import opened Machine
  import opened Wrappers

  type QuoteId = string

  datatype QuoteState = Unpaid | Paid | Issued

  /** Times are Unix seconds; an expiry of zero or less means none. */
  datatype Record = Record(
    quoteId: QuoteId, macAddress: string, mintUrl: string, amount: u64, expiry: int, allotment: u64,
    createdAt: int, completedAt: Option<int>, sessionGranted: bool, processing: bool, invoice: string,
    cachedState: Option<QuoteState>, cachedStateAt: Option<int>)

  const MAX_AGE_SECS := 1800
  const SETTLED_RETENTION_SECS := 600
  const EXPIRY_GRACE_SECS := 300

  predicate IsStale(r: Record, maxAgeSecs: int, now: int) {
    || (!r.processing && !r.sessionGranted && now - r.createdAt > maxAgeSecs)
    || (r.sessionGranted && r.completedAt.Some? && now - r.completedAt.value > SETTLED_RETENTION_SECS)
    || (r.expiry > 0 && now > r.expiry + EXPIRY_GRACE_SECS)
  }

  predicate IsPaidUnprocessed(r: Record) {
    !r.processing && !r.sessionGranted && r.cachedState in {Some(Paid), Some(Issued)}
  }

  class QuoteStore {
    var records: map<QuoteId, Record>

    constructor ()
      ensures records == map[]
    {
      records := map[];
    }

    method Insert(record: Record)
      modifies this
      ensures records == old(records)[record.quoteId := record]
    {
      records := records[record.quoteId := record];
    }

    method Get(quoteId: QuoteId) returns (r: Option<Record>)
      ensures r.Some? <==> quoteId in records
      ensures r.Some? ==> r.value == records[quoteId]
    {
      if quoteId in records {
        return Some(records[quoteId]);
      }
      return None;
    }

    /** A quote is shown only to the client that asked for it. */
    method GetForMac(quoteId: QuoteId, mac: string) returns (r: Option<Record>)
      ensures r.Some? <==> quoteId in records && records[quoteId].macAddress == mac
      ensures r.Some? ==> r.value == records[quoteId]
    {
      if quoteId in records && records[quoteId].macAddress == mac {
        return Some(records[quoteId]);
      }
      return None;
    }

    /** Replaces the record, or puts it back if it has been removed meanwhile. */
    method Update(quoteId: QuoteId, record: Record)
      modifies this
      ensures records == old(records)[quoteId := record]
    {
      records := records[quoteId := record];
    }

    method Remove(quoteId: QuoteId)
      modifies this
      ensures records == old(records) - {quoteId}
    {
      records := records - {quoteId};
    }

    method ListStale(maxAgeSecs: int, now: int) returns (stale: seq<Record>)
      ensures forall r :: r in stale <==> exists id :: id in records && records[id] == r && IsStale(r, maxAgeSecs, now)
    {
      stale := [];
      var ids := records.Keys;
      while ids != {}
        invariant ids <= records.Keys
        invariant forall r :: r in stale <==>
                    exists id :: id in records && id !in ids && records[id] == r && IsStale(r, maxAgeSecs, now)
        decreases ids
      {
        var id :| id in ids;
        ids := ids - {id};
        var r := records[id];
        var listed := false;
        if !r.processing && !r.sessionGranted {
          listed := now - r.createdAt > maxAgeSecs;
        }
        if r.sessionGranted && r.completedAt.Some? && now - r.completedAt.value > SETTLED_RETENTION_SECS {
          listed := true;
        }
        if r.expiry > 0 && now > r.expiry + EXPIRY_GRACE_SECS {
          listed := true;
        }
        if listed {
          stale := stale + [r];
        }
      }
    }

    method ListPaidUnprocessed() returns (found: seq<Record>)
      ensures forall r :: r in found <==> exists id :: id in records && records[id] == r && IsPaidUnprocessed(r)
    {
      found := [];
      var ids := records.Keys;
      while ids != {}
        invariant ids <= records.Keys
        invariant forall r :: r in found <==> exists id :: id in records && id !in ids && records[id] == r && IsPaidUnprocessed(r)
        decreases ids
      {
        var id :| id in ids;
        ids := ids - {id};
        if IsPaidUnprocessed(records[id]) {
          found := found + [records[id]];
        }
      }
    }
  }

  // ---- Monitors and janitor, one step at a time ----

  /** Where a monitor stands between two awaits, with its private copy of the record. `Writing` is
      the cached-status update, `Claiming` the one that sets `processing`, `Releasing` the one that
      clears it and `Finishing` the one that records the grant. */
  datatype Monitor =
    | Sleeping
    | Polled(record: Record)
    | Writing(record: Record)
    | Claiming(record: Record)
    | Minting(record: Record)
    | Granting(record: Record)
    | Releasing(record: Record)
    | Finishing(record: Record)
    | Exited

  /** Store, monitors and the janitor's list of quotes still to remove. `settled` and `grants`
      record history: the quotes the mint has reported issued or minted, and the allotment of every
      successful grant of access. */
  datatype World = World(
    records: map<QuoteId, Record>, monitors: map<QuoteId, Monitor>, doomed: seq<QuoteId>,
    settled: set<QuoteId>, grants: map<QuoteId, seq<u64>>)

  const EMPTY_WORLD := World(map[], map[], [], {}, map[])

  /** One atomic step of some task, with the outcome of the call it was waiting for. */
  datatype Step =
    | Open(record: Record)
    | Wake(id: QuoteId, lifetimeOver: bool)
    | Status(id: QuoteId, answer: Result<QuoteState, string>, now: int)
    | Store(id: QuoteId)
    | Mint(id: QuoteId, ok: bool)
    | Grant(id: QuoteId, outcome: Result<u64, string>)
    | Sweep(now: int, listed: seq<QuoteId>)
    | RemoveNext

  function Woken(records: map<QuoteId, Record>, id: QuoteId, lifetimeOver: bool): Monitor {
    if lifetimeOver || id !in records || records[id].sessionGranted then Exited
    else if records[id].processing then Sleeping
    else Polled(records[id])
  }

  /** The quotes listed are exactly the stale ones, in whatever order the store came up with. */
  predicate ListsStale(listed: seq<QuoteId>, records: map<QuoteId, Record>, now: int) {
    && (forall id | id in listed :: id in records && IsStale(records[id], MAX_AGE_SECS, now))
    && (forall id | id in records && IsStale(records[id], MAX_AGE_SECS, now) :: id in listed)
  }

  function Answered(record: Record, answer: Result<QuoteState, string>, now: int): Monitor {
    match answer
    case Err(_) => Sleeping
    case Ok(state) =>
      var noted := record.(cachedState := Some(state), cachedStateAt := Some(now));
      if state == Unpaid then Writing(noted) else Claiming(noted.(processing := true))
  }

  function GrantedRecord(record: Record, allotment: u64): Record {
    record.(sessionGranted := true, completedAt := record.cachedStateAt, allotment := allotment, cachedState := Some(Issued))
  }

  function AfterStore(m: Monitor): Monitor {
    match m
    case Writing(_) => Sleeping
    case Claiming(r) => if r.cachedState == Some(Paid) then Minting(r) else Granting(r)
    case Releasing(_) => Sleeping
    case Finishing(_) => Exited
    case Sleeping => m
    case Polled(_) => m
    case Minting(_) => m
    case Granting(_) => m
    case Exited => m
  }

  predicate IsStoring(m: Monitor) { m.Writing? || m.Claiming? || m.Releasing? || m.Finishing? }

  function WorldStep(w: World, step: Step): World {
    match step
    case Open(record) =>
      if record.quoteId in w.monitors || record.processing || record.sessionGranted then w
      else w.(records := w.records[record.quoteId := record], monitors := w.monitors[record.quoteId := Sleeping],
              grants := w.grants[record.quoteId := []])
    case Wake(id, lifetimeOver) =>
      if id !in w.monitors || w.monitors[id] != Sleeping then w
      else w.(monitors := w.monitors[id := Woken(w.records, id, lifetimeOver)])
    case Status(id, answer, now) =>
      if id !in w.monitors || !w.monitors[id].Polled? then w
      else w.(monitors := w.monitors[id := Answered(w.monitors[id].record, answer, now)],
              settled := if answer == Ok(Issued) then w.settled + {id} else w.settled)
    case Store(id) =>
      if id !in w.monitors || !IsStoring(w.monitors[id]) then w
      else w.(records := w.records[id := w.monitors[id].record],
              monitors := w.monitors[id := AfterStore(w.monitors[id])])
    case Mint(id, ok) =>
      if id !in w.monitors || !w.monitors[id].Minting? then w
      else
        var r := w.monitors[id].record;
        w.(monitors := w.monitors[id := if ok then Granting(r) else Releasing(r.(processing := false))],
           settled := if ok then w.settled + {id} else w.settled)
    case Grant(id, outcome) =>
      if id !in w.monitors || id !in w.grants || !w.monitors[id].Granting? then w
      else
        var r := w.monitors[id].record;
        (match outcome
         case Err(_) => w.(monitors := w.monitors[id := Releasing(r.(processing := false))])
         case Ok(allotment) =>
           w.(monitors := w.monitors[id := Finishing(GrantedRecord(r, allotment))],
              grants := w.grants[id := w.grants[id] + [allotment]]))
    case Sweep(now, listed) =>
      if w.doomed != [] || !ListsStale(listed, w.records, now) then w else w.(doomed := listed)
    case RemoveNext =>
      if w.doomed == [] then w else w.(records := w.records - {w.doomed[0]}, doomed := w.doomed[1..])
  }

  function WorldRun(steps: seq<Step>): World
    decreases |steps|
  {
    if steps == [] then EMPTY_WORLD else WorldStep(WorldRun(steps[..|steps| - 1]), steps[|steps| - 1])
  }

  // ---- The same steps on the live store ----

  /** A client asks for a new quote: it is stored and a monitor set on it. */
  method OpenQuote(store: QuoteStore, ghost w: World, record: Record)
    requires store.records == w.records
    requires record.quoteId !in w.monitors && !record.processing && !record.sessionGranted
    modifies store
    ensures WorldStep(w, Open(record))
         == w.(records := store.records, monitors := w.monitors[record.quoteId := Sleeping],
               grants := w.grants[record.quoteId := []])
  {
    store.Insert(record);
  }

  /** A monitor wakes and looks its quote up. */
  method WakeMonitor(store: QuoteStore, ghost w: World, id: QuoteId, lifetimeOver: bool) returns (m: Monitor)
    requires store.records == w.records && id in w.monitors && w.monitors[id] == Sleeping
    ensures WorldStep(w, Wake(id, lifetimeOver)) == w.(monitors := w.monitors[id := m])
  {
    if lifetimeOver {
      return Exited;
    }
    var found := store.Get(id);
    if found.None? || found.value.sessionGranted {
      return Exited;
    }
    if found.value.processing {
      return Sleeping;
    }
    return Polled(found.value);
  }

  /** A monitor writes its copy back, whatever it stands at. */
  method StoreCopy(store: QuoteStore, ghost w: World, id: QuoteId, m: Monitor) returns (next: Monitor)
    requires store.records == w.records && id in w.monitors && w.monitors[id] == m && IsStoring(m)
    modifies store
    ensures WorldStep(w, Store(id)) == w.(records := store.records, monitors := w.monitors[id := next])
  {
    store.Update(id, m.record);
    next := AfterStore(m);
  }

  /** The janitor lists the quotes to remove. */
  method SweepStale(store: QuoteStore, ghost w: World, now: int) returns (doomed: seq<QuoteId>)
    requires store.records == w.records && w.doomed == []
    requires forall id | id in w.records :: w.records[id].quoteId == id
    ensures ListsStale(doomed, w.records, now)
    ensures WorldStep(w, Sweep(now, doomed)) == w.(doomed := doomed)
  {
    var stale := store.ListStale(MAX_AGE_SECS, now);
    doomed := [];
    var i := 0;
    while i < |stale|
      invariant 0 <= i <= |stale|
      invariant forall id :: id in doomed <==> exists k :: 0 <= k < i && stale[k].quoteId == id
    {
      doomed := doomed + [stale[i].quoteId];
      i := i + 1;
    }
    forall id | id in doomed ensures id in w.records && IsStale(w.records[id], MAX_AGE_SECS, now) {
      var k :| 0 <= k < |stale| && stale[k].quoteId == id;
      assert stale[k] in stale;
    }
    forall id | id in w.records && IsStale(w.records[id], MAX_AGE_SECS, now) ensures id in doomed {
      assert w.records[id] in stale;
      var k :| 0 <= k < |stale| && stale[k] == w.records[id];
      assert stale[k].quoteId == id;
    }
  }

  /** The janitor removes the next of them. */
  method RemoveDoomed(store: QuoteStore, ghost w: World, doomed: seq<QuoteId>) returns (rest: seq<QuoteId>)
    requires store.records == w.records && doomed == w.doomed && doomed != []
    modifies store
    ensures WorldStep(w, RemoveNext) == w.(records := store.records, doomed := rest)
  {
    store.Remove(doomed[0]);
    rest := doomed[1..];
  }
}
