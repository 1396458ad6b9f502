/**
 * The batch coalescer of src/utils/batch-processor.ts. Name lookups that miss
 * the coalescer's own cache wait in a FIFO queue; a flush claims up to
 * `BATCH_SIZE` of them from the head in one indivisible step, sends their
 * names upstream in one call, and settles each claimed request exactly once
 * from the upstream outcome, caching what it resolves.
 *
 * `processBatch` is split at its first `await`: `ClaimBatch` is the
 * synchronous `splice`, and `Complete` is everything after the upstream call,
 * given the claimed requests and an abstract upstream outcome. The
 * `setInterval` timer is the `Tick` method. Each request's promise is a
 * ticket; `settled` maps a ticket to the one settlement its promise keeps,
 * later `resolve`/`reject` calls being ignored as JavaScript promises do.
 */
module Batching {
  import opened Wrappers
  import opened Ascii
  import opened UuidUtils
  import opened LruCache
  import opened Caching

  /** `MOJANG_API.BATCH_SIZE` */
  const BATCH_SIZE: nat := 10
  /** `MOJANG_API.BATCH_INTERVAL_MS`: the period of `Tick`. */
  const BATCH_INTERVAL_MS: nat := 3000
  /** `MOJANG_API.BATCH_UUID_URLS`: equivalent upstream endpoints, one drawn per flush. */
  const BATCH_UUID_URLS: seq<string> := [
    "https://api.mojang.com/profiles/minecraft",
    "https://api.minecraftservices.com/minecraft/profile/lookup/bulk/byname"
  ]

  /** `{exists: true, uuid}` or `{exists: false, uuid: null}`. */
  datatype UuidResult = Exists(uuid: string) | DoesNotExist

  /** The errors a claimed request is rejected with. */
  datatype BatchError =
    | ValidationError
    | ServerError(status: int)
    | RequestTimeout
    | InternalServerError
    | InvalidUuidFromMojang

  /** What a settled promise holds. */
  datatype Settlement = Resolved(result: UuidResult) | Rejected(error: BatchError)

  /** A queued lookup: the caller's ticket (its promise) and the name as given. */
  datatype PendingRequest = PendingRequest(ticket: nat, name: string)

  /** One element of the upstream's 2xx array. */
  datatype BatchEntry = BatchEntry(id: string, name: string)

  /** `response.data`: an array, a falsy value (read as `[]`), or a truthy value without `forEach`. */
  datatype ResponseData = Entries(entries: seq<BatchEntry>) | NoData | NotAList

  /**
   * The upstream call's outcome: it throws (a timeout may or may not be named
   * `AbortError`), or answers with a status, never throwing for a status.
   */
  datatype Upstream = Thrown(isAbortError: bool) | Status(code: int, data: ResponseData)

  /** What `addRequest` gives back at once: a cached answer, or the ticket of a queued promise. */
  datatype Reply = Answered(result: UuidResult) | Queued(ticket: nat)

  /** How a flush treats its requests: all rejected alike, or matched by lowered name. */
  datatype Verdict = FailAll(error: BatchError) | FanOut(results: map<string, BatchEntry>)

  /** The `Error` message each rejection carries. */
  function Message(e: BatchError): string {
    match e
    case ValidationError => "Validation error in batch request"
    case ServerError(status) => "Server error: " + IntText(status)
    case RequestTimeout => "Request timeout"
    case InternalServerError => "Internal server error"
    case InvalidUuidFromMojang => "Received invalid UUID format from Mojang"
  }

  /** The endpoint drawn for a flush from `Math.random()` = `draw`. */
  function BatchUrl(draw: real): (url: string)
    requires 0.0 <= draw < 1.0
    ensures url in BATCH_UUID_URLS
  {
    var i := (draw * |BATCH_UUID_URLS| as real).Floor;
    assert 0 <= i < 2;
    BATCH_UUID_URLS[i]
  }

  /** The result a cached value answers with. */
  function ResultOf(value: Option<string>): UuidResult {
    match value
    case Some(uuid) => Exists(uuid)
    case None => DoesNotExist
  }

  /** The value a resolved result is cached as. */
  function CachedValue(r: UuidResult): (v: Option<string>)
    ensures ResultOf(v) == r
  {
    match r
    case Exists(uuid) => Some(uuid)
    case DoesNotExist => None
  }

  /** The `resultMap` of a 2xx answer: entries by lowered name, a later entry replacing an earlier one. */
  function ResultMap(entries: seq<BatchEntry>): (m: map<string, BatchEntry>)
    ensures forall k :: k in m <==> exists i :: 0 <= i < |entries| && Lower(entries[i].name) == k
  {
    if entries == [] then map[]
    else
      var last := entries[|entries| - 1];
      var m := ResultMap(entries[..|entries| - 1]);
      assert forall i :: 0 <= i < |entries| - 1 ==> entries[..|entries| - 1][i] == entries[i];
      m[Lower(last.name) := last]
  }

  /** The `resultMap` holds, for each lowered name, the last entry with that name. */
  lemma {:induction false} ResultMapPicksLast(entries: seq<BatchEntry>, i: nat)
    requires i < |entries|
    requires forall j :: i < j < |entries| ==> Lower(entries[j].name) != Lower(entries[i].name)
    ensures Lower(entries[i].name) in ResultMap(entries)
    ensures ResultMap(entries)[Lower(entries[i].name)] == entries[i]
  {
    if i < |entries| - 1 {
      var init := entries[..|entries| - 1];
      ResultMapPicksLast(init, i);
    }
  }

  /** The classification of an upstream outcome, in the order the source tests it. */
  function Classify(outcome: Upstream): (v: Verdict)
    ensures v == FailAll(RequestTimeout) <==> outcome == Thrown(true)
    ensures v == FailAll(ValidationError) <==> outcome.Status? && outcome.code == 400
    ensures v.FailAll? && v.error.ServerError?
            <==> outcome.Status? && outcome.code != 400 && (outcome.code < 200 || outcome.code >= 300)
    ensures v.FailAll? && v.error.ServerError? ==> v.error.status == outcome.code
    ensures v.FanOut? <==> outcome.Status? && 200 <= outcome.code < 300 && !outcome.data.NotAList?
    ensures v.FailAll? ==> v.error != InvalidUuidFromMojang
  {
    match outcome
    case Thrown(isAbortError) => FailAll(if isAbortError then RequestTimeout else InternalServerError)
    case Status(code, data) =>
      if code == 400 then FailAll(ValidationError)
      else if code < 200 || code >= 300 then FailAll(ServerError(code))
      else
        match data
        case Entries(entries) => FanOut(ResultMap(entries))
        case NoData => FanOut(map[])
        case NotAList => FailAll(InternalServerError)
  }

  /** How one claimed request named `name` is settled under a verdict. */
  function SettlementFor(v: Verdict, name: string): (s: Settlement)
    ensures s.Resolved? && s.result.Exists? ==> IsCanonical(s.result.uuid)
    ensures v.FailAll? ==> s == Rejected(v.error)
    ensures v.FanOut? && Lower(name) !in v.results ==> s == Resolved(DoesNotExist)
    ensures v.FanOut? && Lower(name) in v.results ==>
              s == match TryParseUuid(v.results[Lower(name)].id)
                   case Some(uuid) => Resolved(Exists(uuid))
                   case None => Rejected(InvalidUuidFromMojang)
  {
    match v
    case FailAll(error) => Rejected(error)
    case FanOut(results) =>
      var key := Lower(name);
      if key in results then
        match TryParseUuid(results[key].id)
        case Some(uuid) => Resolved(Exists(uuid))
        case None => Rejected(InvalidUuidFromMojang)
      else Resolved(DoesNotExist)
  }

  /** A JavaScript promise settles once: a second `resolve` or `reject` is ignored. */
  function SettleOnce(settled: map<nat, Settlement>, ticket: nat, s: Settlement): (r: map<nat, Settlement>)
    ensures ticket in r && r.Keys == settled.Keys + {ticket}
    ensures r[ticket] == if ticket in settled then settled[ticket] else s
    ensures forall t :: t in settled ==> r[t] == settled[t]
  {
    if ticket in settled then settled else settled[ticket := s]
  }

  /** The settlements after a flush has settled `batch`, front to back. */
  function SettleAll(settled: map<nat, Settlement>, batch: seq<PendingRequest>, v: Verdict): map<nat, Settlement> {
    if batch == [] then settled
    else
      var req := batch[|batch| - 1];
      SettleOnce(SettleAll(settled, batch[..|batch| - 1], v), req.ticket, SettlementFor(v, req.name))
  }

  /** The name cache after settling one request: its result is cached under its lowered name if it resolves. */
  function WriteOne(c: Lru<DatabaseResult<string>>, req: PendingRequest, v: Verdict,
                    createdAtMs: int, now: int): Lru<DatabaseResult<string>> {
    match SettlementFor(v, req.name)
    case Resolved(r) => c.Set(Lower(req.name), Record(CachedValue(r), createdAtMs), now)
    case Rejected(_) => c
  }

  /** The name cache after a flush has settled `batch`: each resolved request is cached, front to back. */
  function WriteAll(c: Lru<DatabaseResult<string>>, batch: seq<PendingRequest>, v: Verdict,
                    createdAtMs: int, now: int): Lru<DatabaseResult<string>> {
    if batch == [] then c
    else WriteOne(WriteAll(c, batch[..|batch| - 1], v, createdAtMs, now), batch[|batch| - 1], v, createdAtMs, now)
  }

  function TicketsOf(batch: seq<PendingRequest>): set<nat> {
    set r | r in batch :: r.ticket
  }

  predicate DistinctTickets(batch: seq<PendingRequest>) {
    forall i, j :: 0 <= i < j < |batch| ==> batch[i].ticket != batch[j].ticket
  }

  function Min(a: nat, b: nat): nat {
    if a < b then a else b
  }

  /** A flush that fails writes nothing to the cache, whatever it claimed. */
  lemma {:induction false} FailedFlushWritesNothing(c: Lru<DatabaseResult<string>>, batch: seq<PendingRequest>,
                                                    v: Verdict, createdAtMs: int, now: int)
    requires v.FailAll?
    ensures WriteAll(c, batch, v, createdAtMs, now) == c
  {
    if batch != [] {
      FailedFlushWritesNothing(c, batch[..|batch| - 1], v, createdAtMs, now);
    }
  }

  /** Settling one more request of a batch settles it after the ones before it, and caches it if resolved. */
  lemma FlushStep(settled: map<nat, Settlement>, c: Lru<DatabaseResult<string>>, batch: seq<PendingRequest>,
                  v: Verdict, createdAtMs: int, now: int, i: nat)
    requires i < |batch|
    ensures SettleAll(settled, batch[..i + 1], v)
         == SettleOnce(SettleAll(settled, batch[..i], v), batch[i].ticket, SettlementFor(v, batch[i].name))
    ensures WriteAll(c, batch[..i + 1], v, createdAtMs, now)
         == WriteOne(WriteAll(c, batch[..i], v, createdAtMs, now), batch[i], v, createdAtMs, now)
  {
    assert batch[..i + 1][..i] == batch[..i];
  }

  /** A flush keeps the name cache well formed and its bounds as they were. */
  lemma {:induction false} WriteAllKeepsValid(c: Lru<DatabaseResult<string>>, batch: seq<PendingRequest>,
                                              v: Verdict, createdAtMs: int, now: int)
    requires c.Valid()
    ensures WriteAll(c, batch, v, createdAtMs, now).Valid()
    ensures WriteAll(c, batch, v, createdAtMs, now).max == c.max
    ensures WriteAll(c, batch, v, createdAtMs, now).ttl == c.ttl
  {
    if batch != [] {
      var req := batch[|batch| - 1];
      var before := WriteAll(c, batch[..|batch| - 1], v, createdAtMs, now);
      WriteAllKeepsValid(c, batch[..|batch| - 1], v, createdAtMs, now);
      if SettlementFor(v, req.name).Resolved? {
        SetKeepsValid(before, Lower(req.name), Record(CachedValue(SettlementFor(v, req.name).result), createdAtMs), now);
      }
    }
  }

  /**
   * After a flush, a resolved request's entry holds its result, stored at the
   * flush's clock reading, with at most one more recently used key per
   * request settled after it.
   */
  lemma {:induction false} WriteAllStores(c: Lru<DatabaseResult<string>>, batch: seq<PendingRequest>,
                                          v: Verdict, createdAtMs: int, now: int, i: nat)
    requires c.Valid() && |batch| <= c.max
    requires i < |batch| && SettlementFor(v, batch[i].name).Resolved?
    ensures var w := WriteAll(c, batch, v, createdAtMs, now);
            && Lower(batch[i].name) in w.slots && Lower(batch[i].name) in w.order
            && w.slots[Lower(batch[i].name)]
               == Slot(Record(CachedValue(SettlementFor(v, batch[i].name).result), createdAtMs), now)
            && |w.order| - Position(w.order, Lower(batch[i].name)) <= |batch| - i
  {
    var key := Lower(batch[i].name);
    var init := batch[..|batch| - 1];
    var req := batch[|batch| - 1];
    var before := WriteAll(c, init, v, createdAtMs, now);
    WriteAllKeepsValid(c, init, v, createdAtMs, now);
    var s := SettlementFor(v, req.name);
    if i == |batch| - 1 {
      SetIsNewest(before, key, Record(CachedValue(s.result), createdAtMs), now);
    } else {
      assert init[i] == batch[i];
      WriteAllStores(c, init, v, createdAtMs, now, i);
      if s.Resolved? {
        var k := Lower(req.name);
        if k == key {
          assert s == SettlementFor(v, batch[i].name);
          SetIsNewest(before, key, Record(CachedValue(s.result), createdAtMs), now);
        } else {
          SetKeepsNewer(before, k, Record(CachedValue(s.result), createdAtMs), now, key);
        }
      }
    }
  }

  /**
   * A flush caches each request it resolves under the lowered name: reading
   * that name back gives the request's result until the entry is older than
   * the cache's `ttl`, however many other names the flush writes after it.
   */
  lemma ResolvedRequestIsCached(c: Lru<DatabaseResult<string>>, batch: seq<PendingRequest>, v: Verdict,
                                createdAtMs: int, now: int, i: nat, r: UuidResult, later: int)
    requires c.Valid() && |batch| <= c.max
    requires i < |batch| && SettlementFor(v, batch[i].name) == Resolved(r)
    ensures WriteAll(c, batch, v, createdAtMs, now).Lookup(Lower(batch[i].name), later)
            == if later - now <= c.ttl then Some(Record(CachedValue(r), createdAtMs)) else None
  {
    WriteAllStores(c, batch, v, createdAtMs, now, i);
    WriteAllKeepsValid(c, batch, v, createdAtMs, now);
  }

  /** A flush never changes a promise that was already settled. */
  lemma {:induction false} SettleAllKeepsSettled(settled: map<nat, Settlement>, batch: seq<PendingRequest>,
                                                 v: Verdict, t: nat)
    requires t in settled
    ensures t in SettleAll(settled, batch, v) && SettleAll(settled, batch, v)[t] == settled[t]
  {
    if batch != [] {
      SettleAllKeepsSettled(settled, batch[..|batch| - 1], v, t);
    }
  }

  /** A flush settles exactly its claimed tickets, and nothing else. */
  lemma {:induction false} SettleAllKeys(settled: map<nat, Settlement>, batch: seq<PendingRequest>, v: Verdict)
    ensures SettleAll(settled, batch, v).Keys == settled.Keys + TicketsOf(batch)
  {
    if batch != [] {
      var init := batch[..|batch| - 1];
      SettleAllKeys(settled, init, v);
      TicketsOfLast(batch);
    }
  }

  /** The tickets of a batch are those of all but its last request, and the last one's. */
  lemma TicketsOfLast(batch: seq<PendingRequest>)
    requires batch != []
    ensures TicketsOf(batch) == TicketsOf(batch[..|batch| - 1]) + {batch[|batch| - 1].ticket}
  {
    assert batch == batch[..|batch| - 1] + [batch[|batch| - 1]];
  }

  /** Each claimed request, not settled before, ends settled by its own name's settlement. */
  lemma {:induction false} SettleAllSettlesEach(settled: map<nat, Settlement>, batch: seq<PendingRequest>,
                                                v: Verdict, i: nat)
    requires i < |batch| && DistinctTickets(batch)
    requires batch[i].ticket !in settled
    ensures batch[i].ticket in SettleAll(settled, batch, v)
    ensures SettleAll(settled, batch, v)[batch[i].ticket] == SettlementFor(v, batch[i].name)
  {
    var init := batch[..|batch| - 1];
    if i < |batch| - 1 {
      SettleAllSettlesEach(settled, init, v, i);
      assert batch[|batch| - 1].ticket != batch[i].ticket;
    } else {
      SettleAllKeys(settled, init, v);
      assert batch[i].ticket !in TicketsOf(init);
    }
  }

  /** On a failed flush every claimed request is rejected with the flush's error. */
  lemma FailedFlushRejectsAll(settled: map<nat, Settlement>, batch: seq<PendingRequest>,
                              outcome: Upstream, i: nat)
    requires Classify(outcome).FailAll?
    requires i < |batch| && DistinctTickets(batch) && batch[i].ticket !in settled
    ensures batch[i].ticket in SettleAll(settled, batch, Classify(outcome))
    ensures SettleAll(settled, batch, Classify(outcome))[batch[i].ticket] == Rejected(Classify(outcome).error)
  {
    SettleAllSettlesEach(settled, batch, Classify(outcome), i);
  }

  /**
   * On a 2xx array answer, a request whose lowered name matches an entry (the
   * last such) resolves to that entry's canonical id, or alone is rejected if
   * the id does not parse.
   */
  lemma MatchedNameSettles(code: int, entries: seq<BatchEntry>, name: string, i: nat)
    requires 200 <= code < 300
    requires i < |entries| && Lower(entries[i].name) == Lower(name)
    requires forall j :: i < j < |entries| ==> Lower(entries[j].name) != Lower(name)
    ensures SettlementFor(Classify(Status(code, Entries(entries))), name)
         == match TryParseUuid(entries[i].id)
            case Some(uuid) => Resolved(Exists(uuid))
            case None => Rejected(InvalidUuidFromMojang)
  {
    ResultMapPicksLast(entries, i);
  }

  /** On a 2xx answer, a request whose lowered name matches no entry resolves as not existing. */
  lemma UnmatchedNameDoesNotExist(code: int, entries: seq<BatchEntry>, name: string)
    requires 200 <= code < 300
    requires forall j :: 0 <= j < |entries| ==> Lower(entries[j].name) != Lower(name)
    ensures SettlementFor(Classify(Status(code, Entries(entries))), name) == Resolved(DoesNotExist)
  {
  }

  /** A flush caches exactly the requests it resolves: a rejected request leaves the cache as it was. */
  lemma RejectedRequestWritesNothing(c: Lru<DatabaseResult<string>>, batch: seq<PendingRequest>,
                                     v: Verdict, createdAtMs: int, now: int)
    requires batch != [] && SettlementFor(v, batch[|batch| - 1].name).Rejected?
    ensures WriteAll(c, batch, v, createdAtMs, now) == WriteAll(c, batch[..|batch| - 1], v, createdAtMs, now)
  {
  }

  class BatchProcessor {
    /** `pendingRequests` */
    var pending: seq<PendingRequest>
    /** `processingInterval !== null` */
    var timerActive: bool
    /** The settled promises, by ticket. */
    var settled: map<nat, Settlement>
    /** The ticket the next queued request receives. */
    var nextTicket: nat
    /** The tickets some flush has claimed. */
    ghost var claimed: set<nat>
    /** `cacheManager`: the coalescer's own cache instance. */
    const cache: CacheManager

    /** The queue invariant, which a push may break for one moment by reaching `BATCH_SIZE`. */
    ghost predicate QueueInvariant()
      reads this, cache
    {
      && cache.Valid()
      && DistinctTickets(pending)
      && (forall i :: 0 <= i < |pending| ==> pending[i].ticket < nextTicket && pending[i].ticket !in claimed)
      && (forall t :: t in settled ==> t in claimed)
      && (forall t :: t in claimed ==> t < nextTicket)
    }

    /** Between operations, fewer than `BATCH_SIZE` requests wait. */
    ghost predicate Valid()
      reads this, cache
    {
      QueueInvariant() && |pending| < BATCH_SIZE
    }

    /** `new BatchProcessor()`: an empty queue, a fresh cache, the interval started. */
    constructor ()
      ensures Valid() && fresh(cache)
      ensures pending == [] && timerActive && settled == map[] && claimed == {}
      ensures cache.nameToUuid.slots == map[]
    {
      pending := [];
      timerActive := true;
      settled := map[];
      nextTicket := 0;
      claimed := {};
      cache := new CacheManager();
    }

    /**
     * The synchronous head of `processBatch`: `splice(0, BATCH_SIZE)`. It takes
     * the first `min(length, BATCH_SIZE)` requests in order, leaves the rest in
     * order, and claims only requests no flush has claimed before.
     */
    method ClaimBatch() returns (batch: seq<PendingRequest>)
      requires QueueInvariant()
      modifies this
      ensures QueueInvariant()
      ensures batch == old(pending)[..Min(|old(pending)|, BATCH_SIZE)]
      ensures pending == old(pending)[Min(|old(pending)|, BATCH_SIZE)..]
      ensures DistinctTickets(batch)
      ensures forall r :: r in batch ==> r.ticket !in old(claimed) && r.ticket !in settled
      ensures claimed == old(claimed) + TicketsOf(batch)
      ensures settled == old(settled) && nextTicket == old(nextTicket) && timerActive == old(timerActive)
    {
      if |pending| == 0 {
        return [];
      }
      var n := Min(|pending|, BATCH_SIZE);
      batch := pending[..n];
      pending := pending[n..];
      claimed := claimed + TicketsOf(batch);
      forall i | 0 <= i < |pending|
        ensures pending[i].ticket !in claimed
      {
        assert pending[i] == old(pending)[n + i];
        assert forall j :: 0 <= j < n ==> batch[j].ticket != pending[i].ticket;
      }
    }

    /**
     * `addRequest(name)`: answer from the cache on a hit, with the queue
     * untouched; on a miss, queue the name as given at the tail and, when the
     * queue reaches `BATCH_SIZE`, claim a batch at once (returned as `flushed`,
     * the batch whose upstream call is now in flight).
     */
    method AddRequest(name: string, now: int) returns (reply: Reply, flushed: seq<PendingRequest>)
      requires Valid()
      modifies this, cache
      ensures Valid()
      ensures cache.nameToUuid == old(cache.nameToUuid).AfterGet(Lower(name), now)
      ensures cache.uuidToSkin == old(cache.uuidToSkin)
      ensures settled == old(settled) && timerActive == old(timerActive)
      ensures old(cache.nameToUuid).Lookup(Lower(name), now).Some? ==>
                && reply == Answered(ResultOf(old(cache.nameToUuid).Lookup(Lower(name), now).value.value))
                && pending == old(pending) && flushed == [] && nextTicket == old(nextTicket)
                && claimed == old(claimed)
      ensures old(cache.nameToUuid).Lookup(Lower(name), now).None? ==>
                && reply == Queued(old(nextTicket))
                && nextTicket == old(nextTicket) + 1
                && flushed == (if |old(pending)| + 1 == BATCH_SIZE
                               then old(pending) + [PendingRequest(old(nextTicket), name)] else [])
                && pending == (if |old(pending)| + 1 == BATCH_SIZE
                               then [] else old(pending) + [PendingRequest(old(nextTicket), name)])
                && claimed == old(claimed) + TicketsOf(flushed)
    {
      var cached := cache.GetNameToUuid(name, now);
      if cached.Some? {
        reply := Answered(ResultOf(cached.value.value));
        flushed := [];
        return;
      }
      var request := PendingRequest(nextTicket, name);
      pending := pending + [request];
      nextTicket := nextTicket + 1;
      reply := Queued(request.ticket);
      if |pending| >= BATCH_SIZE {
        flushed := ClaimBatch();
      } else {
        flushed := [];
      }
    }

    /** The interval firing: a flush while the interval runs, nothing once it is cleared. */
    method Tick() returns (flushed: seq<PendingRequest>)
      requires Valid()
      modifies this
      ensures Valid()
      ensures flushed == (if old(timerActive) then old(pending) else [])
      ensures pending == (if old(timerActive) then [] else old(pending))
      ensures claimed == old(claimed) + TicketsOf(flushed)
      ensures settled == old(settled) && nextTicket == old(nextTicket) && timerActive == old(timerActive)
    {
      if timerActive {
        flushed := ClaimBatch();
      } else {
        flushed := [];
      }
    }

    /**
     * The rest of `processBatch`, once the upstream call for a claimed batch has
     * an outcome: classify it, then settle every request of the batch in order,
     * caching each resolved one under its lowered name at `createdAtMs`.
     */
    method Complete(batch: seq<PendingRequest>, outcome: Upstream, createdAtMs: int, now: int)
      requires Valid()
      requires forall r :: r in batch ==> r.ticket in claimed
      modifies this, cache
      ensures Valid()
      ensures settled == SettleAll(old(settled), batch, Classify(outcome))
      ensures cache.nameToUuid == WriteAll(old(cache.nameToUuid), batch, Classify(outcome), createdAtMs, now)
      ensures cache.uuidToSkin == old(cache.uuidToSkin)
      ensures pending == old(pending) && claimed == old(claimed)
      ensures nextTicket == old(nextTicket) && timerActive == old(timerActive)
    {
      var verdict := ClassifyOutcome(outcome);

      var i := 0;
      while i < |batch|
        invariant 0 <= i <= |batch|
        invariant cache.Valid()
        invariant settled == SettleAll(old(settled), batch[..i], verdict)
        invariant cache.nameToUuid == WriteAll(old(cache.nameToUuid), batch[..i], verdict, createdAtMs, now)
        invariant cache.uuidToSkin == old(cache.uuidToSkin)
        invariant forall t :: t in settled ==> t in claimed
        invariant pending == old(pending) && claimed == old(claimed)
        invariant nextTicket == old(nextTicket) && timerActive == old(timerActive)
      {
        FlushStep(old(settled), old(cache.nameToUuid), batch, verdict, createdAtMs, now, i);
        SettleRequest(batch[i], verdict, createdAtMs, now);
        i := i + 1;
      }
      assert batch[..|batch|] == batch;
    }

    /** One request of a completed flush: cache its result if it resolves, then settle its ticket. */
    method SettleRequest(request: PendingRequest, verdict: Verdict, createdAtMs: int, now: int)
      requires cache.Valid() && request.ticket in claimed
      modifies this, cache
      ensures cache.Valid()
      ensures settled == SettleOnce(old(settled), request.ticket, SettlementFor(verdict, request.name))
      ensures cache.nameToUuid == WriteOne(old(cache.nameToUuid), request, verdict, createdAtMs, now)
      ensures cache.uuidToSkin == old(cache.uuidToSkin)
      ensures pending == old(pending) && claimed == old(claimed)
      ensures nextTicket == old(nextTicket) && timerActive == old(timerActive)
    {
      var settlement := SettlementFor(verdict, request.name);
      if settlement.Resolved? {
        cache.PutNameToUuid(request.name, CachedValue(settlement.result), createdAtMs, now);
      }
      settled := SettleOnce(settled, request.ticket, settlement);
    }

    /**
     * `shutdown()`: clear the interval, claim whatever still waits (below
     * `BATCH_SIZE`, so all of it), and close the cache.
     */
    method Shutdown() returns (flushed: seq<PendingRequest>)
      requires Valid()
      modifies this, cache
      ensures Valid()
      ensures !timerActive
      ensures flushed == old(pending) && pending == []
      ensures claimed == old(claimed) + TicketsOf(flushed)
      ensures settled == old(settled) && nextTicket == old(nextTicket)
      ensures cache.nameToUuid.slots == map[] && cache.uuidToSkin.slots == map[]
    {
      timerActive := false;
      if |pending| > 0 {
        flushed := ClaimBatch();
      } else {
        flushed := [];
      }
      cache.Close();
    }
  }

  /** The branches of `processBatch` that turn the upstream outcome into a verdict for the whole batch. */
  method ClassifyOutcome(outcome: Upstream) returns (verdict: Verdict)
    ensures verdict == Classify(outcome)
  {
    match outcome {
      case Thrown(isAbortError) =>
        verdict := FailAll(if isAbortError then RequestTimeout else InternalServerError);
      case Status(code, data) =>
        if code == 400 {
          verdict := FailAll(ValidationError);
        } else if code < 200 || code >= 300 {
          verdict := FailAll(ServerError(code));
        } else {
          match data {
            case Entries(entries) =>
              var resultMap := BuildResultMap(entries);
              verdict := FanOut(resultMap);
            case NoData =>
              verdict := FanOut(map[]);
            case NotAList =>
              verdict := FailAll(InternalServerError);
          }
        }
    }
  }

  /** The `forEach` that fills `resultMap` from a 2xx array, a later entry replacing an earlier one. */
  method BuildResultMap(entries: seq<BatchEntry>) returns (resultMap: map<string, BatchEntry>)
    ensures resultMap == ResultMap(entries)
  {
    resultMap := map[];
    var i := 0;
    while i < |entries|
      invariant 0 <= i <= |entries|
      invariant resultMap == ResultMap(entries[..i])
    {
      assert entries[..i + 1][..i] == entries[..i];
      resultMap := resultMap[Lower(entries[i].name) := entries[i]];
      i := i + 1;
    }
    assert entries[..|entries|] == entries;
  }
}
