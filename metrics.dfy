/**
 * src/utils/metrics.ts: the process-wide record of counters the status report
 * reads, with the two timestamps the report measures from. `Date.now()` is a
 * parameter. Nothing in the modelled core ever increments a counter.
 */
module Telemetry {
  /** The twelve counters of the record, read at one moment. */
  datatype Counters = Counters(
    uuidRequests: nat, skinRequests: nat,
    uuidCacheHits: nat, uuidCacheMisses: nat, skinCacheHits: nat, skinCacheMisses: nat,
    batchesProcessed: nat, usernamesBatched: nat,
    bytesSentToMojang: nat, bytesReceivedFromMojang: nat,
    mojangRequests: nat, mojangErrors: nat)

  /** Every counter at 0. */
  const ZERO: Counters := Counters(0, 0, 0, 0, 0, 0, 0, 0, 0, 0, 0, 0)

  /** The counters in declaration order. */
  function Values(c: Counters): (vs: seq<nat>)
    ensures |vs| == 12
  {
    [c.uuidRequests, c.skinRequests, c.uuidCacheHits, c.uuidCacheMisses, c.skinCacheHits, c.skinCacheMisses,
     c.batchesProcessed, c.usernamesBatched, c.bytesSentToMojang, c.bytesReceivedFromMojang,
     c.mojangRequests, c.mojangErrors]
  }

  /** `ZERO` is exactly the counters that are all 0. */
  lemma ZeroIsAllZero(c: Counters)
    ensures c == ZERO <==> forall i :: 0 <= i < 12 ==> Values(c)[i] == 0
  {
    if forall i :: 0 <= i < 12 ==> Values(c)[i] == 0 {
      assert Values(c)[0] == 0 && Values(c)[1] == 0 && Values(c)[2] == 0 && Values(c)[3] == 0;
      assert Values(c)[4] == 0 && Values(c)[5] == 0 && Values(c)[6] == 0 && Values(c)[7] == 0;
      assert Values(c)[8] == 0 && Values(c)[9] == 0 && Values(c)[10] == 0 && Values(c)[11] == 0;
    }
  }

  /** The `metrics` object. */
  class Metrics {
    var uuidRequests: nat
    var skinRequests: nat
    var uuidCacheHits: nat
    var uuidCacheMisses: nat
    var skinCacheHits: nat
    var skinCacheMisses: nat
    var batchesProcessed: nat
    var usernamesBatched: nat
    var bytesSentToMojang: nat
    var bytesReceivedFromMojang: nat
    var mojangRequests: nat
    var mojangErrors: nat
    /** When the process started; `reset` never touches it. */
    var startedAt: int
    /** When the last report period began. */
    var lastReportAt: int

    /** The twelve counters as they stand. */
    function Snapshot(): Counters
      reads this
    {
      Counters(uuidRequests, skinRequests, uuidCacheHits, uuidCacheMisses, skinCacheHits, skinCacheMisses,
               batchesProcessed, usernamesBatched, bytesSentToMojang, bytesReceivedFromMojang,
               mojangRequests, mojangErrors)
    }

    /** The object literal, evaluated when the module loads at time `now`: every counter at 0. */
    constructor (now: int)
      ensures Snapshot() == ZERO
      ensures startedAt == now && lastReportAt == now
    {
      uuidRequests, skinRequests := 0, 0;
      uuidCacheHits, uuidCacheMisses, skinCacheHits, skinCacheMisses := 0, 0, 0, 0;
      batchesProcessed, usernamesBatched := 0, 0;
      bytesSentToMojang, bytesReceivedFromMojang := 0, 0;
      mojangRequests, mojangErrors := 0, 0;
      startedAt := now;
      lastReportAt := now;
    }

    /**
     * `reset()` at time `now`: every counter back to 0 whatever it held, so a
     * second reset leaves the counters as the first did; the start time stays
     * and the report period restarts at `now`.
     */
    method Reset(now: int)
      modifies this
      ensures Snapshot() == ZERO
      ensures startedAt == old(startedAt)
      ensures lastReportAt == now
    {
      uuidRequests := 0;
      skinRequests := 0;
      uuidCacheHits := 0;
      uuidCacheMisses := 0;
      skinCacheHits := 0;
      skinCacheMisses := 0;
      batchesProcessed := 0;
      usernamesBatched := 0;
      bytesSentToMojang := 0;
      bytesReceivedFromMojang := 0;
      mojangRequests := 0;
      mojangErrors := 0;
      lastReportAt := now;
    }
  }
}
