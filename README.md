# SkinsRestorer Mojang API proxy — a verified model of its core

The service answers two questions on behalf of Minecraft servers:

- which UUID belongs to a player name;
- which skin (the signed `textures` property) belongs to a UUID.

It keeps two in-memory LRU caches with a time-to-live, and it batches name lookups into one upstream call per batch. It picks a random local source address for outgoing calls. The Java side also assembles a list of upstream proxies. A periodic Discord report summarises a shared set of counters and then resets them.

This project models that core in Dafny:

- `Ascii` (`ascii.dfy`): ASCII lowercasing, decimal digits, JavaScript's `split` and `join` on one separator character.
- `Wrappers` (`wrappers.dfy`): `Option` and `Result`.
- `UuidUtils` (`uuid.dfy`): `tryParseUUID`, `convertToDashed` and `convertToNoDashes`, with their round trips.
- `ValidationUtils` (`validation.dfy`): `invalidMinecraftUsername`.
- `LruCache` (`lru.dfy`): the behaviour of the `lru-cache` package as the cache manager configures it. It has a recency order, a maximum size that evicts the least recently used key, and a time-to-live counted from the last `set`. A stale `get` deletes the entry.
- `Caching` (`cache_manager.dfy`): the cache manager, as a class with the two caches as fields. Keys are lowercased, and `createdAt` is the floor of milliseconds over 1000.
- `Batching` (`batch_processor.dfy`): the batch processor, as a class with the pending queue.
  - Each promise is a ticket.
  - A ticket is settled at most once, in the `settled` map.
  - The upstream answer is an abstract outcome: a status with a body, or a thrown error flagged as `AbortError` or not.
- `MojangApi` (`routes.dfy`): the `/uuid/:name` and `/skin/:uuid` handler bodies, as methods over a `CacheManager`. Each upstream outcome is classified by a pure function.
- `LocalAddressChoice` (`local_address.dfy`): `getRandomLocalAddress`. The environment values and the random draw are parameters.
- `BitAddress` (`bitset_address.dfy`): the Java `getRandomLocalAddressHost`. It sets the bits of a little-endian bit set one by one, then zero-pads the exported bytes into a fresh array.
- `ProxyProvider` (`proxy_provider.dfy`): the Java `createTypeSpec`, `crawl` (given the fetch's outcome: thrown, an empty body, or the decoded answer), `get` and `close`.
- `Telemetry` (`metrics.dfy`): the counter record and its `reset`.
- `DiscordWebhook` (`discord_webhook.dfy`): `formatBytes`, `formatUptime`, the colour, the N/A guards, the report-then-reset rule of `sendReport`, and starting and stopping the reporter.

Clocks, random draws, environment variables and upstream responses are parameters of the operations that use them.

JavaScript's `%` truncates toward zero. It is written out as `JsRem`. Its `Math.floor(x / n)` with a positive `n` is Dafny's `/`.

## Model

| member | source | states |
|---|---|---|
| Ascii.LowerChar | src/cache-manager.ts:41 | lowercasing maps exactly the ASCII capitals, each to the letter 32 code points on, and leaves every other character alone |
| Ascii.LowerIdempotent | src/cache-manager.ts:41 | lowercasing a key twice gives the same key as once |
| Ascii.DecimalTextRoundTrip | src/utils/discord-webhook.ts:10 | the decimal text of a number reads back as that number |
| Ascii.Split | src/utils/local-address-provider.ts:24 | `split` yields at least one part, and no part contains the separator |
| Ascii.SplitOfJoin | src/utils/discord-webhook.ts:27 | joining parts that do not contain the separator, then splitting, gives back the parts |
| UuidUtils.ConvertToDashed | src/utils/uuid-utils.ts:35-47 | succeeds exactly on 32 hex characters and then yields the 8-4-4-4-12 dashed form; any other input is an error |
| UuidUtils.ConvertToNoDashes | src/utils/uuid-utils.ts:54-56 | the result has no '-', and input without '-' comes back unchanged |
| UuidUtils.NoDashesAppend | src/utils/uuid-utils.ts:54-56 | removing dashes distributes over concatenation, so every other character is kept in order |
| UuidUtils.TryParseUuid | src/utils/uuid-utils.ts:10-28 | gives a value exactly when the input is in dashed or undashed hex form; every value is 36 characters of lowercase hex with dashes at 8, 13, 18 and 23 |
| UuidUtils.ParseDashed | src/utils/uuid-utils.ts:12-16 | a dashed UUID in any case parses to itself lowercased |
| UuidUtils.ParseUndashed | src/utils/uuid-utils.ts:19-25 | 32 hex characters parse to the lowercased dashed form, with the dashes inserted after characters 8, 12, 16 and 20 |
| UuidUtils.ParseIdempotent | src/utils/uuid-utils.ts:10-28 | parsing a parse result returns it unchanged |
| UuidUtils.NoDashesUndoesDashed | src/utils/uuid-utils.ts:40-56 | `convertToNoDashes(convertToDashed(s)) == s` for every 32-hex `s` |
| UuidUtils.DashedUndoesNoDashes | src/utils/uuid-utils.ts:40-56 | `convertToDashed(convertToNoDashes(u)) == u` for every canonical UUID `u` |
| UuidUtils.FieldsOfDashed | src/utils/uuid-utils.ts:12-13 | a dashed UUID is its five hex fields joined by '-' |
| UuidUtils.DashedOfFields | src/utils/uuid-utils.ts:40-46 | dashing five concatenated hex fields of widths 8, 4, 4, 4 and 12 puts one '-' between each pair |
| ValidationUtils.MatchesUsernamePattern | src/utils/validation-utils.ts:19-20 | the pattern matches exactly the non-empty strings of `[A-Za-z0-9_-]` |
| ValidationUtils.InvalidMinecraftUsername | src/utils/validation-utils.ts:10-21 | invalid exactly when longer than 16 characters or not matching the pattern |
| ValidationUtils.TooLongIsInvalid | src/utils/validation-utils.ts:13-15 | more than 16 characters is invalid |
| ValidationUtils.EmptyIsInvalid | src/utils/validation-utils.ts:19-20 | the empty name is invalid |
| ValidationUtils.ForeignCharIsInvalid | src/utils/validation-utils.ts:19-20 | one character outside the class makes a name invalid |
| ValidationUtils.WellFormedIsValid | src/utils/validation-utils.ts:13-20 | 1 to 16 allowed characters is valid |
| ValidationUtils.CaseDoesNotMatter | src/utils/validation-utils.ts:19 | names equal ignoring case get the same verdict |
| LruCache.Without | src/cache-manager.ts:29-37 | removing a key from the recency order keeps exactly the other keys and keeps them distinct |
| LruCache.Empty | src/cache-manager.ts:29-37 | a new cache is well formed and holds nothing |
| LruCache.SetKeepsValid | src/cache-manager.ts:29-37 | `set` keeps the cache well formed: at most `max` keys, order and entries in step |
| LruCache.AfterGetKeepsValid | src/cache-manager.ts:29-37 | `get` keeps the cache well formed |
| LruCache.SizeAtMostMax | src/cache-manager.ts:30 | a well-formed cache holds at most `max` entries |
| LruCache.DistinctCard | src/cache-manager.ts:30 | a recency order without repeats has as many keys as entries |
| LruCache.SetThenLookup | src/cache-manager.ts:31 | a key just set reads back its value until its time-to-live passes, and as a miss after |
| LruCache.SetKeepsOthers | src/cache-manager.ts:40-45 | a set leaves every other entry as it was, unless that entry is the evicted one |
| LruCache.SetEvictsLeastRecent | src/cache-manager.ts:30 | a new key in a full cache evicts exactly the least recently used key and becomes the most recent |
| LruCache.GetRefreshesRecency | src/cache-manager.ts:47-51 | a fresh hit keeps every entry and makes its key the most recent |
| LruCache.StaleGetDeletes | src/cache-manager.ts:31 | an entry past its time-to-live reads as a miss and is deleted |
| LruCache.Position | src/cache-manager.ts:30 | a stored key has one place in the recency order |
| LruCache.WithoutPosition | src/cache-manager.ts:30 | removing another key from the recency order moves a key at most one place towards eviction |
| LruCache.AppendPosition | src/cache-manager.ts:30 | adding a key at the most recent end moves no other key |
| LruCache.SetKeepsNewer | src/cache-manager.ts:30-31 | a set of another key keeps a stored value, unless that key is evicted, and puts at most one more key after it in the recency order |
| LruCache.SetIsNewest | src/cache-manager.ts:30-31 | a key just set is the most recently used one |
| Caching.CreatedAtSeconds | src/cache-manager.ts:42 | `createdAt` is the floor of the milliseconds divided by 1000 |
| Caching.CacheManager.constructor | src/cache-manager.ts:29-37 | both caches start empty, with a maximum of 10000 and a time-to-live of six hours |
| Caching.CacheManager.PutNameToUuid | src/cache-manager.ts:40-45 | sets the lowercased name to `{createdAt, value}` and leaves the skin cache alone |
| Caching.CacheManager.GetNameToUuid | src/cache-manager.ts:47-51 | returns the entry under the lowercased name, if any, and leaves the skin cache alone |
| Caching.CacheManager.PutUuidToSkin | src/cache-manager.ts:53-62 | sets the lowercased UUID and leaves the name cache alone |
| Caching.CacheManager.GetUuidToSkin | src/cache-manager.ts:64-68 | reads under the lowercased UUID and leaves the name cache alone |
| Caching.CacheManager.Close | src/cache-manager.ts:70-74 | both caches end empty |
| Caching.NameRoundTrip | src/cache-manager.ts:40-51 | a put followed by a get with a name equal ignoring case returns `{createdAt, value}` within the time-to-live |
| Caching.SkinRoundTrip | src/cache-manager.ts:53-68 | UUIDs that differ only in case share one skin entry |
| Caching.NullIsCachedNotMissing | src/cache-manager.ts:3-6 | a cached null is returned as an entry whose value is null, unlike a miss |
| Batching.BatchUrl | src/utils/batch-processor.ts:121-124 | the URL is one of the two batch endpoints |
| Batching.CachedValue | src/utils/batch-processor.ts:48-61 | a cached non-null value answers `exists:true` with it, and a cached null answers `exists:false` with null |
| Batching.ResultMap | src/utils/batch-processor.ts:159-162 | the map's keys are exactly the lowercased names of the returned entries |
| Batching.BuildResultMap | src/utils/batch-processor.ts:159-162 | the `forEach` loop builds exactly that map |
| Batching.ResultMapPicksLast | src/utils/batch-processor.ts:159-162 | a name listed more than once maps to its last entry |
| Batching.Classify | src/utils/batch-processor.ts:129-206 | a thrown AbortError fails all with "Request timeout"; 400 fails all with a validation error; another non-2xx status fails all with a server error carrying the status; any other thrown error, or a 2xx body that is not a list, fails all with "Internal server error"; only 2xx with a list or no data fans out |
| Batching.ClassifyOutcome | src/utils/batch-processor.ts:129-206 | the branches of `processBatch` compute exactly the verdict `Classify` states |
| Batching.SettlementFor | src/utils/batch-processor.ts:165-194 | a failed flush rejects with its error; on 2xx a request whose lowered name has an entry resolves to that entry's id, parsed to canonical form, or is rejected alone if the id does not parse; with no entry it resolves `exists:false` |
| Batching.SettleOnce | src/utils/batch-processor.ts:165-194 | settling a ticket that is already settled changes nothing, so a promise settles once |
| Batching.FailedFlushWritesNothing | src/utils/batch-processor.ts:129-153 | a flush that fails all writes nothing to the cache |
| Batching.WriteAllKeepsValid | src/utils/batch-processor.ts:165-194 | a flush keeps the name cache well formed, with its bounds |
| Batching.WriteAllStores | src/utils/batch-processor.ts:165-194 | after a flush each resolved request's lowered name holds its result, stored at the flush's time, even when the flush writes other names after it (a flush no larger than the cache) |
| Batching.ResolvedRequestIsCached | src/utils/batch-processor.ts:177-187 | a request the flush resolves, to a UUID or to `exists:false`, reads back from the cache under its lowered name until the time-to-live passes |
| Batching.SettleAllKeepsSettled | src/utils/batch-processor.ts:165-206 | settling a batch never changes an earlier settlement |
| Batching.SettleAllKeys | src/utils/batch-processor.ts:165-206 | after a flush, exactly the batch's tickets are added to the settled ones |
| Batching.SettleAllSettlesEach | src/utils/batch-processor.ts:165-206 | each request of the batch is settled by its own name's verdict |
| Batching.FailedFlushRejectsAll | src/utils/batch-processor.ts:129-206 | on 400, another non-2xx status or a thrown error, every claimed request is rejected with the same error |
| Batching.MatchedNameSettles | src/utils/batch-processor.ts:165-183 | a request whose lowercased name matches a returned entry settles by that entry's id |
| Batching.UnmatchedNameDoesNotExist | src/utils/batch-processor.ts:184-193 | a request with no matching entry resolves `exists:false` with null |
| Batching.RejectedRequestWritesNothing | src/utils/batch-processor.ts:172-177 | a request rejected for an unparseable id writes nothing to the cache |
| Batching.BatchProcessor.constructor | src/utils/batch-processor.ts:28-33 | the queue is empty, nothing is settled, and the interval runs |
| Batching.BatchProcessor.ClaimBatch | src/utils/batch-processor.ts:104-114 | removes the first `min(len, 10)` requests in order, leaves the rest in order, and claims their distinct, unsettled tickets |
| Batching.BatchProcessor.AddRequest | src/utils/batch-processor.ts:40-82 | a hit answers from the cache and leaves the queue alone; a miss appends one request with the name as given and a new ticket; the tenth request hands the whole queue over as the flushed batch and leaves the queue empty, otherwise nothing is flushed |
| Batching.BatchProcessor.Tick | src/utils/batch-processor.ts:104-114 | while the interval runs, a tick claims the whole queue, which holds fewer than 10 requests; after shutdown a tick does nothing |
| Batching.BatchProcessor.Complete | src/utils/batch-processor.ts:116-207 | settles the batch and writes the name cache exactly as the classified outcome says, leaving the queue and the skin cache alone |
| Batching.BatchProcessor.SettleRequest | src/utils/batch-processor.ts:165-193 | one request of a completed flush: its result is cached under its lowered name if it resolves, and its ticket is settled unless it already was |
| Batching.BatchProcessor.Shutdown | src/utils/batch-processor.ts:87-99 | stops the interval, claims the whole queue once, and empties both caches |
| MojangApi.ThrownResponse | src/routes/mojang-api.ts:61-72 | in either route's catch block, an AbortError gives 503 `INTERNAL_TIMEOUT` and any other error gives 500 `INTERNAL_ERROR` |
| MojangApi.NameFromStatus | src/routes/mojang-api.ts:45-60 | a UUID is found exactly when the status is not 404, the id is truthy and it parses; it is then the canonical id |
| MojangApi.NameMiss | src/routes/mojang-api.ts:41-72 | 200 exactly when the cache is written; 503 exactly on AbortError; 500 on another error or status; 404 caches null |
| MojangApi.NameMissAsWritten | src/routes/mojang-api.ts:42 | as written, every miss throws a `TypeError` before the upstream call and answers 500 without caching |
| MojangApi.NameMissAsWrittenDiffers | src/routes/mojang-api.ts:42-59 | for an upstream 404, the route as written answers 500 and caches nothing, where the intended route answers `exists:false` and caches null |
| MojangApi.GetUuid | src/routes/mojang-api.ts:24-72 | an invalid name gives 400 `INVALID_NAME` with no cache use or upstream call; a hit answers `exists = value !== null`; a miss asks upstream and writes and answers as `NameMiss` says |
| MojangApi.FirstTextures | src/routes/mojang-api.ts:141 | none exactly when no property is named "textures"; otherwise it is one so named |
| MojangApi.TexturesFound | src/routes/mojang-api.ts:141-157 | with 2xx, the first "textures" property is cached and answered with `exists:true` |
| MojangApi.SkinMiss | src/routes/mojang-api.ts:122-169 | 204 caches null before the 2xx check; another non-2xx status gives 500 with no write; a thrown error as on the name route |
| MojangApi.GetSkin | src/routes/mojang-api.ts:101-169 | an unparseable UUID gives 400 `INVALID_UUID`; otherwise the cache is read and written under the canonical UUID |
| MojangApi.UpstreamProfileId | src/routes/mojang-api.ts:122 | the upstream id is 32 hex characters and dashes back to the canonical UUID |
| MojangApi.LowerOfCanonical | src/routes/mojang-api.ts:112 | a canonical UUID is its own cache key |
| LocalAddressChoice.BaseOf | src/utils/local-address-provider.ts:12 | a missing `IP_BASE` gives "127.0.0.1" |
| LocalAddressChoice.OctetsOfParts | src/utils/local-address-provider.ts:27-33 | a base is valid exactly when it has four parts, each a number from 0 to 255 |
| LocalAddressChoice.Offset | src/utils/local-address-provider.ts:38 | `floor(random * n)` lies in `[0, n)` |
| LocalAddressChoice.ChooseLastOctet | src/utils/local-address-provider.ts:37-38 | the last octet lies in `[base3, min(255, base3 + range)]` |
| LocalAddressChoice.RandomLocalAddress | src/utils/local-address-provider.ts:10-53 | the port is 0; a range of 0 or less returns the base verbatim; an invalid base with a positive range returns "127.0.0.1"; a `NaN` range with a valid base gives the base's first three octets and "NaN" |
| LocalAddressChoice.DottedReadsBack | src/utils/local-address-provider.ts:40 | the built address reads back as the four octets it was built from |
| LocalAddressChoice.ChosenAddressInRange | src/utils/local-address-provider.ts:37-45 | with a valid base, the first three octets are kept and the last lies in the range |
| LocalAddressChoice.ChosenFromBase | src/utils/local-address-provider.ts:37-45 | for any base of four octets and a positive range, the chosen address keeps the first three octets and its last octet lies between the base's and the base's plus the range, capped at 255 |
| LocalAddressChoice.EveryOctetReachable | src/utils/local-address-provider.ts:37-38 | some draw yields each octet in the range |
| BitAddress.Pack | src/main/java/net/skinsrestorer/mojangapi/LocalAddressProvider.java:23 | bit `j` of the packed byte is the `j`-th flag, least significant first |
| BitAddress.BytesOfBitsOf | src/main/java/net/skinsrestorer/mojangapi/LocalAddressProvider.java:23-30 | exporting the bit set of an array gives back the array |
| BitAddress.BitsOfBytesOf | src/main/java/net/skinsrestorer/mojangapi/LocalAddressProvider.java:23-30 | the bit set of the exported bytes is the bit set |
| BitAddress.Trimmed | src/main/java/net/skinsrestorer/mojangapi/LocalAddressProvider.java:30 | `toByteArray` is a prefix that ends in a non-zero byte, if it is not empty |
| BitAddress.PaddedTrimmed | src/main/java/net/skinsrestorer/mojangapi/LocalAddressProvider.java:29-32 | zero-padding the exported bytes to the base length reproduces exactly the bytes the bit set encodes |
| BitAddress.Randomised | src/main/java/net/skinsrestorer/mojangapi/LocalAddressProvider.java:19-39 | fails exactly when `IP_RANGE` exceeds the address bit length; otherwise the result has the base's length |
| BitAddress.RandomLocalAddressHost | src/main/java/net/skinsrestorer/mojangapi/LocalAddressProvider.java:19-39 | the bit-setting loop and the copy compute `Randomised` |
| BitAddress.PadInto | src/main/java/net/skinsrestorer/mojangapi/LocalAddressProvider.java:31-32 | fills a fresh array with the exported bytes followed by zeros |
| BitAddress.RangeZeroKeepsBase | src/main/java/net/skinsrestorer/mojangapi/LocalAddressProvider.java:25-33 | `IP_RANGE = 0` returns the base |
| BitAddress.OnlyTopBitsChange | src/main/java/net/skinsrestorer/mojangapi/LocalAddressProvider.java:21-27 | bits below `bits - IP_RANGE` are the base's |
| BitAddress.TopBitsAreDrawn | src/main/java/net/skinsrestorer/mojangapi/LocalAddressProvider.java:25-27 | each of the top `IP_RANGE` bits is its random draw |
| BitAddress.WholeBytesKept | src/main/java/net/skinsrestorer/mojangapi/LocalAddressProvider.java:25-27 | with `IP_RANGE = 8k`, the first `len - k` bytes are unchanged |
| ProxyProvider.KindOf | src/main/java/net/skinsrestorer/mojangapi/MojangProxyProvider.java:101-106 | HTTP and HTTPS become HTTP proxies; SOCKS4 and SOCKS5 keep their kind |
| ProxyProvider.JavaSplit | src/main/java/net/skinsrestorer/mojangapi/MojangProxyProvider.java:96 | a string without ':' splits into itself alone; otherwise the fields are the ':'-separated pieces with the trailing empty ones removed, none holding ':' |
| ProxyProvider.DropTrailingEmpty | src/main/java/net/skinsrestorer/mojangapi/MojangProxyProvider.java:96 | Java's `split` keeps a prefix of the pieces, drops only empty ones, and ends in a non-empty piece |
| ProxyProvider.ParseInt | src/main/java/net/skinsrestorer/mojangapi/MojangProxyProvider.java:98 | `parseInt` succeeds exactly on an optionally signed decimal in the 32-bit range |
| ProxyProvider.CreateTypeSpecFields | src/main/java/net/skinsrestorer/mojangapi/MojangProxyProvider.java:95-112 | an entry succeeds exactly with two or more fields and a numeric port; then host and port come from the first two fields, with "localhost" as the non-proxy host and a 20000 ms timeout |
| ProxyProvider.SplitHostPort | src/main/java/net/skinsrestorer/mojangapi/MojangProxyProvider.java:96 | `"h:p"` splits into `h` and `p` |
| ProxyProvider.ParsePrinted | src/main/java/net/skinsrestorer/mojangapi/MojangProxyProvider.java:98 | a printed port parses back |
| ProxyProvider.HostPortEntry | src/main/java/net/skinsrestorer/mojangapi/MojangProxyProvider.java:95-112 | `"h:p"` yields host `h` and port `p` |
| ProxyProvider.LeadingFields | src/main/java/net/skinsrestorer/mojangapi/MojangProxyProvider.java:96-98 | two colon-free fields, the second non-empty, are the first two results of `split(":")` whatever follows them |
| ProxyProvider.HostPortThenMore | src/main/java/net/skinsrestorer/mojangapi/MojangProxyProvider.java:95-112 | only the first two fields are read: `"h:p:..."` yields host `h` and port `p`, whatever follows |
| ProxyProvider.EntryWithoutColonFails | src/main/java/net/skinsrestorer/mojangapi/MojangProxyProvider.java:97-98 | an entry without ':' throws |
| ProxyProvider.SpecsOfEntries | src/main/java/net/skinsrestorer/mojangapi/MojangProxyProvider.java:62-72 | for any entry converter (`Creator(t)` is `createTypeSpec(·, t)`), a list converts exactly when every entry does, one spec per entry in order |
| ProxyProvider.FirstFailure | src/main/java/net/skinsrestorer/mojangapi/MojangProxyProvider.java:62-72 | when the entries before `i` convert and entry `i` does not, the list fails with entry `i`'s error |
| ProxyProvider.AddAll | src/main/java/net/skinsrestorer/mojangapi/MojangProxyProvider.java:62-72 | the `forEach(add)` loop, for any converter, appends one list's specs or stops at the first bad entry |
| ProxyProvider.Crawl | src/main/java/net/skinsrestorer/mojangapi/MojangProxyProvider.java:43-75 | computes `CrawlResult`: a failed fetch throws, an empty body returns `null`, and a decoded answer gives what `CrawlResponse` builds |
| ProxyProvider.CrawlResponse | src/main/java/net/skinsrestorer/mojangapi/MojangProxyProvider.java:59-73 | the four loops compute `Built`: a `null` list or a malformed entry throws, and otherwise each list is appended in the order SOCKS4, SOCKS5, HTTP, HTTPS |
| ProxyProvider.FailureSticks | src/main/java/net/skinsrestorer/mojangapi/MojangProxyProvider.java:43-75 | once one `forEach` has thrown, the later lists change nothing: the crawl ends with that exception |
| ProxyProvider.CrawlConcat | src/main/java/net/skinsrestorer/mojangapi/MojangProxyProvider.java:62-72 | a successful crawl (`creator := Creator`, or any converter) is the socks4 specs, then socks5, then http, then https |
| ProxyProvider.AppendSegments | src/main/java/net/skinsrestorer/mojangapi/MojangProxyProvider.java:62-72 | one successful `forEach` keeps the list built so far as a prefix and puts one spec per entry right after it |
| ProxyProvider.BuiltSegments | src/main/java/net/skinsrestorer/mojangapi/MojangProxyProvider.java:62-72 | after `k` successful `forEach` calls, list `j` occupies the entries after those of the lists before it, one spec per entry in order |
| ProxyProvider.CrawlOrder | src/main/java/net/skinsrestorer/mojangapi/MojangProxyProvider.java:62-72 | a successful crawl has one spec per input string: every SOCKS4 entry first, then SOCKS5, HTTP and HTTPS, each list in input order |
| ProxyProvider.MojangProxyProvider.constructor | src/main/java/net/skinsrestorer/mojangapi/MojangProxyProvider.java:30-41 | what the first crawl returns is stored (`null` for an empty body), or nothing if it threw |
| ProxyProvider.MojangProxyProvider.RunCrawl | src/main/java/net/skinsrestorer/mojangapi/MojangProxyProvider.java:31-37 | a crawl that returns replaces the list, an empty body with `null`; a crawl that throws leaves the previous list |
| ProxyProvider.MojangProxyProvider.Get | src/main/java/net/skinsrestorer/mojangapi/MojangProxyProvider.java:78-81 | with no list it throws; with an empty list it throws; otherwise it returns the element at the drawn index in `[0, size)` |
| ProxyProvider.MojangProxyProvider.Close | src/main/java/net/skinsrestorer/mojangapi/MojangProxyProvider.java:84-86 | the scheduler stops and the list stays |
| Telemetry.ZeroIsAllZero | src/utils/metrics.ts:1-17 | the zero record is exactly the one whose twelve counters are all 0 |
| Telemetry.Metrics.constructor | src/utils/metrics.ts:1-20 | all twelve counters start at 0, and both timestamps are the load time |
| Telemetry.Metrics.Reset | src/utils/metrics.ts:22-36 | all twelve counters become 0 whatever they held, so a second reset changes nothing; `startedAt` is kept and `lastReportAt` is the current time |
| DiscordWebhook.RoundedIsNearest | src/utils/discord-webhook.ts:11-12 | `toFixed(2)` rounds to the nearest hundredth, with ties going up |
| DiscordWebhook.FixedTwoReadsBack | src/utils/discord-webhook.ts:11-12 | the fixed text reads back as that number of hundredths |
| DiscordWebhook.PointTextReadsBack | src/utils/discord-webhook.ts:11-12 | any count of hundredths printed with two decimals reads back as itself |
| DiscordWebhook.FormatBytesMeaning | src/utils/discord-webhook.ts:9-13 | the text is a number, a space and a unit; "B" exactly below 1024 and then the exact count; "KB" exactly below 1048576 and "MB" otherwise, each with the rounded hundredths |
| DiscordWebhook.JsRem | src/utils/discord-webhook.ts:18-20 | JavaScript's `%` has magnitude below the divisor and takes the dividend's sign |
| DiscordWebhook.FormatUptime | src/utils/discord-webhook.ts:15-28 | the `push` loop builds exactly `UptimeText` |
| DiscordWebhook.UptimeDecomposition | src/utils/discord-webhook.ts:15-20 | `days*86400 + hours*3600 + minutes*60 + secs == floor(ms/1000)`, with hours < 24, minutes < 60 and secs < 60 |
| DiscordWebhook.UptimeReadsBack | src/utils/discord-webhook.ts:15-28 | reading the text back word by word gives the whole seconds |
| DiscordWebhook.UptimeShape | src/utils/discord-webhook.ts:22-27 | the text ends with the seconds, shows d, h, m in that order and only when positive |
| DiscordWebhook.NegativeUptimeSecondsOnly | src/utils/discord-webhook.ts:15-27 | a negative uptime shows only its (truncated, signed) seconds |
| DiscordWebhook.ReportColor | src/utils/discord-webhook.ts:53-58 | 0x2ecc71 exactly for no errors, 0xe74c3c exactly for more than 10, 0xf39c12 exactly for 1 to 10 |
| DiscordWebhook.HitRate | src/utils/discord-webhook.ts:41-48 | "N/A" exactly when there were no lookups; otherwise a percentage that is 100 exactly with no misses and 0 exactly with no hits |
| DiscordWebhook.RatioPercent | src/utils/discord-webhook.ts:47 | the percentage times the whole is 100 times the part |
| DiscordWebhook.AverageBatchSize | src/utils/discord-webhook.ts:100 | "N/A" exactly when there were no batches; otherwise the average times the batch count is the username count |
| DiscordWebhook.DiscordReporter.constructor | src/utils/discord-webhook.ts:7 | no interval is scheduled and nothing is sent |
| DiscordWebhook.DiscordReporter.Start | src/utils/discord-webhook.ts:130-138 | without a webhook nothing changes; with one, an interval is scheduled |
| DiscordWebhook.DiscordReporter.Stop | src/utils/discord-webhook.ts:140-145 | the handle is cleared; without a handle nothing changes, so stopping twice is stopping once |
| DiscordWebhook.DiscordReporter.SendReport | src/utils/discord-webhook.ts:34-128 | without a webhook neither the reporter nor the metrics change; with one, the report of the old counters is posted if the post succeeds and the metrics are reset either way |

## Left out

- The HTTP calls: the batch POST, the profile and name GETs, the proxy-list GET and the Discord POST. Each is an abstract outcome: a status with a decoded body, a thrown error flagged as AbortError or not, a thrown, empty or decoded proxy answer, or a success flag. Byte counting, the 15 s timeout and the agents built in `http-client.ts` are not modelled.
- JSON decoding: bodies are already-decoded datatypes. A body that is not a list is its own case.
- Timers and scheduling: `setInterval`, the batch interval's 3 s period, the report's 5 minutes and the Java executor's 6-hour delay. They are explicit `Tick`, `SendReport` and `RunCrawl` calls.
- Concurrency and `await` interleaving: each operation runs to completion. In particular, the wait between the cache read and the push in `addRequest` is not modelled.
- Randomness: `Math.random`, `ThreadLocalRandom` and `SecureRandom` are parameters (a draw in `[0, 1)`, coin flips, an index).
- The DNS lookup of `IP_BASE` in the Java provider: the model starts from the address bytes.
- Unicode: `toLowerCase` is ASCII lowercasing. Java's `parseInt` of non-ASCII digits is not modelled.
- Leniency of JavaScript's `Number()` and `parseInt` (whitespace, `+`, hex, exponents, fractions) when reading `IP_RANGE` and the address parts. A part is a plain decimal, and a `NaN` range is its own case.
- LocalAddressChoice.RandomLocalAddress: a valid base with a positive range is stated through `ChosenAddressInRange` and not in the function's own contract.
- The `lru-cache` rule that an entry whose start time is 0 never goes stale.
- Float output: the `toFixed(1)` text of the hit rate and the average are exact reals here. Req/min, load averages, memory figures, `toLocaleString`, the embed's title, footer and timestamp, and the report period are also out.
- `formatBytes` for counts of 2^53 and above, where a double is no longer exact.
- `process.exit` after `shutdown`, and the final flush's upstream call, which is never awaited.
- The Hono and Armeria wiring, the rate limiter, the health route, the OpenAPI document, `MojangAPIProxyService.java`, `DatabaseManager.java`, `ThrottlingDecorator.java` and the Java `CacheManager.java`. They are wiring or library wrappers, and none is part of this model.
- Console logging.
- `MojangApi.GetUuid` models the name route as intended, with a name endpoint defined: the upstream request is reported as the name asked for, not as a URL. As written, every miss fails before the request (see Findings).
- The name route does not go through the batch processor, and neither does the model.
- A second `startDiscordReporter` overwrites the handle and leaks the first interval. This is modelled: `liveIntervals` counts running intervals.

## Findings

| source | as written | input that shows it | evidently intended | confidence | as-written member | corrected member |
|---|---|---|---|---|---|---|
| src/routes/mojang-api.ts:42 | `MOJANG_API.UUID_URL.replace('%s', name)`, but `MOJANG_API` in `src/utils/types.ts` defines no `UUID_URL`, so the call throws a `TypeError` on every cache miss | any valid name not in the cache, e.g. one the upstream answers 404 for: 500 `INTERNAL_ERROR`, nothing cached | a name endpoint such as the Java service's `https://api.mojang.com/users/profiles/minecraft/%s`, so a 404 answers `exists:false` and is cached | high; not executed | MojangApi.NameMissAsWritten, MojangApi.NameMissAsWrittenDiffers | MojangApi.NameMiss |
