/**
 * src/cache-manager.ts: two independent expiring LRU caches, one from player
 * names to ids and one from ids to skin properties. Keys are lowered on every
 * put and get; each entry records its creation time in whole epoch seconds and
 * a value that may be `null`, a cached "does not exist" that differs from a miss.
 */
module Caching {
  import opened Wrappers
  import opened Ascii
  import opened LruCache

  /** `max: 10000` for both caches. */
  const MAX_ENTRIES: nat := 10000
  /** `ttl: 1000 * 60 * 60 * 6` (six hours) for both caches. */
  const TTL_MS: nat := 1000 * 60 * 60 * 6

  datatype SkinProperty = SkinProperty(value: string, signature: string)

  /** `DatabaseResult<T>`: the creation second and the value, `None` standing for `null`. */
  datatype DatabaseResult<T> = DatabaseResult(createdAt: int, value: Option<T>)

  /** `Math.floor(createdAt.getTime() / 1000)`: the whole second a millisecond timestamp falls in. */
  function CreatedAtSeconds(ms: int): (s: int)
    ensures s * 1000 <= ms < s * 1000 + 1000
  {
    ms / 1000
  }

  /** The entry a put stores for a value given at the millisecond timestamp `createdAtMs`. */
  function Record<T>(value: Option<T>, createdAtMs: int): DatabaseResult<T> {
    DatabaseResult(CreatedAtSeconds(createdAtMs), value)
  }

  ghost predicate IsConfigured<V>(c: Lru<V>) {
    c.Valid() && c.max == MAX_ENTRIES && c.ttl == TTL_MS
  }

  class CacheManager {
    var nameToUuid: Lru<DatabaseResult<string>>
    var uuidToSkin: Lru<DatabaseResult<SkinProperty>>

    ghost predicate Valid()
      reads this
    {
      IsConfigured(nameToUuid) && IsConfigured(uuidToSkin)
    }

    /** `createCacheManager()`: two empty caches. */
    constructor ()
      ensures Valid()
      ensures nameToUuid.slots == map[] && uuidToSkin.slots == map[]
    {
      nameToUuid := Empty(MAX_ENTRIES, TTL_MS);
      uuidToSkin := Empty(MAX_ENTRIES, TTL_MS);
    }

    /** `putNameToUUID(name, uuid, createdAt)`, the name cache's clock reading `now`. */
    method PutNameToUuid(name: string, uuid: Option<string>, createdAtMs: int, now: int)
      requires Valid()
      modifies this
      ensures Valid()
      ensures nameToUuid == old(nameToUuid).Set(Lower(name), Record(uuid, createdAtMs), now)
      ensures uuidToSkin == old(uuidToSkin)
    {
      SetKeepsValid(nameToUuid, Lower(name), Record(uuid, createdAtMs), now);
      nameToUuid := nameToUuid.Set(Lower(name), Record(uuid, createdAtMs), now);
    }

    /** `getNameToUUID(name)`: the live entry under the lowered name, or a miss. */
    method GetNameToUuid(name: string, now: int) returns (r: Option<DatabaseResult<string>>)
      requires Valid()
      modifies this
      ensures Valid()
      ensures r == old(nameToUuid).Lookup(Lower(name), now)
      ensures nameToUuid == old(nameToUuid).AfterGet(Lower(name), now)
      ensures uuidToSkin == old(uuidToSkin)
    {
      r := nameToUuid.Lookup(Lower(name), now);
      AfterGetKeepsValid(nameToUuid, Lower(name), now);
      nameToUuid := nameToUuid.AfterGet(Lower(name), now);
    }

    /** `putUUIDToSkin(uuid, skinProperty, createdAt)`, the skin cache's clock reading `now`. */
    method PutUuidToSkin(uuid: string, skinProperty: Option<SkinProperty>, createdAtMs: int, now: int)
      requires Valid()
      modifies this
      ensures Valid()
      ensures uuidToSkin == old(uuidToSkin).Set(Lower(uuid), Record(skinProperty, createdAtMs), now)
      ensures nameToUuid == old(nameToUuid)
    {
      SetKeepsValid(uuidToSkin, Lower(uuid), Record(skinProperty, createdAtMs), now);
      uuidToSkin := uuidToSkin.Set(Lower(uuid), Record(skinProperty, createdAtMs), now);
    }

    /** `getUUIDToSkin(uuid)`: the live entry under the lowered id, or a miss. */
    method GetUuidToSkin(uuid: string, now: int) returns (r: Option<DatabaseResult<SkinProperty>>)
      requires Valid()
      modifies this
      ensures Valid()
      ensures r == old(uuidToSkin).Lookup(Lower(uuid), now)
      ensures uuidToSkin == old(uuidToSkin).AfterGet(Lower(uuid), now)
      ensures nameToUuid == old(nameToUuid)
    {
      r := uuidToSkin.Lookup(Lower(uuid), now);
      AfterGetKeepsValid(uuidToSkin, Lower(uuid), now);
      uuidToSkin := uuidToSkin.AfterGet(Lower(uuid), now);
    }

    /** `close()`: both caches emptied. */
    method Close()
      requires Valid()
      modifies this
      ensures Valid()
      ensures nameToUuid == old(nameToUuid).Clear() && uuidToSkin == old(uuidToSkin).Clear()
      ensures nameToUuid.slots == map[] && uuidToSkin.slots == map[]
    {
      nameToUuid := nameToUuid.Clear();
      uuidToSkin := uuidToSkin.Clear();
    }
  }

  /**
   * Name-cache round trip: a put followed by a get of the same name in any
   * case returns the creation second and the value, `null` included, until the
   * entry is older than six hours.
   */
  lemma NameRoundTrip(c: Lru<DatabaseResult<string>>, name: string, asked: string,
                      uuid: Option<string>, createdAtMs: int, now: int, later: int)
    requires IsConfigured(c) && SameIgnoringCase(name, asked)
    ensures c.Set(Lower(name), Record(uuid, createdAtMs), now).Lookup(Lower(asked), later)
         == if later - now <= TTL_MS then Some(DatabaseResult(createdAtMs / 1000, uuid)) else None
  {
    SetThenLookup(c, Lower(name), Record(uuid, createdAtMs), now, later);
  }

  /** Skin-cache keys are lowered too: ids that differ only in case share one entry. */
  lemma SkinRoundTrip(c: Lru<DatabaseResult<SkinProperty>>, uuid: string, asked: string,
                      skin: Option<SkinProperty>, createdAtMs: int, now: int, later: int)
    requires IsConfigured(c) && SameIgnoringCase(uuid, asked)
    ensures c.Set(Lower(uuid), Record(skin, createdAtMs), now).Lookup(Lower(asked), later)
         == if later - now <= TTL_MS then Some(DatabaseResult(createdAtMs / 1000, skin)) else None
  {
    SetThenLookup(c, Lower(uuid), Record(skin, createdAtMs), now, later);
  }

  /** A cached `null` is an entry: the get returns it rather than a miss. */
  lemma NullIsCachedNotMissing(c: Lru<DatabaseResult<string>>, name: string, createdAtMs: int, now: int)
    requires IsConfigured(c)
    ensures c.Set(Lower(name), Record(None, createdAtMs), now).Lookup(Lower(name), now).Some?
    ensures c.Set(Lower(name), Record(None, createdAtMs), now).Lookup(Lower(name), now).value.value.None?
  {
    SetThenLookup(c, Lower(name), Record(None, createdAtMs), now, now);
  }
}
