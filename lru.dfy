/**
 * The behaviour of the `lru-cache` package as src/cache-manager.ts configures
 * it (`max` entries, `ttl` milliseconds, no other options), written as a value:
 * the stored slots by key, and the keys from least to most recently used.
 *
 * - `set` of a present key overwrites it, restarts its clock and makes it most recent;
 * - `set` of a new key into a full cache first evicts the least recently used key;
 * - `get` of a key whose age exceeds `ttl` is a miss and deletes the key;
 * - `get` of a live key returns it and makes it most recent;
 * - `clear` empties the cache.
 *
 * Ages are measured on the package's own clock (`now`), from the moment of the
 * last `set` of the key.
 */
module LruCache {
  import opened Wrappers

  /** A stored value and the clock reading of the `set` that stored it. */
  datatype Slot<V> = Slot(value: V, start: int)

  predicate Distinct(s: seq<string>) {
    forall i, j :: 0 <= i < j < |s| ==> s[i] != s[j]
  }

  /** `s` without the occurrences of `k`, the other keys in their order. */
  function Without(s: seq<string>, k: string): (r: seq<string>)
    ensures forall x :: x in r <==> x in s && x != k
    ensures k !in s ==> r == s
    ensures Distinct(s) ==> Distinct(r)
    ensures Distinct(s) && k in s ==> |r| == |s| - 1
    ensures |r| <= |s|
  {
    if s == [] then []
    else if s[0] == k then Without(s[1..], k)
    else
      var rest := Without(s[1..], k);
      assert Distinct(s) ==> Distinct(s[1..]) && s[0] !in s[1..] by {
        if Distinct(s) {
          assert forall j :: 1 <= j < |s| ==> s[0] != s[j];
        }
      }
      assert forall j :: 0 <= j < |rest| ==> rest[j] in s[1..];
      [s[0]] + rest
  }

  datatype Lru<V> = Lru(max: nat, ttl: nat, slots: map<string, Slot<V>>, order: seq<string>)
  {
    /** Every stored key appears once in the recency order, and there are at most `max` of them. */
    ghost predicate Valid() {
      && max > 0
      && ttl > 0
      && |order| <= max
      && Distinct(order)
      && (forall k :: k in slots <==> k in order)
    }

    /** The package's staleness test: older than `ttl` on its own clock. */
    predicate IsStale(k: string, now: int)
      requires k in slots
    {
      now - slots[k].start > ttl
    }

    /** `cache.set(k, v)` at clock reading `now`. */
    function Set(k: string, v: V, now: int): Lru<V> {
      if k in slots then
        Lru(max, ttl, slots[k := Slot(v, now)], Without(order, k) + [k])
      else if |order| >= max && |order| > 0 then
        Lru(max, ttl, (slots - {order[0]})[k := Slot(v, now)], order[1..] + [k])
      else
        Lru(max, ttl, slots[k := Slot(v, now)], order + [k])
    }

    /** What `cache.get(k)` returns at clock reading `now`. */
    function Lookup(k: string, now: int): Option<V> {
      if k !in slots || IsStale(k, now) then None else Some(slots[k].value)
    }

    /** The cache after `cache.get(k)` at clock reading `now`. */
    function AfterGet(k: string, now: int): Lru<V> {
      if k !in slots then this
      else if IsStale(k, now) then Lru(max, ttl, slots - {k}, Without(order, k))
      else Lru(max, ttl, slots, Without(order, k) + [k])
    }

    /** `cache.clear()`. */
    function Clear(): Lru<V> {
      Lru(max, ttl, map[], [])
    }
  }

  /** An empty cache with the given bounds. */
  function Empty<V>(max: nat, ttl: nat): (c: Lru<V>)
    requires max > 0 && ttl > 0
    ensures c.Valid() && c.slots == map[]
  {
    Lru(max, ttl, map[], [])
  }

  /** `set` keeps the cache well formed, and so within `max` entries. */
  lemma SetKeepsValid<V>(c: Lru<V>, k: string, v: V, now: int)
    requires c.Valid()
    ensures c.Set(k, v, now).Valid()
  {
    var d := c.Set(k, v, now);
    if k !in c.slots && |c.order| >= c.max {
      assert c.order == [c.order[0]] + c.order[1..];
      forall x ensures x in d.slots <==> x in d.order {
        if x != k && x in c.order[1..] {
          assert x != c.order[0];
        }
      }
    }
  }

  /** `get` keeps the cache well formed. */
  lemma AfterGetKeepsValid<V>(c: Lru<V>, k: string, now: int)
    requires c.Valid()
    ensures c.AfterGet(k, now).Valid()
  {
  }

  /** The number of entries never exceeds `max`. */
  lemma SizeAtMostMax<V>(c: Lru<V>)
    requires c.Valid()
    ensures |c.slots| <= c.max
  {
    assert c.slots.Keys == set x | x in c.order;
    DistinctCard(c.order);
  }

  lemma {:induction false} DistinctCard(s: seq<string>)
    requires Distinct(s)
    ensures |set x | x in s| == |s|
  {
    if s != [] {
      DistinctCard(s[1..]);
      assert (set x | x in s) == {s[0]} + (set x | x in s[1..]);
    }
  }

  /** Where a key sits in the recency order, counted from the least recently used end. */
  function Position(s: seq<string>, key: string): (r: nat)
    requires key in s
    ensures r < |s| && s[r] == key
  {
    if s[0] == key then 0 else 1 + Position(s[1..], key)
  }

  /** In an order without repeats, a key has one position. */
  lemma PositionUnique(s: seq<string>, key: string, j: nat)
    requires Distinct(s) && j < |s| && s[j] == key
    ensures Position(s, key) == j
  {
  }

  /** Removing another key moves a key at most one place towards the least recent end. */
  lemma {:induction false} WithoutPosition(s: seq<string>, k: string, key: string)
    requires Distinct(s) && key in s && key != k
    ensures key in Without(s, k)
    ensures Position(Without(s, k), key) + 1 >= Position(s, key)
  {
    if s[0] != key && s[0] != k {
      WithoutPosition(s[1..], k, key);
      assert Without(s, k) == [s[0]] + Without(s[1..], k);
    } else if s[0] == k {
      assert forall j :: 1 <= j < |s| ==> s[j] != k;
      assert Without(s[1..], k) == s[1..];
    }
  }

  /** Adding a key at the most recent end leaves the others where they were. */
  lemma {:induction false} AppendPosition(s: seq<string>, k: string, key: string)
    requires key in s
    ensures Position(s + [k], key) == Position(s, key)
  {
    if s[0] != key {
      assert (s + [k])[1..] == s[1..] + [k];
      AppendPosition(s[1..], k, key);
    }
  }

  /**
   * Setting another key keeps a stored key's value and puts at most one more
   * key after it in the recency order, unless the key is the one evicted.
   */
  lemma SetKeepsNewer<V>(c: Lru<V>, k: string, v: V, now: int, key: string)
    requires c.Valid() && key != k && key in c.slots
    requires k in c.slots || |c.order| < c.max || c.order[0] != key
    ensures key in c.Set(k, v, now).slots && c.Set(k, v, now).slots[key] == c.slots[key]
    ensures key in c.Set(k, v, now).order
    ensures |c.Set(k, v, now).order| - Position(c.Set(k, v, now).order, key)
            <= |c.order| - Position(c.order, key) + 1
  {
    var d := c.Set(k, v, now);
    SetKeepsValid(c, k, v, now);
    if k in c.slots {
      WithoutPosition(c.order, k, key);
      AppendPosition(Without(c.order, k), k, key);
    } else if |c.order| >= c.max && |c.order| > 0 {
      assert c.order[1..][Position(c.order, key) - 1] == key;
      PositionUnique(c.order[1..], key, Position(c.order, key) - 1);
      AppendPosition(c.order[1..], k, key);
    } else {
      AppendPosition(c.order, k, key);
    }
  }

  /** A key just set is the most recently used one. */
  lemma SetIsNewest<V>(c: Lru<V>, k: string, v: V, now: int)
    requires c.Valid()
    ensures k in c.Set(k, v, now).order
    ensures Position(c.Set(k, v, now).order, k) == |c.Set(k, v, now).order| - 1
  {
    SetKeepsValid(c, k, v, now);
    var d := c.Set(k, v, now);
    PositionUnique(d.order, k, |d.order| - 1);
  }

  /** A stored value is read back until it is older than `ttl`, and is a miss afterwards. */
  lemma SetThenLookup<V>(c: Lru<V>, k: string, v: V, now: int, later: int)
    ensures c.Set(k, v, now).Lookup(k, later) == if later - now <= c.ttl then Some(v) else None
  {
  }

  /** Setting one key leaves every other live entry as it was, unless the other key was evicted. */
  lemma SetKeepsOthers<V>(c: Lru<V>, k: string, v: V, now: int, other: string)
    requires c.Valid() && other != k && other in c.slots
    requires k in c.slots || |c.order| < c.max || other != c.order[0]
    ensures other in c.Set(k, v, now).slots
    ensures c.Set(k, v, now).slots[other] == c.slots[other]
  {
  }

  /** Inserting a new key into a full cache evicts exactly the least recently used key. */
  lemma SetEvictsLeastRecent<V>(c: Lru<V>, k: string, v: V, now: int)
    requires c.Valid() && k !in c.slots && |c.order| == c.max
    ensures c.Set(k, v, now).slots.Keys == c.slots.Keys - {c.order[0]} + {k}
    ensures c.Set(k, v, now).order == c.order[1..] + [k]
  {
  }

  /** A live `get` makes the key the most recently used one and changes nothing stored. */
  lemma GetRefreshesRecency<V>(c: Lru<V>, k: string, now: int)
    requires c.Valid() && k in c.slots && !c.IsStale(k, now)
    ensures c.AfterGet(k, now).slots == c.slots
    ensures c.AfterGet(k, now).order[|c.AfterGet(k, now).order| - 1] == k
  {
  }

  /** A stale `get` is a miss and removes the key. */
  lemma StaleGetDeletes<V>(c: Lru<V>, k: string, now: int)
    requires k in c.slots && c.IsStale(k, now)
    ensures c.Lookup(k, now) == None
    ensures k !in c.AfterGet(k, now).slots
  {
  }
}
