/**
 * The in-memory TTL store (internal/cache/cache.go), one method at a time.
 *
 * `written` is the plain map a caller thinks it is using: only Set, Delete and Clear
 * change it. Eviction, lazy or periodic, only ever touches `items`.
 */
module MemoryCache {
  import opened Wrappers

  /** Serialized value and the last instant at which it is served. */
  datatype Entry = Entry(value: string, expiration: int)

  type Items = map<string, Entry>

  predicate Expired(e: Entry, now: int) {
    now > e.expiration
  }

  /** What a reader of a map sees at an instant. */
  function LiveEntry(m: Items, key: string, now: int): Option<Entry> {
    if key in m && !Expired(m[key], now) then Some(m[key]) else None
  }

  function LiveItems(m: Items, now: int): Items {
    map k | k in m && !Expired(m[k], now) :: m[k]
  }

  function Evict(m: Items, key: string, now: int): Items {
    if key in m && Expired(m[key], now) then m - {key} else m
  }

  /** Nothing is stored that was not written, and only expired entries are missing. */
  ghost predicate Simulates(items: Items, written: Items, clock: int) {
    && items.Keys <= written.Keys
    && (forall k <- items :: items[k] == written[k])
    && (forall k <- written :: k !in items ==> Expired(written[k], clock))
  }

  /** Under the simulation both maps read the same, now and at every later instant. */
  lemma SimulationReadsTheSame(items: Items, written: Items, clock: int, now: int)
    requires Simulates(items, written, clock) && clock <= now
    ensures Simulates(items, written, now)
    ensures forall k :: LiveEntry(items, k, now) == LiveEntry(written, k, now)
    ensures LiveItems(items, now) == LiveItems(written, now)
  {
  }

  datatype Error = ContextDone | MarshalFailed | DecodeFailed

  datatype ReadResult = Hit(value: string) | Miss | Failed(error: Error)

  class Cache {
    var items: Items
    ghost var written: Items
    ghost var clock: int

    ghost predicate Valid()
      reads this
    {
      Simulates(items, written, clock)
    }

    constructor (ghost now: int)
      ensures Valid() && items == map[] && written == map[] && clock == now
    {
      items, written, clock := map[], map[], now;
    }

    /** data is the serialized value, if it serializes; the context is read before and under the lock. */
    method SetContext(key: string, data: Option<string>, ttl: int, doneBefore: bool, doneLocked: bool, now: int)
      returns (error: Option<Error>)
      requires Valid() && clock <= now
      modifies this
      ensures Valid() && clock == now
      ensures error == if doneBefore then Some(ContextDone)
                       else if data == None then Some(MarshalFailed)
                       else if doneLocked then Some(ContextDone) else None
      ensures written == if error == None then old(written)[key := Entry(data.value, now + ttl)] else old(written)
      ensures error.Some? ==> items == old(items)
    {
      clock := now;
      if doneBefore {
        return Some(ContextDone);
      }
      if data == None {
        return Some(MarshalFailed);
      }
      if doneLocked {
        return Some(ContextDone);
      }
      items := items[key := Entry(data.value, now + ttl)];
      written := written[key := Entry(data.value, now + ttl)];
      return None;
    }

    method DeleteIfStillExpired(key: string, now: int)
      requires Valid() && clock <= now
      modifies this`items, this`clock
      ensures Valid() && clock == now
      ensures items == Evict(old(items), key, now)
      ensures key in items ==> now <= items[key].expiration
      ensures key in old(items) && now <= old(items)[key].expiration ==> items == old(items)
      ensures items - {key} == old(items) - {key}
    {
      clock := now;
      if key !in items || !Expired(items[key], now) {
        return;
      }
      items := items - {key};
    }

    /**
     * A read with nobody in between. done lists what the four context checks find, first and
     * second are the two clock readings, decodes whether the stored bytes unmarshal.
     */
    method GetContext(key: string, done: (bool, bool, bool, bool), first: int, second: int, decodes: bool)
      returns (result: ReadResult)
      requires Valid() && clock <= first <= second
      modifies this`items, this`clock
      ensures Valid()
      ensures result.Hit? ==> LiveEntry(written, key, first).Some? && LiveEntry(written, key, first).value.value == result.value
      ensures result.Miss? ==> LiveEntry(written, key, first) == None
      ensures LiveItems(items, second) == LiveItems(old(items), second)
      ensures !done.0 && !done.1 && !done.2 && !done.3 && decodes ==>
        (result.Hit? <==> LiveEntry(written, key, first).Some?) && (result.Miss? <==> LiveEntry(written, key, first) == None)
      ensures result ==
        if done.0 || done.1 then Failed(ContextDone)
        else if key !in old(items) then Miss
        else if old(items)[key].expiration < first then (if done.2 then Failed(ContextDone) else Miss)
        else if done.3 then Failed(ContextDone)
        else if decodes then Hit(old(items)[key].value) else Failed(DecodeFailed)
      ensures items ==
        if !done.0 && !done.1 && key in old(items) && old(items)[key].expiration < first then old(items) - {key} else old(items)
    {
      if done.0 {
        return Failed(ContextDone);
      }
      var present := key in items;
      var found := if present then items[key] else Entry("", 0);
      if done.1 {
        return Failed(ContextDone);
      }
      if !present {
        return Miss;
      }
      clock := first;
      if Expired(found, first) {
        DeleteIfStillExpired(key, second);
        return if done.2 then Failed(ContextDone) else Miss;
      }
      if done.3 {
        return Failed(ContextDone);
      }
      if !decodes {
        return Failed(DecodeFailed);
      }
      return Hit(found.value);
    }

    method Delete(key: string)
      requires Valid()
      modifies this`items, this`written
      ensures Valid() && written == old(written) - {key} && items == old(items) - {key}
    {
      items, written := items - {key}, written - {key};
    }

    method Clear()
      requires Valid()
      modifies this`items, this`written
      ensures Valid() && items == map[] && written == map[]
    {
      items, written := map[], map[];
    }

    /** Removes exactly the expired entries, whatever order the map is walked in. */
    method Cleanup(now: int)
      requires Valid() && clock <= now
      modifies this`items, this`clock
      ensures Valid() && clock == now
      ensures items == LiveItems(old(items), now)
      ensures forall k :: k in items <==> k in old(items) && now <= old(items)[k].expiration
      ensures forall k <- items :: items[k] == old(items)[k]
    {
      clock := now;
      var keys := items.Keys;
      while keys != {}
        invariant clock == now && keys <= old(items).Keys
        invariant items.Keys == set k | k in old(items) && (k in keys || !Expired(old(items)[k], now))
        invariant forall k <- items :: items[k] == old(items)[k]
        decreases keys
      {
        var k :| k in keys;
        if Expired(items[k], now) {
          items := items - {k};
        }
        keys := keys - {k};
      }
      assert items.Keys == LiveItems(old(items), now).Keys;
      assert items == LiveItems(old(items), now);
    }
  }
}
