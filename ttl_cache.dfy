/** The timed memo of a `#[cached(time = ..., result = true)]` function with
    a fixed key: one slot holding the last `Ok` value and the second it was
    stored. Time is an integer count of seconds. */
module TtlCache {
  import opened Wrappers

  datatype Stamped<V> = Stamped(value: V, storedAt: int)

  /** The slot still answers at `now`: an entry younger than `ttl` seconds. */
  predicate Live<V>(slot: Option<Stamped<V>>, ttl: nat, now: int)
  {
    slot.Some? && now - slot.value.storedAt < ttl
  }

  /** What a call at `now` returns when the upstream fetch would give
      `fetched`: the stored value on a hit, otherwise the fetch's outcome. */
  function Serve<V>(slot: Option<Stamped<V>>, ttl: nat, now: int, fetched: Result<V>): Result<V>
  {
    if Live(slot, ttl, now) then Ok(slot.value.value) else fetched
  }

  /** The slot after that call: unchanged on a hit; on a miss the expired
      entry is dropped and an `Ok` outcome is stored, stamped `at`. */
  function After<V>(slot: Option<Stamped<V>>, ttl: nat, now: int, at: int, fetched: Result<V>): Option<Stamped<V>>
  {
    if Live(slot, ttl, now) then slot
    else if fetched.Ok? then Some(Stamped(fetched.value, at))
    else None
  }

  class TimedCache<V> {
    const ttl: nat
    var slot: Option<Stamped<V>>

    constructor (ttl: nat)
      ensures this.ttl == ttl && slot == None
    {
      this.ttl := ttl;
      slot := None;
    }

    /** The cache lookup: a hit returns the stored value; an expired entry
        is removed. */
    method CacheGet(now: int) returns (hit: Option<V>)
      modifies this`slot
      ensures hit == if Live(old(slot), ttl, now) then Some(old(slot).value.value) else None
      ensures slot == if Live(old(slot), ttl, now) then old(slot) else None
    {
      if Live(slot, ttl, now) {
        hit := Some(slot.value.value);
      } else {
        hit := None;
        slot := None;
      }
    }

    method CacheSet(value: V, at: int)
      modifies this`slot
      ensures slot == Some(Stamped(value, at))
    {
      slot := Some(Stamped(value, at));
    }

    /** The wrapper the attribute generates: look up; on a miss run the
        fetch (whose outcome is `fetched`) and store it only if it is `Ok`.
        `didFetch` tells whether the fetch ran. */
    method GetOrFetch(now: int, at: int, fetched: Result<V>) returns (r: Result<V>, didFetch: bool)
      modifies this`slot
      ensures didFetch == !Live(old(slot), ttl, now)
      ensures r == Serve(old(slot), ttl, now, fetched)
      ensures slot == After(old(slot), ttl, now, at, fetched)
    {
      var hit := CacheGet(now);
      if hit.Some? {
        r := Ok(hit.value);
        didFetch := false;
      } else {
        didFetch := true;
        r := fetched;
        if r.Ok? {
          CacheSet(r.value, at);
        }
      }
    }
  }

  /** After a miss whose fetch succeeded, every call within `ttl` seconds of
      the store returns that value without fetching, whatever a fetch would
      have given. */
  lemma ReusedWithinTtl<V>(slot: Option<Stamped<V>>, ttl: nat, now: int, at: int, fetched: Result<V>, later: int, refetched: Result<V>)
    requires !Live(slot, ttl, now) && fetched.Ok?
    requires at <= later < at + ttl
    ensures Live(After(slot, ttl, now, at, fetched), ttl, later)
    ensures Serve(After(slot, ttl, now, at, fetched), ttl, later, refetched) == fetched
    ensures After(After(slot, ttl, now, at, fetched), ttl, later, later, refetched) == After(slot, ttl, now, at, fetched)
  {
  }

  /** A failed fetch is not stored: it leaves the slot empty, and the next
      call fetches again and returns that fetch's outcome. */
  lemma ErrorNotStored<V>(slot: Option<Stamped<V>>, ttl: nat, now: int, at: int, fetched: Result<V>, later: int, refetched: Result<V>)
    requires !Live(slot, ttl, now) && fetched.Err?
    ensures Serve(slot, ttl, now, fetched) == fetched
    ensures After(slot, ttl, now, at, fetched) == None
    ensures !Live(After(slot, ttl, now, at, fetched), ttl, later)
    ensures Serve(After(slot, ttl, now, at, fetched), ttl, later, refetched) == refetched
  {
  }

  /** An entry `ttl` or more seconds old is never served, not even when the
      fetch fails: the failure is returned instead of the stale value. */
  lemma ExpiredNotServed<V>(v: V, storedAt: int, ttl: nat, now: int, at: int, fetched: Result<V>)
    requires now >= storedAt + ttl
    ensures Serve(Some(Stamped(v, storedAt)), ttl, now, fetched) == fetched
    ensures fetched.Err? ==> After(Some(Stamped(v, storedAt)), ttl, now, at, fetched) == None
  {
  }
}
