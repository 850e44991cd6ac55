/** The process-wide key/value cache with lazy expiry. The freshness window is
    chosen by each reader, not stored with the entry; a read that finds an entry
    older than its window deletes it. The clock is an explicit `now` (milliseconds). */
module Cache {
  import opened Wrappers

  datatype CacheEntry<T> = CacheEntry(data: T, timestamp: int)

  type Store<T> = map<string, CacheEntry<T>>

  /** The entry under `key` is older than the reader's window. */
  predicate Expired<T>(m: Store<T>, key: string, ttlMs: int, now: int)
    requires key in m
  {
    now - m[key].timestamp > ttlMs
  }

  /** What `get(key, ttlMs)` returns at time `now`. */
  function Lookup<T>(m: Store<T>, key: string, ttlMs: int, now: int): Option<T> {
    if key !in m then None
    else if Expired(m, key, ttlMs, now) then None
    else Some(m[key].data)
  }

  /** The store after `get(key, ttlMs)` at time `now`: a stale entry is gone. */
  function AfterLookup<T>(m: Store<T>, key: string, ttlMs: int, now: int): Store<T> {
    if key in m && Expired(m, key, ttlMs, now) then m - {key} else m
  }

  /** The store after `set(key, data)` at time `now`. */
  function Stored<T>(m: Store<T>, key: string, data: T, now: int): Store<T> {
    m[key := CacheEntry(data, now)]
  }

  class SimpleCache<T> {
    var entries: Store<T>

    constructor ()
      ensures entries == map[]
    {
      entries := map[];
    }

    method Get(key: string, ttlMs: int, now: int) returns (r: Option<T>)
      modifies this
      ensures r == Lookup(old(entries), key, ttlMs, now)
      ensures entries == AfterLookup(old(entries), key, ttlMs, now)
    {
      if key !in entries {
        return None;
      }
      var entry := entries[key];
      if now - entry.timestamp > ttlMs {
        entries := entries - {key};
        return None;
      }
      r := Some(entry.data);
    }

    method Set(key: string, data: T, now: int)
      modifies this
      ensures entries == Stored(old(entries), key, data, now)
    {
      entries := entries[key := CacheEntry(data, now)];
    }

    method Clear()
      modifies this
      ensures entries == map[]
    {
      entries := map[];
    }
  }

  /** A value just written is read back by any reader with a non-negative window,
      and that read changes nothing. */
  lemma SetThenGet<T>(m: Store<T>, key: string, data: T, now: int, ttlMs: int)
    requires ttlMs >= 0
    ensures Lookup(Stored(m, key, data, now), key, ttlMs, now) == Some(data)
    ensures AfterLookup(Stored(m, key, data, now), key, ttlMs, now) == Stored(m, key, data, now)
  {
  }

  /** Expiry is strict: an entry exactly `ttlMs` old is still served. */
  lemma ExactAgeIsHit<T>(m: Store<T>, key: string, ttlMs: int, now: int)
    requires key in m && now - m[key].timestamp == ttlMs
    ensures Lookup(m, key, ttlMs, now) == Some(m[key].data)
    ensures AfterLookup(m, key, ttlMs, now) == m
  {
  }

  /** A stale read misses and removes exactly that key. */
  lemma StaleReadDeletes<T>(m: Store<T>, key: string, ttlMs: int, now: int)
    requires key in m && now - m[key].timestamp > ttlMs
    ensures Lookup(m, key, ttlMs, now) == None
    ensures AfterLookup(m, key, ttlMs, now).Keys == m.Keys - {key}
    ensures forall k :: k in m && k != key ==> AfterLookup(m, key, ttlMs, now)[k] == m[k]
  {
  }

  /** Only a stale read changes the store: a miss or a fresh hit leaves it as it was. */
  lemma OnlyStaleReadsChange<T>(m: Store<T>, key: string, ttlMs: int, now: int)
    ensures AfterLookup(m, key, ttlMs, now) != m <==> key in m && now - m[key].timestamp > ttlMs
    ensures Lookup(m, key, ttlMs, now).Some? <==> AfterLookup(m, key, ttlMs, now) == m && key in m
  {
    if key in m && now - m[key].timestamp > ttlMs {
      assert key !in AfterLookup(m, key, ttlMs, now);
    }
  }

  /** The window belongs to the reader: the same entry serves a reader whose window
      covers its age, and a reader with a narrower window misses and evicts it, after
      which even the wider window misses. */
  lemma ReaderChosenTtl<T>(m: Store<T>, key: string, narrow: int, wide: int, now: int)
    requires key in m && narrow < now - m[key].timestamp <= wide
    ensures Lookup(m, key, wide, now) == Some(m[key].data)
    ensures Lookup(m, key, narrow, now) == None
    ensures Lookup(AfterLookup(m, key, narrow, now), key, wide, now) == None
  {
  }

  /** `set` overwrites: last write wins, with a fresh timestamp, and nothing else moves. */
  lemma SetOverwrites<T>(m: Store<T>, key: string, first: T, second: T, t1: int, t2: int)
    ensures Stored(Stored(m, key, first, t1), key, second, t2) == Stored(m, key, second, t2)
    ensures Stored(m, key, second, t2)[key] == CacheEntry(second, t2)
    ensures forall k :: k != key ==> (k in Stored(m, key, second, t2) <==> k in m)
    ensures forall k :: k != key && k in m ==> Stored(m, key, second, t2)[k] == m[k]
  {
  }

  /** One call on the cache, with its own clock reading. */
  datatype Op<T> = GetOp(key: string, ttlMs: int, at: int) | SetOp(key: string, data: T, at: int) | ClearOp

  function Apply<T>(m: Store<T>, op: Op<T>): Store<T> {
    match op
    case GetOp(k, ttl, at) => AfterLookup(m, k, ttl, at)
    case SetOp(k, v, at) => Stored(m, k, v, at)
    case ClearOp => map[]
  }

  /** The store after a sequence of calls. */
  function Replay<T>(m: Store<T>, ops: seq<Op<T>>): Store<T>
    decreases |ops|
  {
    if ops == [] then m else Replay(Apply(m, ops[0]), ops[1..])
  }

  /** What each call of the sequence returns (`None` for `set` and `clear`). */
  function Observed<T>(m: Store<T>, ops: seq<Op<T>>): (r: seq<Option<T>>)
    ensures |r| == |ops|
    decreases |ops|
  {
    if ops == [] then []
    else
      var first := match ops[0]
        case GetOp(k, ttl, at) => Lookup(m, k, ttl, at)
        case _ => None;
      [first] + Observed(Apply(m, ops[0]), ops[1..])
  }

  predicate NoSetOf<T>(ops: seq<Op<T>>, key: string) {
    forall i :: 0 <= i < |ops| ==> !(ops[i].SetOp? && ops[i].key == key)
  }

  /** A key that is absent stays absent, and every read of it misses, whatever
      window the reader uses, until the next `set` of that key. */
  lemma {:induction false} AbsentUntilSet<T>(m: Store<T>, ops: seq<Op<T>>, key: string)
    requires key !in m && NoSetOf(ops, key)
    ensures key !in Replay(m, ops)
    ensures forall i :: 0 <= i < |ops| && ops[i].GetOp? && ops[i].key == key ==> Observed(m, ops)[i] == None
    decreases |ops|
  {
    if ops != [] {
      var m1 := Apply(m, ops[0]);
      assert key !in m1;
      assert NoSetOf(ops[1..], key) by {
        forall i | 0 <= i < |ops[1..]| ensures !(ops[1..][i].SetOp? && ops[1..][i].key == key) {
          assert ops[1..][i] == ops[i + 1];
        }
      }
      AbsentUntilSet(m1, ops[1..], key);
      forall i | 0 <= i < |ops| && ops[i].GetOp? && ops[i].key == key
        ensures Observed(m, ops)[i] == None
      {
        if i > 0 {
          assert ops[i] == ops[1..][i - 1];
        }
      }
    }
  }

  /** Once a stale read has evicted an entry, no later read of that key hits, whatever
      its window, until the key is set again. */
  lemma EvictedStaysMissing<T>(m: Store<T>, key: string, ttlMs: int, now: int, later: seq<Op<T>>)
    requires key in m && now - m[key].timestamp > ttlMs
    requires NoSetOf(later, key)
    ensures forall i :: 0 <= i < |later| && later[i].GetOp? && later[i].key == key ==>
      Observed(AfterLookup(m, key, ttlMs, now), later)[i] == None
  {
    AbsentUntilSet(AfterLookup(m, key, ttlMs, now), later, key);
  }
}
