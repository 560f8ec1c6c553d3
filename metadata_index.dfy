/**
 * The Redis keyspace the service uses as its metadata index: string keys, each
 * holding a value with an absolute expiry time, and a clock. A key is visible only
 * until its expiry time; an expired key is removed and its name is published on
 * the `expired` key-event channel.
 */
module MetadataIndex {
  import opened Wrappers

  type Key = string

  /** File names and content types are text; the content length is a number. */
  datatype Value = Text(s: string) | Count(n: nat)

  datatype Entry = Entry(value: Value, expiresAt: int)

  /** `ex=10*60` on the primary key of an upload. */
  const PrimaryTtl: nat := 600
  /** `ex=10*60+10` on the content-type and content-length keys. */
  const SecondaryTtl: nat := 610

  predicate IsLive(entries: map<Key, Entry>, now: int, k: Key) {
    k in entries && now < entries[k].expiresAt
  }

  /** What `GET k` replies at time `now`. */
  function Lookup(entries: map<Key, Entry>, now: int, k: Key): Option<Value> {
    if IsLive(entries, now, k) then Some(entries[k].value) else None
  }

  class Redis {
    var entries: map<Key, Entry>
    var now: int

    constructor (start: int)
      ensures entries == map[] && now == start
    {
      entries := map[];
      now := start;
    }

    /** `SET k v EX ttl NX`: stores only when `k` holds no live value, and says whether it did. */
    method SetIfAbsent(k: Key, v: Value, ttl: nat) returns (stored: bool)
      modifies this
      ensures stored <==> !IsLive(old(entries), old(now), k)
      ensures now == old(now)
      ensures entries == if stored then old(entries)[k := Entry(v, now + ttl)] else old(entries)
    {
      stored := !IsLive(entries, now, k);
      if stored {
        entries := entries[k := Entry(v, now + ttl)];
      }
    }

    /** `SET k v EX ttl`: stores unconditionally, replacing any value and expiry. */
    method Set(k: Key, v: Value, ttl: nat)
      modifies this
      ensures now == old(now)
      ensures entries == old(entries)[k := Entry(v, now + ttl)]
    {
      entries := entries[k := Entry(v, now + ttl)];
    }

    /** `GET k`: the stored value while it is live, nothing once its expiry time is reached. */
    method Get(k: Key) returns (r: Option<Value>)
      ensures r.Some? <==> k in entries && now < entries[k].expiresAt
      ensures r.Some? ==> r.value == entries[k].value
    {
      r := Lookup(entries, now, k);
    }

    method Advance(seconds: nat)
      modifies this
      ensures now == old(now) + seconds && entries == old(entries)
    {
      now := now + seconds;
    }

    /**
     * Redis removes a key whose expiry time has passed and publishes the key's name;
     * a live or absent key yields no event.
     */
    method Expire(k: Key) returns (event: Option<Key>)
      modifies this
      ensures event.Some? <==> k in old(entries) && !IsLive(old(entries), old(now), k)
      ensures event.Some? ==> event.value == k && entries == old(entries) - {k}
      ensures event.None? ==> entries == old(entries)
      ensures now == old(now)
    {
      if k in entries && !IsLive(entries, now, k) {
        entries := entries - {k};
        event := Some(k);
      } else {
        event := None;
      }
    }
  }
}
