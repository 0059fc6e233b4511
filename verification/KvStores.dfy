/** The two key-value stores in their own form. The memory deletes from its map as it goes; the table is
    changed by one statement a call. Both are proved equal to their rules, and so keep the contract. */
module KvStores {
  import opened Options
  import opened Strings
  import opened KvStore

  class InMemoryKvStore {
    const rt: Runtime
    var entries: Table

    constructor (rt: Runtime)
      ensures entries == map[] && this.rt == rt
    {
      this.rt, entries := rt, map[];
    }

    /** The live entry of a key; an expired one is deleted on the way. */
    method FindLive(key: string, now: int) returns (entry: Option<Entry>)
      modifies this
      ensures entries == Touch(old(entries), key, now)
      ensures entry == if key in entries then Some(entries[key]) else None
    {
      if key in entries {
        if entries[key].expiresAt <= now {
          entries := entries - {key};
          return None;
        }
        return Some(entries[key]);
      }
      entry := None;
    }

    method Get(key: string, now: int) returns (value: Option<string>)
      modifies this
      ensures (entries, Got(value)) == MemoryStep(rt, old(entries), now, Op.Get(key))
    {
      var entry := FindLive(key, now);
      value := if entry.Some? then Some(entry.value.value) else None;
    }

    method Set(key: string, value: string, ttl: int, now: int)
      modifies this
      ensures (entries, Done) == MemoryStep(rt, old(entries), now, Put(key, value, ttl))
    {
      entries := entries[key := Entry(value, now + ttl)];
    }

    method SetIfAbsent(key: string, value: string, ttl: int, now: int) returns (won: bool)
      modifies this
      ensures (entries, Claimed(won)) == MemoryStep(rt, old(entries), now, PutIfAbsent(key, value, ttl))
    {
      var entry := FindLive(key, now);
      if entry.Some? {
        return false;
      }
      Set(key, value, ttl, now);
      won := true;
    }

    method Delete(keys: seq<string>, now: int)
      modifies this
      ensures (entries, Done) == MemoryStep(rt, old(entries), now, Del(keys))
    {
      for i := 0 to |keys|
        invariant entries == Removed(old(entries), set j | 0 <= j < i :: keys[j])
      {
        entries := entries - {keys[i]};
      }
      assert (set j | 0 <= j < |keys| :: keys[j]) == set k | k in keys;
    }

    method IncrementWithTtl(key: string, ttl: int, now: int) returns (reply: Reply)
      modifies this
      ensures (entries, reply) == MemoryStep(rt, old(entries), now, Increment(key, ttl))
    {
      hide Touch, JsPlusOne, Numeral;
      var entry := FindLive(key, now);
      var count := if entry.Some? then JsPlusOne(rt, entry.value.value) else Whole(1);
      var text := if entry.None? then "1" else if count.Whole? then Numeral(count.n) else "NaN";
      entries := entries[key := Entry(text, if entry.Some? then entry.value.expiresAt else now + ttl)];
      reply := if count.Whole? then Counted(count.n) else NotANumber;
    }

    method DeleteByPrefix(prefix: string, now: int)
      modifies this
      ensures (entries, Done) == MemoryStep(rt, old(entries), now, Op.DeleteByPrefix(prefix))
    {
      var remaining := entries.Keys;
      while remaining != {}
        invariant remaining <= old(entries).Keys
        invariant entries == map k | k in old(entries) && !(prefix <= k && k !in remaining) :: old(entries)[k]
        decreases remaining
      {
        var key :| key in remaining;
        if prefix <= key {
          entries := entries - {key};
        }
        remaining := remaining - {key};
      }
      assert entries == Without(old(entries), prefix);
    }

    method DeleteExpired(now: int)
      modifies this
      ensures (entries, Done) == MemoryStep(rt, old(entries), now, Op.DeleteExpired)
    {
      var remaining := entries.Keys;
      while remaining != {}
        invariant remaining <= old(entries).Keys
        invariant entries == map k | k in old(entries) && (k in remaining || old(entries)[k].expiresAt > now)
                    :: old(entries)[k]
        decreases remaining
      {
        var key :| key in remaining;
        var _ := FindLive(key, now);
        remaining := remaining - {key};
      }
      assert entries == Live(old(entries), now);
    }
  }

  class PostgresKvStore {
    const rt: Runtime
    var rows: Table

    constructor (rt: Runtime)
      ensures rows == map[] && this.rt == rt
    {
      this.rt, rows := rt, map[];
    }

    method Get(key: string, now: int) returns (value: Option<string>)
      ensures (rows, Got(value)) == PostgresStep(rt, rows, now, Op.Get(key))
    {
      value := if key in rows && rows[key].expiresAt > now then Some(rows[key].value) else None;
    }

    /** INSERT, or on a conflict overwrite the row. */
    method Set(key: string, value: string, ttl: int, now: int)
      modifies this
      ensures (rows, Done) == PostgresStep(rt, old(rows), now, Put(key, value, ttl))
    {
      rows := rows[key := Entry(value, now + ttl)];
    }

    /** INSERT, or on a conflict overwrite the row only if it has expired; a row comes back if one of them
        happened. */
    method SetIfAbsent(key: string, value: string, ttl: int, now: int) returns (won: bool)
      modifies this
      ensures (rows, Claimed(won)) == PostgresStep(rt, old(rows), now, PutIfAbsent(key, value, ttl))
    {
      won := key !in rows || rows[key].expiresAt <= now;
      if won {
        rows := rows[key := Entry(value, now + ttl)];
      }
    }

    method Delete(keys: seq<string>, now: int)
      modifies this
      ensures (rows, Done) == PostgresStep(rt, old(rows), now, Del(keys))
    {
      if |keys| > 0 {
        rows := map k | k in rows && k !in keys :: rows[k];
        assert rows == Removed(old(rows), set k | k in keys);
      } else {
        assert rows == Removed(rows, set k | k in keys);
      }
    }

    /** INSERT '1', or on a conflict restart an expired counter and add 1 to a live one; a live value that is
        no bigint raises an error. */
    method IncrementWithTtl(key: string, ttl: int, now: int) returns (reply: Reply)
      modifies this
      ensures (rows, reply) == PostgresStep(rt, old(rows), now, Increment(key, ttl))
    {
      hide SqlPlusOne, Numeral;
      if key !in rows {
        rows := rows[key := Entry("1", now + ttl)];
        return Counted(1);
      }
      var row := rows[key];
      var expired := row.expiresAt <= now;
      var sum := if expired then Whole(1) else SqlPlusOne(rt, row.value);
      if sum.Odd? {
        return Refused;
      }
      rows := rows[key := Entry(if expired then "1" else Numeral(sum.n), if expired then now + ttl else row.expiresAt)];
      reply := Counted(sum.n);
    }

    method DeleteByPrefix(prefix: string, now: int)
      modifies this
      ensures (rows, Done) == PostgresStep(rt, old(rows), now, Op.DeleteByPrefix(prefix))
    {
      rows := map k | k in rows && !(prefix <= k) :: rows[k];
      assert rows == Without(old(rows), prefix);
    }

    method DeleteExpired(now: int)
      modifies this
      ensures (rows, Done) == PostgresStep(rt, old(rows), now, Op.DeleteExpired)
    {
      rows := map k | k in rows && !(rows[k].expiresAt <= now) :: rows[k];
      assert rows == Live(old(rows), now);
    }
  }
}
