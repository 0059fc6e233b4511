/** One contract for expiring keys, and the two stores that keep it: one forgets expired keys when it meets
    them, the other leaves them in a table and looks past them. */
module KvStore {
  import opened Options
  import opened Strings

  datatype Entry = Entry(value: string, expiresAt: int)

  type Table = map<string, Entry>

  datatype Op = Get(key: string) | Put(key: string, value: string, ttl: int)
              | PutIfAbsent(key: string, value: string, ttl: int)
              | Del(keys: seq<string>) | Increment(key: string, ttl: int) | DeleteByPrefix(prefix: string) | DeleteExpired

  datatype Reply = Done | Got(value: Option<string>) | Claimed(won: bool) | Counted(count: int) | NotANumber | Refused

  /** What adding 1 to a stored text gives; Odd when it is no whole number. */
  datatype Sum = Whole(n: int) | Odd

  /** How the two runtimes read texts that are not plain digits: by JavaScript's unary plus, and by a cast
      to bigint. */
  datatype Runtime = Runtime(js: string -> Sum, sql: string -> Sum)

  /** Up to here both runtimes count exactly. */
  const MAX_SAFE := 9007199254740991

  /** A plain counter: digits, and room for one more. */
  predicate IsCounter(v: string) {
    v != "" && (forall i | 0 <= i < |v| :: IsDigit(v[i])) && Value(v) < MAX_SAFE
  }

  function JsPlusOne(rt: Runtime, v: string): Sum {
    if IsCounter(v) then Whole(Value(v) + 1) else rt.js(v)
  }

  function SqlPlusOne(rt: Runtime, v: string): Sum {
    if IsCounter(v) then Whole(Value(v) + 1) else rt.sql(v)
  }

  // ----- The contract -----

  /** The entries still live at `now`. */
  function Live(m: Table, now: int): Table {
    map k | k in m && m[k].expiresAt > now :: m[k]
  }

  function Without(m: Table, prefix: string): Table {
    map k | k in m && !(prefix <= k) :: m[k]
  }

  function Stored(m: Table, key: string, e: Entry): Table {
    m[key := e]
  }

  function Removed(m: Table, keys: set<string>): Table {
    m - keys
  }

  /** What an operation does to the live entries, and answers. */
  function Step(rt: Runtime, m: Table, now: int, op: Op): (Table, Reply) {
    var l := Live(m, now);
    match op
    case Get(key) => (l, Got(if key in l then Some(l[key].value) else None))
    case Put(key, value, ttl) => (Stored(l, key, Entry(value, now + ttl)), Done)
    case PutIfAbsent(key, value, ttl) =>
      if key in l then (l, Claimed(false)) else (Stored(l, key, Entry(value, now + ttl)), Claimed(true))
    case Del(keys) => (Removed(l, set k | k in keys), Done)
    case Increment(key, ttl) =>
      if key !in l then (Stored(l, key, Entry("1", now + ttl)), Counted(1))
      else (
        match SqlPlusOne(rt, l[key].value)
        case Odd => (l, Refused)
        case Whole(n) => (Stored(l, key, l[key].(value := Numeral(n))), Counted(n)))
    case DeleteByPrefix(prefix) => (Without(l, prefix), Done)
    case DeleteExpired => (l, Done)
  }

  // ----- The store in memory -----

  /** Looks a key up, and drops it if it has expired. */
  function Touch(m: Table, key: string, now: int): Table {
    if key in m && m[key].expiresAt <= now then Removed(m, {key}) else m
  }

  function MemoryStep(rt: Runtime, m: Table, now: int, op: Op): (Table, Reply) {
    match op
    case Get(key) =>
      var t := Touch(m, key, now);
      (t, Got(if key in t then Some(t[key].value) else None))
    case Put(key, value, ttl) => (Stored(m, key, Entry(value, now + ttl)), Done)
    case PutIfAbsent(key, value, ttl) =>
      var t := Touch(m, key, now);
      if key in t then (t, Claimed(false)) else (Stored(t, key, Entry(value, now + ttl)), Claimed(true))
    case Del(keys) => (Removed(m, set k | k in keys), Done)
    case Increment(key, ttl) =>
      var t := Touch(m, key, now);
      if key !in t then (Stored(t, key, Entry("1", now + ttl)), Counted(1))
      else (
        match JsPlusOne(rt, t[key].value)
        case Odd => (Stored(t, key, t[key].(value := "NaN")), NotANumber)
        case Whole(n) => (Stored(t, key, t[key].(value := Numeral(n))), Counted(n)))
    case DeleteByPrefix(prefix) => (Without(m, prefix), Done)
    case DeleteExpired => (Live(m, now), Done)
  }

  // ----- The store in a database table -----

  predicate Expired(m: Table, key: string, now: int)
    requires key in m
  {
    m[key].expiresAt <= now
  }

  function PostgresStep(rt: Runtime, m: Table, now: int, op: Op): (Table, Reply) {
    match op
    case Get(key) => (m, Got(if key in m && m[key].expiresAt > now then Some(m[key].value) else None))
    case Put(key, value, ttl) => (Stored(m, key, Entry(value, now + ttl)), Done)
    case PutIfAbsent(key, value, ttl) =>
      if key in m && !Expired(m, key, now) then (m, Claimed(false))
      else (Stored(m, key, Entry(value, now + ttl)), Claimed(true))
    case Del(keys) => (Removed(m, set k | k in keys), Done)
    case Increment(key, ttl) =>
      if key !in m || Expired(m, key, now) then (Stored(m, key, Entry("1", now + ttl)), Counted(1))
      else (
        match SqlPlusOne(rt, m[key].value)
        case Odd => (m, Refused)
        case Whole(n) => (Stored(m, key, m[key].(value := Numeral(n))), Counted(n)))
    case DeleteByPrefix(prefix) => (Without(m, prefix), Done)
    case DeleteExpired => (Live(m, now), Done)
  }

  // ----- Both keep the contract -----

  /** Two tables nobody can tell apart from `now` on. */
  predicate Alike(a: Table, b: Table, now: int) {
    Live(a, now) == Live(b, now)
  }

  lemma AlikeLater(a: Table, b: Table, now: int, later: int)
    requires Alike(a, b, now) && now <= later
    ensures Alike(a, b, later)
  {
    LiveTwice(a, now, later);
    LiveTwice(b, now, later);
  }

  lemma LiveTwice(m: Table, now: int, later: int)
    requires now <= later
    ensures Live(Live(m, now), later) == Live(m, later)
  {
  }

  lemma LiveAt(m: Table, key: string, now: int)
    ensures key in Live(m, now) <==> key in m && m[key].expiresAt > now
    ensures key in Live(m, now) ==> Live(m, now)[key] == m[key]
  {
  }

  lemma LiveUpdated(m: Table, key: string, e: Entry, now: int)
    ensures Live(Stored(m, key, e), now) == if e.expiresAt > now then Live(m, now)[key := e] else Live(m, now) - {key}
  {
  }

  lemma LiveRemoved(m: Table, keys: set<string>, now: int)
    ensures Live(Removed(m, keys), now) == Removed(Live(m, now), keys)
  {
  }

  lemma LiveWithout(m: Table, prefix: string, now: int)
    ensures Live(Without(m, prefix), now) == Without(Live(m, now), prefix)
  {
  }

  /** An increment both runtimes count the same way. */
  predicate CountsAlike(rt: Runtime, m: Table, now: int, op: Op) {
    op.Increment? && op.key in Live(m, now) ==>
      JsPlusOne(rt, m[op.key].value).Whole? && JsPlusOne(rt, m[op.key].value) == SqlPlusOne(rt, m[op.key].value)
  }

  /** What the contract does to the live entries comes out the same on any table that holds them. */
  lemma ActsOnLive(rt: Runtime, m: Table, abs: Table, now: int, op: Op)
    requires Alike(m, abs, now)
    ensures Alike(Live(m, now), abs, now)
    ensures forall e: Entry, key: string :: Alike(Stored(m, key, e), Stored(Live(abs, now), key, e), now)
    ensures forall keys: set<string> :: Alike(Removed(m, keys), Removed(Live(abs, now), keys), now)
    ensures forall prefix: string :: Alike(Without(m, prefix), Without(Live(abs, now), prefix), now)
  {
    hide Live;
    LiveTwice(m, now, now);
    LiveTwice(abs, now, now);
    forall e: Entry, key: string
      ensures Alike(Stored(m, key, e), Stored(Live(abs, now), key, e), now)
    {
      LiveUpdated(m, key, e, now);
      LiveUpdated(Live(abs, now), key, e, now);
    }
    forall keys: set<string>
      ensures Alike(Removed(m, keys), Removed(Live(abs, now), keys), now)
    {
      LiveRemoved(m, keys, now);
      LiveRemoved(Live(abs, now), keys, now);
    }
    forall prefix: string
      ensures Alike(Without(m, prefix), Without(Live(abs, now), prefix), now)
    {
      LiveWithout(m, prefix, now);
      LiveWithout(Live(abs, now), prefix, now);
    }
  }

  function KeyOf(op: Op): string {
    match op
    case Get(key) => key
    case Put(key, _, _) => key
    case PutIfAbsent(key, _, _) => key
    case Increment(key, _) => key
    case _ => ""
  }

  /** The table answers every operation as the contract does. */
  lemma PostgresKeepsContract(rt: Runtime, m: Table, abs: Table, now: int, op: Op)
    requires Alike(m, abs, now)
    ensures var (r, reply) := PostgresStep(rt, m, now, op);
            var (s, expected) := Step(rt, abs, now, op);
            reply == expected && Alike(r, s, now)
  {
    hide Numeral, SqlPlusOne, Live, Without, Stored, Removed;
    ActsOnLive(rt, m, abs, now, op);
    LiveAt(m, KeyOf(op), now);
    LiveTwice(abs, now, now);
  }

  /** So does the memory, exactly as long as increments count what both runtimes read as the same number. */
  lemma MemoryKeepsContract(rt: Runtime, m: Table, abs: Table, now: int, op: Op)
    requires Alike(m, abs, now)
    ensures var (r, reply) := MemoryStep(rt, m, now, op);
            var (s, expected) := Step(rt, abs, now, op);
            (reply == expected <==> CountsAlike(rt, m, now, op)) && (reply == expected ==> Alike(r, s, now))
  {
    hide Numeral, SqlPlusOne, JsPlusOne, Live, Without, Touch, Stored, Removed;
    var key := KeyOf(op);
    var t := Touch(m, key, now);
    Touched(m, key, now);
    ActsOnLive(rt, m, abs, now, op);
    ActsOnLive(rt, t, abs, now, op);
    LiveAt(m, key, now);
    LiveTwice(abs, now, now);
  }

  /** Touching a key drops nothing live. */
  lemma Touched(m: Table, key: string, now: int)
    ensures Alike(Touch(m, key, now), m, now)
    ensures key in Touch(m, key, now) <==> key in Live(m, now)
    ensures key in Touch(m, key, now) ==> Touch(m, key, now)[key] == m[key]
  {
    LiveRemoved(m, {key}, now);
    LiveAt(m, key, now);
  }

  /** Plain digits count alike in both. */
  lemma CountersCountAlike(rt: Runtime, m: Table, now: int, op: Op)
    requires op.Increment? && op.key in Live(m, now) ==> IsCounter(m[op.key].value)
    ensures CountsAlike(rt, m, now, op)
  {
  }

  // ----- Whole runs -----

  datatype Call = Call(now: int, op: Op)

  /** One clock that never goes back. */
  predicate InOrder(calls: seq<Call>, start: int)
    decreases |calls|
  {
    calls == [] || (start <= calls[0].now && InOrder(calls[1..], calls[0].now))
  }

  function Run(rt: Runtime, m: Table, calls: seq<Call>): (Table, seq<Reply>)
    decreases |calls|
  {
    if calls == [] then (m, [])
    else
      var (r, reply) := Step(rt, m, calls[0].now, calls[0].op);
      var (end, replies) := Run(rt, r, calls[1..]);
      (end, [reply] + replies)
  }

  function PostgresRun(rt: Runtime, m: Table, calls: seq<Call>): (Table, seq<Reply>)
    decreases |calls|
  {
    if calls == [] then (m, [])
    else
      var (r, reply) := PostgresStep(rt, m, calls[0].now, calls[0].op);
      var (end, replies) := PostgresRun(rt, r, calls[1..]);
      (end, [reply] + replies)
  }

  function MemoryRun(rt: Runtime, m: Table, calls: seq<Call>): (Table, seq<Reply>)
    decreases |calls|
  {
    if calls == [] then (m, [])
    else
      var (r, reply) := MemoryStep(rt, m, calls[0].now, calls[0].op);
      var (end, replies) := MemoryRun(rt, r, calls[1..]);
      (end, [reply] + replies)
  }

  /** Every increment of the run meets a plain counter, or no live entry. */
  predicate NumericCounters(rt: Runtime, m: Table, calls: seq<Call>)
    decreases |calls|
  {
    calls == []
    || (var now, op := calls[0].now, calls[0].op;
        (op.Increment? && op.key in Live(m, now) ==> IsCounter(m[op.key].value))
        && NumericCounters(rt, Step(rt, m, now, op).0, calls[1..]))
  }

  lemma {:induction false} PostgresRuns(rt: Runtime, m: Table, abs: Table, start: int, calls: seq<Call>)
    requires Alike(m, abs, start) && InOrder(calls, start)
    ensures PostgresRun(rt, m, calls).1 == Run(rt, abs, calls).1
    decreases |calls|
  {
    hide PostgresStep, Step;
    if calls != [] {
      var now, op := calls[0].now, calls[0].op;
      AlikeLater(m, abs, start, now);
      PostgresKeepsContract(rt, m, abs, now, op);
      PostgresRuns(rt, PostgresStep(rt, m, now, op).0, Step(rt, abs, now, op).0, now, calls[1..]);
    }
  }

  /** Every increment of the run on a live value counts the same way in both runtimes. */
  predicate AllCountAlike(rt: Runtime, m: Table, calls: seq<Call>)
    decreases |calls|
  {
    calls == []
    || (CountsAlike(rt, m, calls[0].now, calls[0].op)
        && AllCountAlike(rt, Step(rt, m, calls[0].now, calls[0].op).0, calls[1..]))
  }

  lemma {:induction false} MemoryRuns(rt: Runtime, m: Table, abs: Table, start: int, calls: seq<Call>)
    requires Alike(m, abs, start) && InOrder(calls, start)
    ensures MemoryRun(rt, m, calls).1 == Run(rt, abs, calls).1 <==> AllCountAlike(rt, abs, calls)
    decreases |calls|
  {
    hide MemoryStep, Step, JsPlusOne, SqlPlusOne, Live;
    if calls != [] {
      var now, op := calls[0].now, calls[0].op;
      AlikeLater(m, abs, start, now);
      SameEntry(m, abs, now, op);
      MemoryKeepsContract(rt, m, abs, now, op);
      var (r, reply) := MemoryStep(rt, m, now, op);
      var (s, expected) := Step(rt, abs, now, op);
      FirstReplies(reply, MemoryRun(rt, r, calls[1..]).1, expected, Run(rt, s, calls[1..]).1);
      if CountsAlike(rt, m, now, op) {
        MemoryRuns(rt, r, s, now, calls[1..]);
      }
    }
  }

  lemma FirstReplies(a: Reply, rest: seq<Reply>, b: Reply, others: seq<Reply>)
    ensures [a] + rest == [b] + others <==> a == b && rest == others
  {
    assert ([a] + rest)[1..] == rest && ([b] + others)[1..] == others;
    assert ([a] + rest)[0] == a && ([b] + others)[0] == b;
  }

  lemma SameEntry(m: Table, abs: Table, now: int, op: Op)
    requires Alike(m, abs, now)
    ensures op.Increment? ==> (op.key in Live(m, now) <==> op.key in Live(abs, now))
    ensures op.Increment? && op.key in Live(m, now) ==> m[op.key] == abs[op.key]
  {
    if op.Increment? && op.key in Live(m, now) {
      assert Live(m, now)[op.key] == Live(abs, now)[op.key];
    }
  }

  /** Starting empty and under one clock that never goes back, the database answers as the contract, and the
      memory answers as the database exactly when every increment on a live value counts the same way in both
      runtimes. */
  lemma StoresAgree(rt: Runtime, start: int, calls: seq<Call>)
    requires InOrder(calls, start)
    ensures PostgresRun(rt, map[], calls).1 == Run(rt, map[], calls).1
    ensures MemoryRun(rt, map[], calls).1 == PostgresRun(rt, map[], calls).1 <==> AllCountAlike(rt, map[], calls)
  {
    PostgresRuns(rt, map[], map[], start, calls);
    MemoryRuns(rt, map[], map[], start, calls);
  }

  /** Plain counters do. */
  lemma {:induction false} NumericCountAlike(rt: Runtime, m: Table, calls: seq<Call>)
    requires NumericCounters(rt, m, calls)
    ensures AllCountAlike(rt, m, calls)
    decreases |calls|
  {
    hide Step, IsCounter, JsPlusOne, SqlPlusOne, Live;
    if calls != [] {
      CountersCountAlike(rt, m, calls[0].now, calls[0].op);
      NumericCountAlike(rt, Step(rt, m, calls[0].now, calls[0].op).0, calls[1..]);
    }
  }

  /** A counter that is not a number tells them apart. */
  lemma TextCountersDiffer(rt: Runtime, key: string)
    requires rt.js("x").Odd? && rt.sql("x").Odd?
    ensures var calls := [Call(0, Put(key, "x", 10)), Call(0, Increment(key, 10))];
            MemoryRun(rt, map[], calls).1 == [Done, NotANumber] && PostgresRun(rt, map[], calls).1 == [Done, Refused]
  {
    hide Numeral;
    assert !IsDigit("x"[0]);
    var put, add := Call(0, Put(key, "x", 10)), Call(0, Increment(key, 10));
    var m: Table := map[key := Entry("x", 10)];
    assert [put, add][1..] == [add] && [add][1..] == [];
    assert map[][key := Entry("x", 10)] == m;
    assert MemoryRun(rt, MemoryStep(rt, m, 0, add.op).0, []).1 == [];
    assert MemoryRun(rt, m, [add]).1 == [NotANumber];
    assert PostgresRun(rt, m, []).1 == [];
    assert PostgresRun(rt, m, [add]).1 == [Refused];
  }

  // ----- What the contract promises -----

  /** Dropping expired entries changes no later answer. */
  lemma DeleteExpiredUnseen(rt: Runtime, m: Table, now: int, calls: seq<Call>)
    requires InOrder(calls, now)
    ensures Run(rt, Step(rt, m, now, DeleteExpired).0, calls).1 == Run(rt, m, calls).1
  {
    if calls != [] {
      assert Live(Live(m, now), calls[0].now) == Live(m, calls[0].now);
      SameFromLive(rt, Live(m, now), m, calls[0].now, calls[0].op);
    }
  }

  /** Only the live entries matter to a step. */
  lemma SameFromLive(rt: Runtime, a: Table, b: Table, now: int, op: Op)
    requires Live(a, now) == Live(b, now)
    ensures Step(rt, a, now, op) == Step(rt, b, now, op)
  {
  }

  /** Operations that may end or replace an entry before it expires. */
  predicate Disturbs(op: Op, key: string) {
    match op
    case Put(k, _, _) => k == key
    case Del(keys) => key in keys
    case DeleteByPrefix(prefix) => prefix <= key
    case _ => false
  }

  /** A live key keeps its first expiry through any number of calls that do not replace or delete it:
      increments do not prolong it, and no other claim wins until it expires. */
  lemma {:induction false} OneOwnerPerLife(rt: Runtime, m: Table, key: string, calls: seq<Call>, start: int)
    requires key in m && InOrder(calls, start)
    requires forall i | 0 <= i < |calls| :: calls[i].now < m[key].expiresAt && !Disturbs(calls[i].op, key)
    ensures var (end, replies) := Run(rt, m, calls);
            && key in end && end[key].expiresAt == m[key].expiresAt && |replies| == |calls|
            && (forall i | 0 <= i < |calls| && calls[i].op.PutIfAbsent? && calls[i].op.key == key
                  :: replies[i] == Claimed(false))
    decreases |calls|
  {
    hide Numeral, IsCounter;
    if calls != [] {
      var now, op := calls[0].now, calls[0].op;
      var (r, reply) := Step(rt, m, now, op);
      assert !Disturbs(op, key);
      assert key in Live(m, now);
      OneOwnerPerLife(rt, r, key, calls[1..], now);
    }
  }

  /** And from its expiry on, the key is free: the next claim wins. */
  lemma FreeAfterLife(rt: Runtime, m: Table, key: string, now: int, value: string, ttl: int)
    requires key in m && m[key].expiresAt <= now
    ensures Step(rt, m, now, PutIfAbsent(key, value, ttl)) == (Live(m, now)[key := Entry(value, now + ttl)], Claimed(true))
    ensures Step(rt, m, now, Get(key)).1 == Got(None)
    ensures Step(rt, m, now, Increment(key, ttl)).1 == Counted(1)
  {
  }

  function Increments(calls: seq<Call>, key: string): nat
    decreases |calls|
  {
    if calls == [] then 0
    else (if calls[0].op.Increment? && calls[0].op.key == key then 1 else 0) + Increments(calls[1..], key)
  }

  lemma {:induction false} DecimalReads(n: nat)
    ensures Decimal(n) != "" && (forall i | 0 <= i < |Decimal(n)| :: IsDigit(Decimal(n)[i])) && Value(Decimal(n)) == n
  {
    var s := Decimal(n);
    if n < 10 {
      assert s[..0] == "" && Value("") == 0;
    } else {
      DecimalReads(n / 10);
      assert s[..|s| - 1] == Decimal(n / 10);
    }
  }

  /** While it lives and nobody replaces it, a counter loses no increment. */
  lemma {:induction false} EveryIncrementCounts(rt: Runtime, m: Table, key: string, n: nat, calls: seq<Call>, start: int)
    requires key in m && m[key].value == Decimal(n) && n + Increments(calls, key) <= MAX_SAFE && InOrder(calls, start)
    requires forall i | 0 <= i < |calls| :: calls[i].now < m[key].expiresAt && !Disturbs(calls[i].op, key)
    ensures var end := Run(rt, m, calls).0;
            key in end && end[key] == Entry(Decimal(n + Increments(calls, key)), m[key].expiresAt)
    decreases |calls|
  {
    if calls != [] {
      var now, op := calls[0].now, calls[0].op;
      assert !Disturbs(op, key);
      var counts := op.Increment? && op.key == key;
      CounterStep(rt, m, key, n, now, op);
      EveryIncrementCounts(rt, Step(rt, m, now, op).0, key, if counts then n + 1 else n, calls[1..], now);
    }
  }

  lemma CounterStep(rt: Runtime, m: Table, key: string, n: nat, now: int, op: Op)
    requires key in m && m[key].value == Decimal(n) && now < m[key].expiresAt && !Disturbs(op, key)
    requires op.Increment? && op.key == key ==> n < MAX_SAFE
    ensures var r := Step(rt, m, now, op).0;
            && key in r
            && r[key] == Entry(Decimal(if op.Increment? && op.key == key then n + 1 else n), m[key].expiresAt)
  {
    hide IsDigit, Value, Decimal;
    DecimalReads(n);
    assert key in Live(m, now);
  }
}
