/** Wallets and their transaction book: what interleaved transactions keep true of every committed state. */
module Wallets {
  import opened Options
  import opened Sequences
  import opened Strings
  import L = Locks

  datatype Currency = Coin | Gem | RaidToken

  datatype Purse = Purse(coin: nat, gem: nat, raidToken: nat) {
    function At(c: Currency): nat {
      match c case Coin => coin case Gem => gem case RaidToken => raidToken
    }

    function With(c: Currency, n: nat): Purse {
      match c case Coin => this.(coin := n) case Gem => this.(gem := n) case RaidToken => this.(raidToken := n)
    }
  }

  const EMPTY := Purse(0, 0, 0)

  datatype Record = Record(user: string, currency: Currency, amount: int, balanceAfter: nat)

  /** Wallet rows, and the record of every change. */
  datatype Books = Books(purses: map<string, Purse>, records: seq<Record>)

  function Balance(purses: map<string, Purse>, user: string, c: Currency): nat {
    if user in purses then purses[user].At(c) else 0
  }

  /** What the records of one user and currency add up to. */
  function SumOf(records: seq<Record>, user: string, c: Currency): int {
    if records == [] then 0
    else
      var r := records[|records| - 1];
      SumOf(records[..|records| - 1], user, c) + if r.user == user && r.currency == c then r.amount else 0
  }

  /** Every record's balance is the sum of that user's amounts up to it. */
  predicate Prefixed(records: seq<Record>) {
    records == []
    || var n, r := |records| - 1, records[|records| - 1];
       Prefixed(records[..n]) && r.balanceAfter == SumOf(records, r.user, r.currency)
  }

  ghost predicate Booked(b: Books) {
    Prefixed(b.records) && forall u: string, c: Currency :: Balance(b.purses, u, c) == SumOf(b.records, u, c)
  }

  // ----- One change -----

  /** Adds or spends one currency; None when the balance would go below zero. */
  function Change(b: Books, user: string, c: Currency, amount: int): Option<Books> {
    var purse := if user in b.purses then b.purses[user] else EMPTY;
    var balanceAfter := purse.At(c) + amount;
    if balanceAfter < 0 then None
    else Some(Books(b.purses[user := purse.With(c, balanceAfter)], b.records + [Record(user, c, amount, balanceAfter)]))
  }

  lemma SumOfOneMore(records: seq<Record>, r: Record, u: string, c: Currency)
    ensures SumOf(records + [r], u, c) == SumOf(records, u, c) + if r.user == u && r.currency == c then r.amount else 0
  {
    assert (records + [r])[..|records|] == records;
  }

  lemma PrefixedOneMore(records: seq<Record>, r: Record)
    requires Prefixed(records) && r.balanceAfter == SumOf(records, r.user, r.currency) + r.amount
    ensures Prefixed(records + [r])
  {
    SumOfOneMore(records, r, r.user, r.currency);
    assert (records + [r])[..|records|] == records;
  }

  lemma ChangeKeepsBooks(b: Books, user: string, c: Currency, amount: int)
    requires Booked(b) && Change(b, user, c, amount).Some?
    ensures Booked(Change(b, user, c, amount).value)
  {
    hide SumOf, Prefixed;
    var r := Change(b, user, c, amount).value;
    var record := r.records[|b.records|];
    assert r.records == b.records + [record];
    PrefixedOneMore(b.records, record);
    forall u: string, k: Currency
      ensures Balance(r.purses, u, k) == SumOf(r.records, u, k)
    {
      SumOfOneMore(b.records, record, u, k);
      assert Balance(b.purses, u, k) == SumOf(b.records, u, k);
    }
  }

  // ----- Interleaved transactions -----

  /** An open transaction: the wallet rows it has locked, as it sees them, and what it has recorded. */
  type Session = Books

  const IDLE: Session := Books(map[], [])

  datatype World = World(committed: Books, sessions: seq<Session>)

  /** The open transaction `i` locks a row nobody else has locked, creating it if it is missing. */
  predicate CanLock(w: World, i: nat, user: string) {
    i < |w.sessions| && forall j | 0 <= j < |w.sessions| :: user !in w.sessions[j].purses
  }

  function Lock(w: World, i: nat, user: string): World
    requires CanLock(w, i, user)
  {
    var s := w.sessions[i];
    var row := if user in w.committed.purses then w.committed.purses[user] else EMPTY;
    w.(sessions := w.sessions[i := s.(purses := s.purses[user := row])])
  }

  /** A change on a locked row; a transaction that cannot pay is rolled back whole. */
  function Pay(w: World, i: nat, user: string, c: Currency, amount: int): World
    requires i < |w.sessions| && user in w.sessions[i].purses
  {
    match Change(w.sessions[i], user, c, amount)
    case None => w.(sessions := w.sessions[i := IDLE])
    case Some(s) => w.(sessions := w.sessions[i := s])
  }

  function Rollback(w: World, i: nat): World
    requires i < |w.sessions|
  {
    w.(sessions := w.sessions[i := IDLE])
  }

  function Commit(w: World, i: nat): World
    requires i < |w.sessions|
  {
    var s := w.sessions[i];
    World(Books(w.committed.purses + s.purses, w.committed.records + s.records), w.sessions[i := IDLE])
  }

  /** What an open transaction sees is right: its rows are the committed ones with its own changes. */
  ghost predicate SessionSound(b: Books, s: Session) {
    && Prefixed(b.records + s.records)
    && (forall u, c: Currency | u in s.purses :: s.purses[u].At(c) == SumOf(b.records + s.records, u, c))
    && (forall k | 0 <= k < |s.records| :: s.records[k].user in s.purses)
  }

  ghost predicate Sound(w: World) {
    && Booked(w.committed)
    && (forall i | 0 <= i < |w.sessions| :: SessionSound(w.committed, w.sessions[i]))
    && (forall i, j, u | 0 <= i < j < |w.sessions| && u in w.sessions[i].purses :: u !in w.sessions[j].purses)
  }

  lemma IdleSound(b: Books)
    requires Booked(b)
    ensures SessionSound(b, IDLE)
  {
    assert b.records + [] == b.records;
  }

  lemma LockKeepsSound(w: World, i: nat, user: string)
    requires Sound(w) && CanLock(w, i, user)
    ensures Sound(Lock(w, i, user)) && Lock(w, i, user).committed == w.committed
  {
    hide SumOf, Prefixed;
    var s, r := w.sessions[i], Lock(w, i, user);
    forall c: Currency
      ensures r.sessions[i].purses[user].At(c) == SumOf(w.committed.records + s.records, user, c)
    {
      Untouched(w.committed.records, s, user, c);
      assert Balance(w.committed.purses, user, c) == SumOf(w.committed.records, user, c);
    }
    assert SessionSound(w.committed, w.sessions[i]);
    assert SessionSound(w.committed, r.sessions[i]);
  }

  /** Records of other users do not change a user's sum. */
  lemma {:induction false} Untouched(records: seq<Record>, s: Session, user: string, c: Currency)
    requires user !in s.purses && forall k | 0 <= k < |s.records| :: s.records[k].user in s.purses
    ensures SumOf(records + s.records, user, c) == SumOf(records, user, c)
    decreases |s.records|
  {
    var n := |s.records| - 1;
    if s.records == [] {
      assert records + [] == records;
    } else {
      Untouched(records, s.(records := s.records[..n]), user, c);
      assert records + s.records == (records + s.records[..n]) + [s.records[n]];
      SumOfOneMore(records + s.records[..n], s.records[n], user, c);
    }
  }

  lemma PayKeepsSound(w: World, i: nat, user: string, c: Currency, amount: int)
    requires Sound(w) && i < |w.sessions| && user in w.sessions[i].purses
    ensures Sound(Pay(w, i, user, c, amount)) && Pay(w, i, user, c, amount).committed == w.committed
  {
    hide SumOf, Prefixed;
    var s, r := w.sessions[i], Pay(w, i, user, c, amount);
    assert SessionSound(w.committed, s);
    IdleSound(w.committed);
    var next := Change(s, user, c, amount);
    if next.Some? {
      var all, record := w.committed.records + s.records, next.value.records[|s.records|];
      assert w.committed.records + next.value.records == all + [record];
      PrefixedOneMore(all, record);
      forall u, k: Currency | u in next.value.purses
        ensures next.value.purses[u].At(k) == SumOf(all + [record], u, k)
      {
        SumOfOneMore(all, record, u, k);
      }
    }
    assert SessionSound(w.committed, r.sessions[i]);
  }

  lemma RollbackKeepsSound(w: World, i: nat)
    requires Sound(w) && i < |w.sessions|
    ensures Sound(Rollback(w, i)) && Rollback(w, i).committed == w.committed
  {
    hide SumOf, Prefixed, SessionSound;
    IdleSound(w.committed);
  }

  lemma {:induction false} SumSplits(a: seq<Record>, b: seq<Record>, u: string, c: Currency)
    ensures SumOf(a + b, u, c) == SumOf(a, u, c) + SumOf(b, u, c)
  {
    if b == [] {
      assert a + b == a;
    } else {
      var n := |b| - 1;
      SumSplits(a, b[..n], u, c);
      assert a + b == (a + b[..n]) + [b[n]];
      SumOfOneMore(a + b[..n], b[n], u, c);
    }
  }

  /** A commit slips its records in before those of another open transaction, whose rows are others. */
  lemma {:induction false} CommitSeen(records: seq<Record>, s: Session, t: Session, k: nat)
    requires k <= |t.records| && Prefixed(records + s.records) && Prefixed(records + t.records[..k])
    requires forall j | 0 <= j < |s.records| :: s.records[j].user in s.purses
    requires forall j | 0 <= j < |t.records| :: t.records[j].user !in s.purses
    ensures Prefixed(records + s.records + t.records[..k])
  {
    hide SumOf, Prefixed;
    if k == 0 {
      assert records + s.records + t.records[..0] == records + s.records;
    } else {
      var r, before := t.records[k - 1], t.records[..k - 1];
      assert t.records[..k] == before + [r];
      assert records + t.records[..k] == (records + before) + [r];
      PrefixedLast(records + before, r);
      CommitSeen(records, s, t, k - 1);
      BalanceStillRight(records, s, before, r);
      PrefixedOneMore(records + s.records + before, r);
      assert records + s.records + t.records[..k] == (records + s.records + before) + [r];
    }
  }

  lemma PrefixedLast(records: seq<Record>, r: Record)
    requires Prefixed(records + [r])
    ensures Prefixed(records) && r.balanceAfter == SumOf(records, r.user, r.currency) + r.amount
  {
    SumOfOneMore(records, r, r.user, r.currency);
    assert (records + [r])[..|records|] == records;
  }

  /** What a record's balance adds up does not change by records of other users before it. */
  lemma BalanceStillRight(records: seq<Record>, s: Session, before: seq<Record>, r: Record)
    requires r.user !in s.purses && forall j | 0 <= j < |s.records| :: s.records[j].user in s.purses
    ensures SumOf(records + s.records + before, r.user, r.currency) == SumOf(records + before, r.user, r.currency)
  {
    SumSplits(records + s.records, before, r.user, r.currency);
    SumSplits(records, before, r.user, r.currency);
    Untouched(records, s, r.user, r.currency);
  }

  lemma OthersStaySound(b: Books, s: Session, t: Session)
    requires SessionSound(b, s) && SessionSound(b, t) && forall u | u in t.purses :: u !in s.purses
    ensures SessionSound(Books(b.purses + s.purses, b.records + s.records), t)
  {
    hide SumOf, Prefixed;
    assert t.records[..|t.records|] == t.records;
    CommitSeen(b.records, s, t, |t.records|);
    forall u, c: Currency | u in t.purses
      ensures t.purses[u].At(c) == SumOf(b.records + s.records + t.records, u, c)
    {
      SumSplits(b.records + s.records, t.records, u, c);
      SumSplits(b.records, t.records, u, c);
      Untouched(b.records, s, u, c);
    }
  }

  lemma CommitBooks(b: Books, s: Session)
    requires Booked(b) && SessionSound(b, s)
    ensures Booked(Books(b.purses + s.purses, b.records + s.records))
  {
    hide SumOf, Prefixed;
    forall u: string, c: Currency
      ensures Balance(b.purses + s.purses, u, c) == SumOf(b.records + s.records, u, c)
    {
      if u !in s.purses {
        Untouched(b.records, s, u, c);
        assert Balance(b.purses, u, c) == SumOf(b.records, u, c);
      }
    }
  }

  lemma CommitKeepsSound(w: World, i: nat)
    requires Sound(w) && i < |w.sessions|
    ensures Sound(Commit(w, i))
  {
    hide SessionSound, Booked;
    var s, r := w.sessions[i], Commit(w, i);
    assert SessionSound(w.committed, s);
    CommitBooks(w.committed, s);
    IdleSound(r.committed);
    forall j | 0 <= j < |r.sessions|
      ensures SessionSound(r.committed, r.sessions[j])
    {
      if j != i {
        assert SessionSound(w.committed, w.sessions[j]);
        assert forall u | u in w.sessions[j].purses :: u !in s.purses;
        OthersStaySound(w.committed, s, w.sessions[j]);
      }
    }
  }

  // ----- Whole runs -----

  datatype Step = DoLock(i: nat, user: string) | DoPay(i: nat, user: string, currency: Currency, amount: int)
                | DoCommit(i: nat) | DoRollback(i: nat)

  /** A step that is not enabled waits, which changes nothing. */
  function Next(w: World, step: Step): World {
    match step
    case DoLock(i, user) => if CanLock(w, i, user) then Lock(w, i, user) else w
    case DoPay(i, user, c, amount) =>
      if i < |w.sessions| && user in w.sessions[i].purses then Pay(w, i, user, c, amount) else w
    case DoCommit(i) => if i < |w.sessions| then Commit(w, i) else w
    case DoRollback(i) => if i < |w.sessions| then Rollback(w, i) else w
  }

  function Run(w: World, steps: seq<Step>): World {
    if steps == [] then w else Next(Run(w, steps[..|steps| - 1]), steps[|steps| - 1])
  }

  function Fresh(n: nat): World {
    World(Books(map[], []), seq(n, _ => IDLE))
  }

  lemma NextKeepsSound(w: World, step: Step)
    requires Sound(w)
    ensures Sound(Next(w, step))
  {
    hide Sound, CanLock, Lock, Pay, Commit, Rollback;
    match step {
      case DoLock(i, user) =>
        if CanLock(w, i, user) {
          LockKeepsSound(w, i, user);
        }
      case DoPay(i, user, c, amount) =>
        if i < |w.sessions| && user in w.sessions[i].purses {
          PayKeepsSound(w, i, user, c, amount);
        }
      case DoCommit(i) =>
        if i < |w.sessions| {
          CommitKeepsSound(w, i);
        }
      case DoRollback(i) =>
        if i < |w.sessions| {
          RollbackKeepsSound(w, i);
        }
    }
  }

  /** However transactions interleave, in every committed state every balance is the sum of that user's
      recorded amounts (and so never negative), and every record's balance is the sum up to it. */
  lemma {:induction false} BooksAlwaysBalance(n: nat, steps: seq<Step>)
    ensures Sound(Run(Fresh(n), steps)) && Booked(Run(Fresh(n), steps).committed)
  {
    if steps == [] {
      IdleSound(Books(map[], []));
    } else {
      BooksAlwaysBalance(n, steps[..|steps| - 1]);
      NextKeepsSound(Run(Fresh(n), steps[..|steps| - 1]), steps[|steps| - 1]);
    }
  }

  // ----- Coins in circulation -----

  /** Everything ever recorded in one currency. */
  function Total(records: seq<Record>, c: Currency): int {
    if records == [] then 0
    else
      var r := records[|records| - 1];
      Total(records[..|records| - 1], c) + if r.currency == c then r.amount else 0
  }

  function SumOver(users: seq<string>, purses: map<string, Purse>, c: Currency): nat {
    if users == [] then 0
    else SumOver(users[..|users| - 1], purses, c) + Balance(purses, users[|users| - 1], c)
  }

  function RecordedOver(users: seq<string>, records: seq<Record>, c: Currency): int {
    if users == [] then 0
    else RecordedOver(users[..|users| - 1], records, c) + SumOf(records, users[|users| - 1], c)
  }

  lemma {:induction false} RecordedOneMore(users: seq<string>, records: seq<Record>, r: Record, c: Currency)
    requires NoRepeats(users)
    ensures RecordedOver(users, records + [r], c)
            == RecordedOver(users, records, c) + if r.user in users && r.currency == c then r.amount else 0
  {
    if users != [] {
      var n := |users| - 1;
      RecordedOneMore(users[..n], records, r, c);
      SumOfOneMore(records, r, users[n], c);
      assert users == users[..n] + [users[n]];
      assert r.user in users <==> r.user in users[..n] || r.user == users[n];
    }
  }

  lemma {:induction false} NothingRecorded(users: seq<string>, c: Currency)
    ensures RecordedOver(users, [], c) == 0
  {
    if users != [] {
      NothingRecorded(users[..|users| - 1], c);
    }
  }

  lemma {:induction false} RecordedIsTotal(users: seq<string>, records: seq<Record>, c: Currency)
    requires NoRepeats(users) && forall k | 0 <= k < |records| :: records[k].user in users
    ensures RecordedOver(users, records, c) == Total(records, c)
    decreases |records|
  {
    if records == [] {
      NothingRecorded(users, c);
    } else {
      var n := |records| - 1;
      RecordedIsTotal(users, records[..n], c);
      assert records == records[..n] + [records[n]];
      RecordedOneMore(users, records[..n], records[n], c);
    }
  }

  lemma {:induction false} HeldIsRecorded(users: seq<string>, b: Books, c: Currency)
    requires Booked(b)
    ensures SumOver(users, b.purses, c) == RecordedOver(users, b.records, c)
  {
    hide SumOf, Prefixed;
    if users != [] {
      HeldIsRecorded(users[..|users| - 1], b, c);
      assert Balance(b.purses, users[|users| - 1], c) == SumOf(b.records, users[|users| - 1], c);
    }
  }

  /** All wallets together hold what was recorded. */
  lemma WalletsHoldTheTotal(users: seq<string>, b: Books, c: Currency)
    requires Booked(b) && NoRepeats(users) && forall k | 0 <= k < |b.records| :: b.records[k].user in users
    ensures SumOver(users, b.purses, c) == Total(b.records, c)
  {
    HeldIsRecorded(users, b, c);
    RecordedIsTotal(users, b.records, c);
  }

  /** Coins from one user to another; None when the payer is short. */
  function Transfer(b: Books, payer: string, payee: string, fee: nat): Option<Books> {
    match Change(b, payer, Coin, -(fee as int))
    case None => None
    case Some(paid) => Change(paid, payee, Coin, fee)
  }

  /** A transfer moves coins and makes none: it fails exactly when the payer is short. */
  lemma TransferConserves(b: Books, payer: string, payee: string, fee: nat)
    requires Booked(b) && payer != payee
    ensures Transfer(b, payer, payee, fee).Some? <==> fee <= Balance(b.purses, payer, Coin)
    ensures var r := Transfer(b, payer, payee, fee);
            r.Some? ==>
              && Booked(r.value) && Total(r.value.records, Coin) == Total(b.records, Coin)
              && Balance(r.value.purses, payer, Coin) + fee == Balance(b.purses, payer, Coin)
              && Balance(r.value.purses, payee, Coin) == Balance(b.purses, payee, Coin) + fee
              && (forall u: string, c: Currency | (u != payer && u != payee) || c != Coin ::
                    Balance(r.value.purses, u, c) == Balance(b.purses, u, c))
  {
    hide Booked;
    var paid := Change(b, payer, Coin, -(fee as int));
    if paid.Some? {
      ChangeKeepsBooks(b, payer, Coin, -(fee as int));
      var r := Change(paid.value, payee, Coin, fee);
      ChangeKeepsBooks(paid.value, payee, Coin, fee);
      assert r.value.records[..|r.value.records| - 1] == paid.value.records;
      assert paid.value.records[..|paid.value.records| - 1] == b.records;
    }
  }

  // ----- Lock order -----

  predicate Rising(users: seq<string>) {
    forall i, j | 0 <= i < j < |users| :: Less(users[i], users[j])
  }

  /** Puts a user into a sorted list, unless it is there. */
  function Insert(users: seq<string>, u: string): (r: seq<string>)
    ensures forall x :: x in r <==> x == u || x in users
  {
    if users == [] then [u]
    else if users[0] == u then users
    else if Less(u, users[0]) then [u] + users
    else
      assert users == [users[0]] + users[1..];
      [users[0]] + Insert(users[1..], u)
  }

  lemma {:induction false} InsertRising(users: seq<string>, u: string)
    requires Rising(users)
    ensures Rising(Insert(users, u))
  {
    if users != [] && users[0] != u {
      if Less(u, users[0]) {
        forall j | 0 <= j < |users|
          ensures Less(u, users[j])
        {
          if j > 0 {
            LessTransitive(u, users[0], users[j]);
          }
        }
      } else {
        LessTotal(u, users[0]);
        InsertRising(users[1..], u);
        var rest := Insert(users[1..], u);
        forall j | 0 <= j < |rest|
          ensures Less(users[0], rest[j])
        {
          assert rest[j] in rest;
        }
      }
    }
  }

  /** The users of a request, once each, in order. */
  function LockOrder(ids: seq<string>): (r: seq<string>)
    ensures forall x :: x in r <==> x in ids
  {
    if ids == [] then []
    else
      assert ids == ids[..|ids| - 1] + [ids[|ids| - 1]];
      Insert(LockOrder(ids[..|ids| - 1]), ids[|ids| - 1])
  }

  lemma {:induction false} LockOrderRising(ids: seq<string>)
    ensures Rising(LockOrder(ids))
  {
    if ids != [] {
      LockOrderRising(ids[..|ids| - 1]);
      InsertRising(LockOrder(ids[..|ids| - 1]), ids[|ids| - 1]);
    }
  }

  // ----- Rows created on first use -----

  function WithRow(purses: map<string, Purse>, user: string): map<string, Purse> {
    if user in purses then purses else purses[user := EMPTY]
  }

  function WithRows(purses: map<string, Purse>, users: seq<string>): map<string, Purse> {
    if users == [] then purses else WithRow(WithRows(purses, users[..|users| - 1]), users[|users| - 1])
  }

  /** A new row is empty, so it changes no balance. */
  lemma {:induction false} RowsChangeNothing(b: Books, users: seq<string>)
    requires Booked(b)
    ensures Booked(Books(WithRows(b.purses, users), b.records))
  {
    if users != [] {
      RowsChangeNothing(b, users[..|users| - 1]);
      var fewer := WithRows(b.purses, users[..|users| - 1]);
      forall u: string, c: Currency
        ensures Balance(WithRows(b.purses, users), u, c) == Balance(fewer, u, c)
      {
      }
    }
  }

  function WalletLocks(users: seq<string>): (r: seq<L.Resource>)
    ensures |r| == |users| && forall k | 0 <= k < |r| :: r[k] == L.Resource.Wallet(users[k])
  {
    seq(|users|, k requires 0 <= k < |users| => L.Resource.Wallet(users[k]))
  }

  /** The locks of an attack on the week's boss. A pet that discovers a species while it is brought up to
      date pays its owner first, which locks the owner's wallet before the boss. */
  function AttackPlan(user: string, week: string, discovers: bool, ally: Option<(string, string)>,
                      hit: string): seq<L.Resource> {
    var head := [L.Resource.Monster(user)] + (if discovers then [L.Resource.Wallet(user)] else [])
                 + [L.Resource.Boss(week)];
    var rented :=
      match ally
      case None => []
      case Some((owner, pair)) =>
        WalletLocks(if discovers then LockOrder([owner]) else LockOrder([user, owner])) + [L.Resource.Friendship(pair)];
    head + rented + [L.Resource.Damage(hit)]
  }

  lemma RisingLocks(users: seq<string>)
    requires Rising(users)
    ensures L.Increasing(WalletLocks(users))
  {
  }

  /** An attack takes its rows in the common order exactly when its pet discovers nothing. */
  lemma AttackPlanOrdered(user: string, week: string, discovers: bool, ally: Option<(string, string)>, hit: string)
    ensures L.Increasing(AttackPlan(user, week, discovers, ally, hit)) <==> !discovers
  {
    hide LockOrder, Less;
    var plan := AttackPlan(user, week, discovers, ally, hit);
    if discovers {
      assert plan[1] == L.Resource.Wallet(user) && plan[2] == L.Resource.Boss(week);
      assert !L.Before(plan[1], plan[2]);
    } else if ally.Some? {
      LockOrderRising([user, ally.value.0]);
      RisingLocks(LockOrder([user, ally.value.0]));
    }
  }

  /** Then a deadlock is in reach. From two attacks that hold nothing, two locks each lead to a circle: the
      attacker whose pet has just discovered a species waits for the boss, and the one who holds the boss waits
      for the first one's wallet to rent from them. */
  lemma DiscoveryCanDeadlock(a: string, b: string, week: string, pair: string)
    requires Less(a, b)
    ensures var first, second := AttackPlan(a, week, true, None, a), AttackPlan(b, week, false, Some((a, pair)), b);
            var steps := [L.Take(0), L.Take(0), L.Take(1), L.Take(1)];
            var r := L.Run([L.Transaction(first, 0, false), L.Transaction(second, 0, false)], steps);
            L.WaitsFor(r, 0, 1) && L.WaitsFor(r, 1, 0) && L.Chain(r, [0, 1, 0])
  {
    LessIrreflexive(a);
    assert LockOrder([b, a]) == [a, b] by {
      assert LockOrder([b]) == [b] && [b, a][..1] == [b];
      LessAsymmetric(a, b);
    }
    var first, second := AttackPlan(a, week, true, None, a), AttackPlan(b, week, false, Some((a, pair)), b);
    assert first[0] == L.Resource.Monster(a) && first[1] == L.Resource.Wallet(a) && first[2] == L.Resource.Boss(week);
    assert second[0] == L.Resource.Monster(b) && second[1] == L.Resource.Boss(week) && second[2] == L.Resource.Wallet(a);
    CircleReached(first, second);
  }

  /** Two plans that take a row each which the other one wants next. */
  lemma CircleReached(first: seq<L.Resource>, second: seq<L.Resource>)
    requires |first| >= 3 && |second| >= 3 && first[1] == second[2] && first[2] == second[1]
    requires forall i, j | 0 <= i < 2 && 0 <= j < 2 :: first[i] != second[j]
    ensures var r := L.Run([L.Transaction(first, 0, false), L.Transaction(second, 0, false)],
                           [L.Take(0), L.Take(0), L.Take(1), L.Take(1)]);
            L.WaitsFor(r, 0, 1) && L.WaitsFor(r, 1, 0) && L.Chain(r, [0, 1, 0])
  {
    hide L.Run, L.Next, L.CanLock;
    var w := Pair(first, 0, second, 0);
    var steps := [L.Take(0), L.Take(0), L.Take(1), L.Take(1)];
    TakesNext(first, 0, second, 0);
    TakesNext(first, 1, second, 0);
    TakesNext(first, 2, second, 0);
    TakesNext(first, 2, second, 1);
    RunStarts(w);
    TakeStep(w, [], L.Take(0));
    TakeStep(w, steps[..1], L.Take(0));
    TakeStep(w, steps[..2], L.Take(1));
    TakeStep(w, steps[..3], L.Take(1));
    assert [] + [L.Take(0)] == steps[..1] && steps[..1] + [L.Take(0)] == steps[..2];
    assert steps[..2] + [L.Take(1)] == steps[..3] && steps[..3] + [L.Take(1)] == steps;
    assert second[..2][1] == first[2] && first[..2][1] == second[2];
    var r := Pair(first, 2, second, 2);
    forall k | 0 <= k < 2
      ensures L.WaitsFor(r, [0, 1, 0][k], [0, 1, 0][k + 1])
    {
    }
  }

  function Pair(first: seq<L.Resource>, m: nat, second: seq<L.Resource>, n: nat): L.World {
    [L.Transaction(first, m, false), L.Transaction(second, n, false)]
  }

  lemma RunStarts(w: L.World)
    requires L.WellFormed(w)
    ensures L.Run(w, []) == w
  {
  }

  /** Either of two transactions takes its next row while the other one does not hold it. */
  lemma TakesNext(first: seq<L.Resource>, m: nat, second: seq<L.Resource>, n: nat)
    requires m <= |first| && n <= |second|
    ensures m < |first| && first[m] !in second[..n] ==>
              L.Next(Pair(first, m, second, n), L.Take(0)) == Pair(first, m + 1, second, n)
    ensures n < |second| && second[n] !in first[..m] ==>
              L.Next(Pair(first, m, second, n), L.Take(1)) == Pair(first, m, second, n + 1)
  {
    var w := Pair(first, m, second, n);
    assert !L.WaitsFor(w, 0, 0) && !L.WaitsFor(w, 1, 1);
    assert m < |first| && first[m] !in second[..n] ==> !L.WaitsFor(w, 0, 1);
    assert n < |second| && second[n] !in first[..m] ==> !L.WaitsFor(w, 1, 0);
  }

  lemma TakeStep(w: L.World, steps: seq<L.Step>, step: L.Step)
    requires L.WellFormed(w)
    ensures L.Run(w, steps + [step]) == L.Next(L.Run(w, steps), step)
  {
    assert (steps + [step])[..|steps|] == steps;
  }

  lemma LessAsymmetric(a: string, b: string)
    requires Less(a, b)
    ensures !Less(b, a)
  {
    if Less(b, a) {
      LessTransitive(a, b, a);
      LessIrreflexive(a);
    }
  }
}
