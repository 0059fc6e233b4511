/** The week's shared boss: attacks one at a time under its row lock, with or without a rented ally. */
module WorldBoss {
  import opened Numbers
  import opened Options
  import C = Calendar
  import W = Wallets

  datatype Boss = Boss(week: string, maxHp: nat, hp: nat, endsAt: int, defeatedAt: Option<int>, killedBy: Option<string>)

  datatype DamageRow = DamageRow(user: string, damage: nat, hits: nat)

  datatype Rental = Rental(week: string, renter: string, owner: string, fee: nat, allyDamage: nat, at: int)

  datatype State = State(boss: Boss, damages: seq<DamageRow>, rentals: seq<Rental>, books: W.Books)

  /** Fighting alone, with a friend's unit, or with one that is not theirs to rent. */
  datatype Support = Alone | Rents(owner: string) | Unavailable

  /** `mayFight` stands for the checks on the pet and the hits left; `dealt` and `fell` are what the arena
      fight came to. */
  datatype Request = Request(user: string, now: int, mayFight: bool, support: Support, dealt: (nat, nat), fell: bool)

  datatype Outcome = MayNotFight | NotActive | NoSuchUnit | NotEnoughCoins | Landed(own: nat, ally: nat, fee: nat)

  const ARENA_HP_SCALE := 2.4
  const RENTAL_FEE := 20
  const OWNER_DAILY_CAP := 200

  // ----- Damage -----

  /** Arena damage in the week's HP. */
  function ToPool(damage: nat): nat {
    Round(damage as real / ARENA_HP_SCALE)
  }

  datatype Shares = Shares(own: nat, ally: nat, hpAfter: nat)

  /** Arena damage back in the week's HP: it adds up to what the boss really loses, all of it when it fell
      and never all of it when it did not. */
  function Split(hp: nat, own: nat, ally: nat, fell: bool): (s: Shares)
    requires hp > 0
    ensures s.own + s.ally + s.hpAfter == hp
    ensures s.hpAfter == 0 <==> fell
    ensures !fell ==> s.own <= ToPool(own) && s.ally <= ToPool(ally)
    ensures !fell && ToPool(own) + ToPool(ally) < hp ==> s.own == ToPool(own) && s.ally == ToPool(ally)
    ensures !fell && ToPool(own) + ToPool(ally) >= hp ==> s.hpAfter == 1
    ensures s.ally <= ToPool(ally)
    ensures fell && ToPool(own) + ToPool(ally) <= hp ==> s.ally == ToPool(ally)
    ensures fell && ToPool(own) + ToPool(ally) > hp ==> s.own == Min(hp, ToPool(own))
  {
    var limit := if fell then hp else hp - 1;
    var o := Min(limit, ToPool(own));
    var a := Min(limit - o, ToPool(ally));
    Shares(if fell then hp - a else o, a, if fell then 0 else hp - o - a)
  }

  function SumDamage(rows: seq<DamageRow>): nat {
    if rows == [] then 0 else SumDamage(rows[..|rows| - 1]) + rows[|rows| - 1].damage
  }

  function AllyDamage(rentals: seq<Rental>, week: string): nat {
    if rentals == [] then 0
    else
      var r := rentals[|rentals| - 1];
      AllyDamage(rentals[..|rentals| - 1], week) + if r.week == week then r.allyDamage else 0
  }

  function RowOf(rows: seq<DamageRow>, user: string): (k: nat)
    ensures k <= |rows| && (k < |rows| ==> rows[k].user == user)
    ensures forall j | 0 <= j < |rows| :: rows[j].user == user ==> k < |rows|
  {
    if rows == [] then 0
    else
      var n := |rows| - 1;
      var k := RowOf(rows[..n], user);
      if k < n then k else if rows[n].user == user then n else n + 1
  }

  /** Adds to the player's row, or makes one. */
  function AddDamage(rows: seq<DamageRow>, user: string, damage: nat): seq<DamageRow> {
    var k := RowOf(rows, user);
    if k < |rows| then rows[k := DamageRow(user, rows[k].damage + damage, rows[k].hits + 1)]
    else rows + [DamageRow(user, damage, 1)]
  }

  predicate OneRowEach(rows: seq<DamageRow>) {
    forall i, j | 0 <= i < j < |rows| :: rows[i].user != rows[j].user
  }

  function DamageOf(rows: seq<DamageRow>, user: string): nat {
    var k := RowOf(rows, user);
    if k < |rows| then rows[k].damage else 0
  }

  lemma {:induction false} SumAfterUpdate(rows: seq<DamageRow>, k: nat, row: DamageRow)
    requires k < |rows|
    ensures SumDamage(rows[k := row]) == SumDamage(rows) - rows[k].damage + row.damage
  {
    var n := |rows| - 1;
    if k == n {
      assert rows[k := row][..n] == rows[..n];
    } else {
      SumAfterUpdate(rows[..n], k, row);
      assert rows[k := row][..n] == rows[..n][k := row];
    }
  }

  /** Only the player's own total grows, by what they dealt. */
  lemma DamageAdded(rows: seq<DamageRow>, user: string, damage: nat)
    requires OneRowEach(rows)
    ensures var r := AddDamage(rows, user, damage);
            && OneRowEach(r) && SumDamage(r) == SumDamage(rows) + damage
            && DamageOf(r, user) == DamageOf(rows, user) + damage
            && (forall u: string | u != user :: DamageOf(r, u) == DamageOf(rows, u))
  {
    var k, r := RowOf(rows, user), AddDamage(rows, user, damage);
    if k < |rows| {
      SumAfterUpdate(rows, k, r[k]);
    } else {
      assert r[..|rows|] == rows;
    }
    forall u: string
      ensures DamageOf(r, u) == DamageOf(rows, u) + if u == user then damage else 0
    {
      SameRow(rows, r, u);
    }
  }

  lemma SameRow(rows: seq<DamageRow>, r: seq<DamageRow>, u: string)
    requires OneRowEach(rows) && OneRowEach(r) && |rows| <= |r|
    requires forall j | 0 <= j < |rows| :: rows[j].user == r[j].user
    ensures RowOf(rows, u) < |rows| ==> RowOf(r, u) == RowOf(rows, u)
  {
    if RowOf(rows, u) < |rows| {
      assert r[RowOf(rows, u)].user == u;
    }
  }

  // ----- Rent -----

  /** The start of today's Thai day. */
  function DayStart(now: int): (d: int)
    ensures d <= now < d + C.MS_PER_DAY && (d + C.BANGKOK_OFFSET_MS) % C.MS_PER_DAY == 0
  {
    (now + C.BANGKOK_OFFSET_MS) / C.MS_PER_DAY * C.MS_PER_DAY - C.BANGKOK_OFFSET_MS
  }

  function EarnedSince(rentals: seq<Rental>, owner: string, since: int): nat {
    if rentals == [] then 0
    else
      var r := rentals[|rentals| - 1];
      EarnedSince(rentals[..|rentals| - 1], owner, since) + if r.owner == owner && r.at >= since then r.fee else 0
  }

  /** What the owner can still earn today, up to the full fee. */
  function RentalFee(earned: nat): (fee: nat)
    ensures earned + RENTAL_FEE <= OWNER_DAILY_CAP ==> fee == RENTAL_FEE
    ensures earned < OWNER_DAILY_CAP < earned + RENTAL_FEE ==> earned + fee == OWNER_DAILY_CAP
    ensures earned >= OWNER_DAILY_CAP ==> fee == 0
  {
    Max(0, Min(RENTAL_FEE, OWNER_DAILY_CAP - earned))
  }

  /** Both wallets locked, and so there. */
  function BothLocked(books: W.Books, renter: string, owner: string): W.Books {
    W.Books(W.WithRows(books.purses, W.LockOrder([renter, owner])), books.records)
  }

  /** The books after the fee has changed hands; None when the renter cannot pay. */
  function PayRent(books: W.Books, renter: string, owner: string, fee: nat): Option<W.Books> {
    var locked := BothLocked(books, renter, owner);
    if fee > 0 then W.Transfer(locked, renter, owner, fee) else Some(locked)
  }

  // ----- An attack -----

  predicate IsEnded(b: Boss, now: int) {
    b.defeatedAt.Some? || now >= b.endsAt
  }

  /** A hit, once it is paid for: the boss row, the player's damage row, and the rental. */
  function Land(s: State, a: Request, books: W.Books, fee: nat): (State, Outcome)
    requires s.boss.hp > 0
  {
    var shares := Split(s.boss.hp, a.dealt.0, if a.support.Rents? then a.dealt.1 else 0, a.fell);
    var boss := s.boss.(hp := shares.hpAfter);
    var after := if a.fell then boss.(defeatedAt := Some(a.now), killedBy := Some(a.user)) else boss;
    var rentals :=
      if a.support.Rents? then s.rentals + [Rental(s.boss.week, a.user, a.support.owner, fee, shares.ally, a.now)]
      else s.rentals;
    (State(after, AddDamage(s.damages, a.user, shares.own), rentals, books), Landed(shares.own, shares.ally, fee))
  }

  /** One attack as a whole; a refused one changes nothing. */
  function Attack(s: State, a: Request): (State, Outcome)
    requires s.boss.hp == 0 ==> s.boss.defeatedAt.Some?
  {
    if !a.mayFight then (s, MayNotFight)
    else if IsEnded(s.boss, a.now) then (s, NotActive)
    else
      match a.support
      case Alone => Land(s, a, s.books, 0)
      case Unavailable => (s, NoSuchUnit)
      case Rents(owner) =>
        if owner == a.user then (s, NoSuchUnit)
        else
          var fee := RentalFee(EarnedSince(s.rentals, owner, DayStart(a.now)));
          match PayRent(s.books, a.user, owner, fee)
          case None => (s, NotEnoughCoins)
          case Some(books) => Land(s, a, books, fee)
  }

  // ----- What every run keeps -----

  function FeesOnDay(rentals: seq<Rental>, owner: string, day: int): nat {
    if rentals == [] then 0
    else
      var r := rentals[|rentals| - 1];
      FeesOnDay(rentals[..|rentals| - 1], owner, day) + if r.owner == owner && DayStart(r.at) == day then r.fee else 0
  }

  /** The boss's HP is exactly what players and allies took off it, it is defeated exactly at 0 HP, by one
      killer, and no owner has earned more than the cap on any day. */
  ghost predicate Accounted(s: State) {
    && s.boss.hp + SumDamage(s.damages) + AllyDamage(s.rentals, s.boss.week) == s.boss.maxHp
    && (s.boss.hp == 0 <==> s.boss.defeatedAt.Some?)
    && (s.boss.killedBy.Some? <==> s.boss.defeatedAt.Some?)
    && OneRowEach(s.damages)
    && W.Booked(s.books)
    && (forall owner: string, day: int :: FeesOnDay(s.rentals, owner, day) <= OWNER_DAILY_CAP)
  }

  lemma {:induction false} DayWithinSince(rentals: seq<Rental>, owner: string, now: int)
    ensures FeesOnDay(rentals, owner, DayStart(now)) <= EarnedSince(rentals, owner, DayStart(now))
  {
    if rentals != [] {
      DayWithinSince(rentals[..|rentals| - 1], owner, now);
      var r := rentals[|rentals| - 1];
      assert r.at >= DayStart(r.at);
    }
  }

  lemma FeeUnderCap(rentals: seq<Rental>, r: Rental, owner: string, day: int)
    requires FeesOnDay(rentals, owner, day) <= OWNER_DAILY_CAP
    requires r.fee == RentalFee(EarnedSince(rentals, r.owner, DayStart(r.at)))
    ensures FeesOnDay(rentals + [r], owner, day) <= OWNER_DAILY_CAP
  {
    assert (rentals + [r])[..|rentals|] == rentals;
    DayWithinSince(rentals, r.owner, r.at);
  }

  lemma LandKeepsAccounts(s: State, a: Request, books: W.Books, fee: nat)
    requires Accounted(s) && s.boss.hp > 0 && W.Booked(books)
    requires a.support.Rents? ==> fee == RentalFee(EarnedSince(s.rentals, a.support.owner, DayStart(a.now)))
    ensures var (r, outcome) := Land(s, a, books, fee);
            && Accounted(r) && r.books == books && r.boss.maxHp == s.boss.maxHp
            && outcome.Landed? && r.boss.hp + outcome.own + outcome.ally == s.boss.hp
            && DamageOf(r.damages, a.user) == DamageOf(s.damages, a.user) + outcome.own
            && (forall u: string | u != a.user :: DamageOf(r.damages, u) == DamageOf(s.damages, u))
  {
    hide W.Booked, Split, AddDamage, OneRowEach, SumDamage, FeesOnDay, RentalFee, DamageOf, DayStart;
    var (r, outcome) := Land(s, a, books, fee);
    DamageAdded(s.damages, a.user, outcome.own);
    if a.support.Rents? {
      var rental := Rental(s.boss.week, a.user, a.support.owner, fee, outcome.ally, a.now);
      assert (s.rentals + [rental])[..|s.rentals|] == s.rentals;
      forall owner: string, day: int
        ensures FeesOnDay(r.rentals, owner, day) <= OWNER_DAILY_CAP
      {
        FeeUnderCap(s.rentals, rental, owner, day);
      }
    }
  }

  /** Every attack keeps the accounts and makes no coins; one that lands takes its damage off the boss and
      adds it to that player alone, one that is refused changes nothing. */
  lemma AttackKeepsAccounts(s: State, a: Request)
    requires Accounted(s)
    ensures var (r, outcome) := Attack(s, a);
            && Accounted(r) && r.boss.maxHp == s.boss.maxHp && r.boss.week == s.boss.week
            && W.Total(r.books.records, W.Coin) == W.Total(s.books.records, W.Coin)
            && (!outcome.Landed? ==> r == s)
            && (outcome.Landed? ==>
                  && s.boss.defeatedAt.None? && a.now < s.boss.endsAt
                  && r.boss.hp + outcome.own + outcome.ally == s.boss.hp
                  && DamageOf(r.damages, a.user) == DamageOf(s.damages, a.user) + outcome.own
                  && (forall u: string | u != a.user :: DamageOf(r.damages, u) == DamageOf(s.damages, u)))
  {
    hide Land, W.Booked, W.Transfer, RentalFee, DamageOf, OneRowEach, SumDamage, FeesOnDay, AllyDamage;
    hide W.Total;
    if a.mayFight && !IsEnded(s.boss, a.now) {
      match a.support {
        case Alone =>
          LandKeepsAccounts(s, a, s.books, 0);
          LandKeepsWeek(s, a, s.books, 0);
        case Unavailable =>
        case Rents(owner) =>
          var fee := RentalFee(EarnedSince(s.rentals, owner, DayStart(a.now)));
          if owner != a.user {
            W.RowsChangeNothing(s.books, W.LockOrder([a.user, owner]));
            W.TransferConserves(BothLocked(s.books, a.user, owner), a.user, owner, fee);
            var paid := PayRent(s.books, a.user, owner, fee);
            if paid.Some? {
              LandKeepsAccounts(s, a, paid.value, fee);
              LandKeepsWeek(s, a, paid.value, fee);
            }
          }
      }
    }
  }

  lemma LandKeepsWeek(s: State, a: Request, books: W.Books, fee: nat)
    requires s.boss.hp > 0
    ensures Land(s, a, books, fee).0.boss.week == s.boss.week
  {
  }

  /** A week's attacks, in the order the boss's row lock lets them in. */
  function Campaign(s: State, attacks: seq<Request>): State
    requires Accounted(s)
    ensures Accounted(Campaign(s, attacks))
    decreases |attacks|
  {
    if attacks == [] then s
    else
      AttackKeepsAccounts(Campaign(s, attacks[..|attacks| - 1]), attacks[|attacks| - 1]);
      Attack(Campaign(s, attacks[..|attacks| - 1]), attacks[|attacks| - 1]).0
  }

  /** The week as its first request creates it; rentals of earlier weeks stay in the table. */
  function Opened(week: string, maxHp: nat, endsAt: int, rentals: seq<Rental>, books: W.Books): State {
    State(Boss(week, maxHp, maxHp, endsAt, None, None), [], rentals, books)
  }

  /** In every state a week can reach: HP, players' damage and allies' damage add up to the boss's maximum,
      it is defeated exactly at 0 HP, and the coins in circulation are those it opened with. */
  lemma {:induction false} WeekAddsUp(
      week: string, maxHp: nat, endsAt: int, rentals: seq<Rental>, books: W.Books, attacks: seq<Request>)
    requires maxHp > 0 && AllyDamage(rentals, week) == 0 && W.Booked(books)
    requires forall owner: string, day: int :: FeesOnDay(rentals, owner, day) <= OWNER_DAILY_CAP
    ensures Accounted(Opened(week, maxHp, endsAt, rentals, books))
    ensures var r := Campaign(Opened(week, maxHp, endsAt, rentals, books), attacks);
            && r.boss.week == week && r.boss.maxHp == maxHp
            && r.boss.hp + SumDamage(r.damages) + AllyDamage(r.rentals, week) == maxHp
            && (r.boss.hp == 0 <==> r.boss.defeatedAt.Some?)
            && W.Total(r.books.records, W.Coin) == W.Total(books.records, W.Coin)
    decreases |attacks|
  {
    hide Attack, W.Booked, FeesOnDay, W.Total;
    var s := Opened(week, maxHp, endsAt, rentals, books);
    if attacks != [] {
      WeekAddsUp(week, maxHp, endsAt, rentals, books, attacks[..|attacks| - 1]);
      AttackKeepsAccounts(Campaign(s, attacks[..|attacks| - 1]), attacks[|attacks| - 1]);
    }
  }

  /** Once the boss has fallen nothing about it changes any more: no damage, no other killer. */
  lemma {:induction false} TheFallIsFinal(s: State, attacks: seq<Request>)
    requires Accounted(s) && s.boss.defeatedAt.Some?
    ensures Campaign(s, attacks) == s
    decreases |attacks|
  {
    hide Land, W.Booked, PayRent;
    if attacks != [] {
      TheFallIsFinal(s, attacks[..|attacks| - 1]);
    }
  }
}
