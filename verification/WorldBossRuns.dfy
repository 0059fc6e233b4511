/** Attacks on the shared bosses as overlapping transactions: each takes the boss row, perhaps two wallet
    rows, writes, and commits or rolls back, while other attacks and other wallet transactions run. */
module WorldBossRuns {
  import opened Options
  import opened WorldBoss

  /** An attack under way. Once it fights it holds the row of `boss`, which it has read; once paid, it also holds
      both wallets. Nothing it has written shows before it commits. */
  datatype Attacker =
    | Idle
    | Fighting(a: Request, boss: Boss)
    | Paid(a: Request, boss: Boss, fee: nat)
    | Written(a: Request, boss: Boss, fee: nat, shares: Shares)

  /** The committed rows, and the transactions. Wallet session `i` belongs to attacker `i`; further sessions
      belong to anybody. */
  datatype World = World(
    bosses: map<string, Boss>, damages: map<string, seq<DamageRow>>, rentals: seq<Rental>, wallets: W.World,
    attackers: seq<Attacker>)

  datatype Step =
    | Begin(i: nat, a: Request, week: string)
    | Reserve(i: nat, user: string)
    | Discover(i: nat, user: string, currency: W.Currency, reward: int)
    | Rent(i: nat)
    | Write(i: nat)
    | Commit(i: nat)
    | Abort(i: nat)
    | Elsewhere(step: W.Step)

  // ----- Steps -----

  /** The boss row is there, nobody holds it, and the boss can be fought. */
  predicate CanBegin(w: World, i: nat, a: Request, week: string) {
    && i < |w.attackers| && w.attackers[i].Idle? && a.mayFight
    && week in w.bosses && !IsEnded(w.bosses[week], a.now)
    && (forall j | 0 <= j < |w.attackers| && !w.attackers[j].Idle? :: w.attackers[j].boss.week != week)
    && !a.support.Unavailable? && (a.support.Rents? ==> a.support.owner != a.user)
    && i < |w.wallets.sessions| && w.wallets.sessions[i].purses.Keys <= {a.user}
  }

  /** Before it takes the boss row an attacker may take one wallet, its own; once it fights beside an ally, its own
      and the owner's. */
  predicate CanReserve(w: World, i: nat, user: string) {
    && i < |w.attackers| && W.CanLock(w.wallets, i, user)
    && match w.attackers[i]
       case Idle => w.wallets.sessions[i].purses == map[]
       case Fighting(a, _) => a.support.Rents? && (user == a.user || user == a.support.owner)
       case _ => false
  }

  /** A pet that is brought up to date before the fight may discover species, which pays its owner. */
  predicate CanDiscover(w: World, i: nat, user: string) {
    i < |w.attackers| && w.attackers[i].Idle? && i < |w.wallets.sessions| && user in w.wallets.sessions[i].purses
  }

  /** Both wallets are locked. */
  predicate CanRent(w: World, i: nat) {
    && i < |w.attackers| && w.attackers[i].Fighting? && w.attackers[i].a.support.Rents?
    && i < |w.wallets.sessions|
    && w.attackers[i].a.user in w.wallets.sessions[i].purses
    && w.attackers[i].a.support.owner in w.wallets.sessions[i].purses
  }

  /** What the owner can still earn, by the committed rentals. */
  function FeeDue(rentals: seq<Rental>, a: Request): nat
    requires a.support.Rents?
  {
    RentalFee(EarnedSince(rentals, a.support.owner, DayStart(a.now)))
  }

  function Rolled(w: World, i: nat): World
    requires i < |w.attackers| && i < |w.wallets.sessions|
  {
    w.(wallets := W.Rollback(w.wallets, i), attackers := w.attackers[i := Idle])
  }

  /** The fee out of the one wallet and into the other, in the attacker's own session; None when the renter
      cannot pay. */
  function FeeMoved(wallets: W.World, i: nat, renter: string, owner: string, fee: nat): Option<W.World>
    requires i < |wallets.sessions| && renter in wallets.sessions[i].purses && owner in wallets.sessions[i].purses
  {
    if fee == 0 then Some(wallets)
    else if W.Change(wallets.sessions[i], renter, W.Coin, -(fee as int)).None? then None
    else Some(W.Pay(W.Pay(wallets, i, renter, W.Coin, -(fee as int)), i, owner, W.Coin, fee))
  }

  function Renting(w: World, i: nat): World
    requires CanRent(w, i)
  {
    var t := w.attackers[i];
    var fee := FeeDue(w.rentals, t.a);
    match FeeMoved(w.wallets, i, t.a.user, t.a.support.owner, fee)
    case None => Rolled(w, i)
    case Some(wallets) => w.(wallets := wallets, attackers := w.attackers[i := Paid(t.a, t.boss, fee)])
  }

  predicate CanWrite(w: World, i: nat) {
    && i < |w.attackers|
    && ((w.attackers[i].Fighting? && w.attackers[i].a.support.Alone?) || w.attackers[i].Paid?)
    && w.attackers[i].boss.hp > 0
  }

  /** The shares of a fight against the boss row as it was read. */
  function SharesOf(a: Request, boss: Boss): Shares
    requires boss.hp > 0
  {
    Split(boss.hp, a.dealt.0, if a.support.Rents? then a.dealt.1 else 0, a.fell)
  }

  function Writing(w: World, i: nat): World
    requires CanWrite(w, i)
  {
    var t := w.attackers[i];
    w.(attackers := w.attackers[i := Written(t.a, t.boss, if t.Paid? then t.fee else 0, SharesOf(t.a, t.boss))])
  }

  predicate CanCommit(w: World, i: nat) {
    && i < |w.attackers| && w.attackers[i].Written? && i < |w.wallets.sessions|
    && w.attackers[i].boss.week in w.damages
  }

  function BossAfter(t: Attacker): Boss
    requires t.Written?
  {
    var boss := t.boss.(hp := t.shares.hpAfter);
    if t.a.fell then boss.(defeatedAt := Some(t.a.now), killedBy := Some(t.a.user)) else boss
  }

  function RentalsAfter(t: Attacker): seq<Rental>
    requires t.Written?
  {
    if t.a.support.Rents? then [Rental(t.boss.week, t.a.user, t.a.support.owner, t.fee, t.shares.ally, t.a.now)] else []
  }

  /** Everything written shows at once; damage is added to the row as it is then. */
  function Committed(w: World, i: nat): World
    requires CanCommit(w, i)
  {
    var t := w.attackers[i];
    var week := t.boss.week;
    World(w.bosses[week := BossAfter(t)], w.damages[week := AddDamage(w.damages[week], t.a.user, t.shares.own)],
          w.rentals + RentalsAfter(t), W.Commit(w.wallets, i), w.attackers[i := Idle])
  }

  predicate IsElsewhere(w: World, step: W.Step) {
    step.i >= |w.attackers|
  }

  /** A step that is not enabled waits, which changes nothing. */
  function Next(w: World, step: Step): World {
    match step
    case Begin(i, a, week) =>
      if CanBegin(w, i, a, week) then w.(attackers := w.attackers[i := Fighting(a, w.bosses[week])]) else w
    case Reserve(i, user) => if CanReserve(w, i, user) then w.(wallets := W.Lock(w.wallets, i, user)) else w
    case Discover(i, user, currency, reward) =>
      if CanDiscover(w, i, user) then w.(wallets := W.Pay(w.wallets, i, user, currency, reward)) else w
    case Rent(i) => if CanRent(w, i) then Renting(w, i) else w
    case Write(i) => if CanWrite(w, i) then Writing(w, i) else w
    case Commit(i) => if CanCommit(w, i) then Committed(w, i) else w
    case Abort(i) => if i < |w.attackers| && i < |w.wallets.sessions| then Rolled(w, i) else w
    case Elsewhere(other) => if IsElsewhere(w, other) then w.(wallets := W.Next(w.wallets, other)) else w
  }

  function Run(w: World, steps: seq<Step>): World {
    if steps == [] then w else Next(Run(w, steps[..|steps| - 1]), steps[|steps| - 1])
  }

  // ----- What every state keeps -----

  /** The books of one boss: HP, players' damage and allies' damage add up. */
  predicate BossAccounted(boss: Boss, week: string, rows: seq<DamageRow>, rentals: seq<Rental>) {
    && boss.week == week
    && boss.hp + SumDamage(rows) + AllyDamage(rentals, week) == boss.maxHp
    && (boss.hp == 0 <==> boss.defeatedAt.Some?) && (boss.killedBy.Some? <==> boss.defeatedAt.Some?)
    && OneRowEach(rows)
  }

  ghost predicate Committable(w: World) {
    && (forall week | week in w.bosses ::
          week in w.damages && BossAccounted(w.bosses[week], week, w.damages[week], w.rentals))
    && (forall owner: string, day: int :: FeesOnDay(w.rentals, owner, day) <= OWNER_DAILY_CAP)
  }

  /** What an attack under way has read is still so, and nobody else can change it. */
  predicate AttackerSound(w: World, i: nat)
    requires i < |w.attackers| <= |w.wallets.sessions|
  {
    var t := w.attackers[i];
    !t.Idle? ==>
      && t.boss.week in w.bosses && w.bosses[t.boss.week] == t.boss && t.boss.defeatedAt.None? && t.boss.hp > 0
      && (t.Paid? ==> t.a.support.Rents?)
      && (t.Written? ==> t.shares == SharesOf(t.a, t.boss))
      && ((t.Paid? || t.Written?) && t.a.support.Rents? ==>
            t.a.support.owner in w.wallets.sessions[i].purses && t.fee == FeeDue(w.rentals, t.a))
  }

  ghost predicate Sound(w: World) {
    && W.Sound(w.wallets) && Committable(w)
    && |w.attackers| <= |w.wallets.sessions|
    && (forall i | 0 <= i < |w.attackers| :: AttackerSound(w, i))
    && (forall i, j | 0 <= i < j < |w.attackers| && !w.attackers[i].Idle? && !w.attackers[j].Idle? ::
          w.attackers[i].boss.week != w.attackers[j].boss.week)
  }

  // ----- Every step keeps it -----

  /** A step of attacker `i` that leaves the committed rows and the other sessions alone. */
  lemma OwnStepKeepsSound(w: World, i: nat, wallets: W.World, t: Attacker)
    requires Sound(w) && i < |w.attackers| && W.Sound(wallets) && |wallets.sessions| == |w.wallets.sessions|
    requires forall j | 0 <= j < |wallets.sessions| && j != i :: wallets.sessions[j] == w.wallets.sessions[j]
    requires t.Idle? || (!w.attackers[i].Idle? && t.boss == w.attackers[i].boss)
             || forall j | 0 <= j < |w.attackers| && !w.attackers[j].Idle? :: w.attackers[j].boss.week != t.boss.week
    requires AttackerSound(w.(wallets := wallets, attackers := w.attackers[i := t]), i)
    ensures Sound(w.(wallets := wallets, attackers := w.attackers[i := t]))
  {
    hide W.Sound, Committable, SharesOf, FeeDue;
    var r := w.(wallets := wallets, attackers := w.attackers[i := t]);
    assert Committable(w) ==> Committable(r) by {
      SameRows(w, r);
    }
    forall j | 0 <= j < |r.attackers|
      ensures AttackerSound(r, j)
    {
      assert AttackerSound(w, j);
    }
  }

  lemma SameRows(w: World, r: World)
    requires r.bosses == w.bosses && r.damages == w.damages && r.rentals == w.rentals
    ensures Committable(w) ==> Committable(r)
  {
  }

  lemma BeginKeepsSound(w: World, i: nat, a: Request, week: string)
    requires Sound(w) && CanBegin(w, i, a, week)
    ensures Sound(w.(attackers := w.attackers[i := Fighting(a, w.bosses[week])]))
  {
    hide W.Sound, SumDamage, AllyDamage, FeesOnDay;
    assert BossAccounted(w.bosses[week], week, w.damages[week], w.rentals);
    OwnStepKeepsSound(w, i, w.wallets, Fighting(a, w.bosses[week]));
  }

  lemma ReserveKeepsSound(w: World, i: nat, user: string)
    requires Sound(w) && CanReserve(w, i, user)
    ensures Sound(w.(wallets := W.Lock(w.wallets, i, user)))
  {
    hide W.Sound, Committable;
    assert AttackerSound(w, i);
    W.LockKeepsSound(w.wallets, i, user);
    OwnStepKeepsSound(w, i, W.Lock(w.wallets, i, user), w.attackers[i]);
    assert w.attackers[i := w.attackers[i]] == w.attackers;
  }

  lemma DiscoverKeepsSound(w: World, i: nat, user: string, c: W.Currency, reward: int)
    requires Sound(w) && CanDiscover(w, i, user)
    ensures Sound(w.(wallets := W.Pay(w.wallets, i, user, c, reward)))
  {
    hide W.Sound, Committable, W.Change;
    W.PayKeepsSound(w.wallets, i, user, c, reward);
    OwnStepKeepsSound(w, i, W.Pay(w.wallets, i, user, c, reward), Idle);
    assert w.attackers[i := Idle] == w.attackers;
  }

  lemma RollKeepsSound(w: World, i: nat)
    requires Sound(w) && i < |w.attackers|
    ensures Sound(Rolled(w, i))
  {
    hide W.Sound, Committable;
    W.RollbackKeepsSound(w.wallets, i);
    OwnStepKeepsSound(w, i, W.Rollback(w.wallets, i), Idle);
  }

  lemma RentKeepsSound(w: World, i: nat)
    requires Sound(w) && CanRent(w, i)
    ensures Sound(Renting(w, i))
  {
    hide W.Sound, Committable, W.Change, FeeDue;
    var t := w.attackers[i];
    var fee := FeeDue(w.rentals, t.a);
    assert AttackerSound(w, i);
    MovedKeepsSound(w.wallets, i, t.a.user, t.a.support.owner, fee);
    match FeeMoved(w.wallets, i, t.a.user, t.a.support.owner, fee) {
      case None => RollKeepsSound(w, i);
      case Some(wallets) => OwnStepKeepsSound(w, i, wallets, Paid(t.a, t.boss, fee));
    }
  }

  lemma PurseKept(s: W.Session, user: string, c: W.Currency, amount: int)
    requires user in s.purses && W.Change(s, user, c, amount).Some?
    ensures W.Change(s, user, c, amount).value.purses.Keys == s.purses.Keys
  {
  }

  /** The owner's income never fails, and the attacker keeps hold of both wallets. */
  lemma MovedKeepsSound(wallets: W.World, i: nat, renter: string, owner: string, fee: nat)
    requires W.Sound(wallets) && i < |wallets.sessions|
    requires renter in wallets.sessions[i].purses && owner in wallets.sessions[i].purses
    ensures var moved := FeeMoved(wallets, i, renter, owner, fee);
            moved.Some? ==>
              && W.Sound(moved.value) && |moved.value.sessions| == |wallets.sessions|
              && moved.value.committed == wallets.committed
              && owner in moved.value.sessions[i].purses
              && forall j | 0 <= j < |wallets.sessions| && j != i :: moved.value.sessions[j] == wallets.sessions[j]
  {
    hide W.Sound, W.Change;
    var s := wallets.sessions[i];
    if fee > 0 && W.Change(s, renter, W.Coin, -(fee as int)).Some? {
      PurseKept(s, renter, W.Coin, -(fee as int));
      W.PayKeepsSound(wallets, i, renter, W.Coin, -(fee as int));
      var paid := W.Pay(wallets, i, renter, W.Coin, -(fee as int));
      assert paid.sessions[i].purses.Keys == s.purses.Keys;
      IncomeFits(paid.sessions[i], owner, fee);
      PurseKept(paid.sessions[i], owner, W.Coin, fee);
      W.PayKeepsSound(paid, i, owner, W.Coin, fee);
    }
  }

  lemma IncomeFits(s: W.Session, owner: string, fee: nat)
    ensures W.Change(s, owner, W.Coin, fee).Some?
  {
  }

  lemma WriteKeepsSound(w: World, i: nat)
    requires Sound(w) && CanWrite(w, i)
    ensures Sound(Writing(w, i))
  {
    hide W.Sound, Committable, SharesOf, FeeDue;
    var t := w.attackers[i];
    assert AttackerSound(w, i);
    OwnStepKeepsSound(w, i, w.wallets, Written(t.a, t.boss, if t.Paid? then t.fee else 0, SharesOf(t.a, t.boss)));
  }

  // ----- Committing -----

  lemma AllyDamageMore(rentals: seq<Rental>, r: Rental, week: string)
    ensures AllyDamage(rentals + [r], week) == AllyDamage(rentals, week) + if r.week == week then r.allyDamage else 0
  {
    assert (rentals + [r])[..|rentals|] == rentals;
  }

  lemma EarnedMore(rentals: seq<Rental>, r: Rental, owner: string, since: int)
    requires r.owner != owner
    ensures EarnedSince(rentals + [r], owner, since) == EarnedSince(rentals, owner, since)
  {
    assert (rentals + [r])[..|rentals|] == rentals;
  }

  /** The rental of a written attack adds its ally's damage to its own boss alone. */
  lemma AllyDamageAfter(rentals: seq<Rental>, t: Attacker, week: string)
    requires t.Written? && (!t.a.support.Rents? ==> t.shares.ally == 0)
    ensures AllyDamage(rentals + RentalsAfter(t), week)
            == AllyDamage(rentals, week) + if t.boss.week == week then t.shares.ally else 0
  {
    if t.a.support.Rents? {
      AllyDamageMore(rentals, RentalsAfter(t)[0], week);
    } else {
      assert rentals + [] == rentals;
    }
  }

  lemma SharesAddUp(a: Request, boss: Boss)
    requires boss.hp > 0
    ensures var s := SharesOf(a, boss);
            s.own + s.ally + s.hpAfter == boss.hp && (s.hpAfter == 0 <==> a.fell) && (!a.support.Rents? ==> s.ally == 0)
  {
  }

  lemma BossCommitted(w: World, i: nat)
    requires Sound(w) && CanCommit(w, i)
    ensures var t, r := w.attackers[i], Committed(w, i);
            BossAccounted(r.bosses[t.boss.week], t.boss.week, r.damages[t.boss.week], r.rentals)
  {
    hide W.Sound, SumDamage, AllyDamage, FeesOnDay, SharesOf, AddDamage, RentalsAfter, OneRowEach, FeeDue, DamageOf;
    var t := w.attackers[i];
    var week := t.boss.week;
    assert AttackerSound(w, i);
    assert BossAccounted(w.bosses[week], week, w.damages[week], w.rentals);
    SharesAddUp(t.a, t.boss);
    DamageAdded(w.damages[week], t.a.user, t.shares.own);
    AllyDamageAfter(w.rentals, t, week);
  }

  lemma CapKept(w: World, i: nat, owner: string, day: int)
    requires Sound(w) && CanCommit(w, i)
    ensures FeesOnDay(w.rentals + RentalsAfter(w.attackers[i]), owner, day) <= OWNER_DAILY_CAP
  {
    hide W.Sound, SumDamage, AllyDamage, FeesOnDay, SharesOf, RentalFee, DayStart, EarnedSince;
    var t := w.attackers[i];
    assert AttackerSound(w, i);
    assert FeesOnDay(w.rentals, owner, day) <= OWNER_DAILY_CAP;
    if t.a.support.Rents? {
      FeeUnderCap(w.rentals, RentalsAfter(t)[0], owner, day);
    } else {
      assert w.rentals + [] == w.rentals;
    }
  }

  lemma RowsCommitted(w: World, i: nat)
    requires Sound(w) && CanCommit(w, i)
    ensures Committable(Committed(w, i))
  {
    hide W.Sound, SumDamage, AllyDamage, FeesOnDay, SharesOf, AddDamage, RentalsAfter, OneRowEach, FeeDue, W.Commit;
    var t, r := w.attackers[i], Committed(w, i);
    assert AttackerSound(w, i);
    SharesAddUp(t.a, t.boss);
    forall week | week in r.bosses
      ensures week in r.damages && BossAccounted(r.bosses[week], week, r.damages[week], r.rentals)
    {
      if week == t.boss.week {
        BossCommitted(w, i);
      } else {
        assert BossAccounted(w.bosses[week], week, w.damages[week], w.rentals);
        AllyDamageAfter(w.rentals, t, week);
      }
    }
    forall owner: string, day: int
      ensures FeesOnDay(r.rentals, owner, day) <= OWNER_DAILY_CAP
    {
      CapKept(w, i, owner, day);
    }
  }

  /** A commit changes nothing another attack has read: that one has another boss, and another owner. */
  lemma OthersUnaffected(w: World, i: nat, j: nat)
    requires Sound(w) && CanCommit(w, i) && j < |w.attackers| && j != i
    ensures AttackerSound(Committed(w, i), j)
  {
    hide Committable, SharesOf, AddDamage, RentalFee, DayStart, EarnedSince, W.SessionSound, W.Booked, BossAfter;
    var t, u := w.attackers[i], w.attackers[j];
    assert AttackerSound(w, i) && AttackerSound(w, j);
    if t.a.support.Rents? && !u.Idle? && u.a.support.Rents? && (u.Paid? || u.Written?) {
      assert t.a.support.owner in w.wallets.sessions[i].purses && u.a.support.owner in w.wallets.sessions[j].purses;
      EarnedMore(w.rentals, RentalsAfter(t)[0], u.a.support.owner, DayStart(u.a.now));
    } else if !t.a.support.Rents? {
      assert w.rentals + [] == w.rentals;
    }
  }

  lemma CommitKeepsSound(w: World, i: nat)
    requires Sound(w) && CanCommit(w, i)
    ensures Sound(Committed(w, i))
  {
    hide W.Sound, Committable, SharesOf, AddDamage, RentalsAfter, FeeDue, AttackerSound;
    W.CommitKeepsSound(w.wallets, i);
    RowsCommitted(w, i);
    var r := Committed(w, i);
    forall j | 0 <= j < |r.attackers|
      ensures AttackerSound(r, j)
    {
      if j != i {
        OthersUnaffected(w, i, j);
      } else {
        IdleAttacker(r, i);
      }
    }
  }

  lemma IdleAttacker(w: World, i: nat)
    requires i < |w.attackers| <= |w.wallets.sessions| && w.attackers[i].Idle?
    ensures AttackerSound(w, i)
  {
  }

  lemma ElsewhereKeepsSound(w: World, step: W.Step)
    requires Sound(w) && IsElsewhere(w, step)
    ensures Sound(w.(wallets := W.Next(w.wallets, step)))
  {
    hide W.Sound, Committable, SharesOf, FeeDue, W.Change;
    W.NextKeepsSound(w.wallets, step);
    var r := w.(wallets := W.Next(w.wallets, step));
    SameRows(w, r);
    forall j | 0 <= j < |r.attackers|
      ensures AttackerSound(r, j)
    {
      assert AttackerSound(w, j);
    }
  }

  // ----- Whole runs -----

  lemma NextKeepsSound(w: World, step: Step)
    requires Sound(w)
    ensures Sound(Next(w, step))
  {
    hide Sound, CanBegin, CanReserve, CanDiscover, CanRent, CanWrite, CanCommit, IsElsewhere, Rolled, Renting, Writing,
         Committed;
    match step {
      case Begin(i, a, week) =>
        if CanBegin(w, i, a, week) {
          BeginKeepsSound(w, i, a, week);
        }
      case Reserve(i, user) =>
        if CanReserve(w, i, user) {
          ReserveKeepsSound(w, i, user);
        }
      case Discover(i, user, currency, reward) =>
        if CanDiscover(w, i, user) {
          DiscoverKeepsSound(w, i, user, currency, reward);
        }
      case Rent(i) =>
        if CanRent(w, i) {
          RentKeepsSound(w, i);
        }
      case Write(i) =>
        if CanWrite(w, i) {
          WriteKeepsSound(w, i);
        }
      case Commit(i) =>
        if CanCommit(w, i) {
          CommitKeepsSound(w, i);
        }
      case Abort(i) =>
        if i < |w.attackers| && i < |w.wallets.sessions| {
          RollKeepsSound(w, i);
        }
      case Elsewhere(other) =>
        if IsElsewhere(w, other) {
          ElsewhereKeepsSound(w, other);
        }
    }
  }

  /** The same bosses, each with its maximum; one that has fallen is as it was, and so are its damages. */
  predicate Follows(w: World, r: World) {
    && r.bosses.Keys == w.bosses.Keys
    && forall week | week in w.bosses ::
         && r.bosses[week].maxHp == w.bosses[week].maxHp
         && (week in w.damages && w.bosses[week].defeatedAt.Some? ==>
               && r.bosses[week] == w.bosses[week] && week in r.damages && r.damages[week] == w.damages[week]
               && AllyDamage(r.rentals, week) == AllyDamage(w.rentals, week))
  }

  lemma NextFollows(w: World, step: Step)
    requires Sound(w)
    ensures Follows(w, Next(w, step))
  {
    hide W.Sound, Committable, SharesOf, AddDamage, RentalsAfter, FeeDue, W.Next, W.Commit, W.Rollback, W.Pay, FeeMoved,
         W.CanLock, AllyDamage, W.Lock;
    if step.Commit? && CanCommit(w, step.i) {
      var t := w.attackers[step.i];
      assert AttackerSound(w, step.i);
      SharesAddUp(t.a, t.boss);
      forall week | week in w.bosses && week != t.boss.week
        ensures AllyDamage(w.rentals + RentalsAfter(t), week) == AllyDamage(w.rentals, week)
      {
        AllyDamageAfter(w.rentals, t, week);
      }
    }
  }

  /** Every boss untouched, nobody at work; `n` attackers and `m` other wallet transactions to come. */
  function Opening(bosses: map<string, Boss>, rentals: seq<Rental>, books: W.Books, n: nat, m: nat): World {
    World(bosses, map week | week in bosses :: [], rentals, W.World(books, seq(n + m, _ => W.IDLE)), seq(n, _ => Idle))
  }

  predicate Untouched(bosses: map<string, Boss>, rentals: seq<Rental>) {
    forall week | week in bosses ::
      && bosses[week] == Boss(week, bosses[week].maxHp, bosses[week].maxHp, bosses[week].endsAt, None, None)
      && bosses[week].maxHp > 0 && AllyDamage(rentals, week) == 0
  }

  lemma OpeningSound(bosses: map<string, Boss>, rentals: seq<Rental>, books: W.Books, n: nat, m: nat)
    requires Untouched(bosses, rentals) && W.Booked(books)
    requires forall owner: string, day: int :: FeesOnDay(rentals, owner, day) <= OWNER_DAILY_CAP
    ensures Sound(Opening(bosses, rentals, books, n, m))
  {
    hide AllyDamage, FeesOnDay, W.Booked;
    W.IdleSound(books);
  }

  lemma {:induction false} RunKeepsSound(w: World, steps: seq<Step>)
    requires Sound(w)
    ensures Sound(Run(w, steps)) && Run(w, steps).bosses.Keys == w.bosses.Keys
    ensures forall week | week in w.bosses :: Run(w, steps).bosses[week].maxHp == w.bosses[week].maxHp
  {
    hide Sound, Next, AllyDamage;
    if steps != [] {
      var before := steps[..|steps| - 1];
      RunKeepsSound(w, before);
      NextKeepsSound(Run(w, before), steps[|steps| - 1]);
      NextFollows(Run(w, before), steps[|steps| - 1]);
    }
  }

  /** However attacks on any number of bosses and other wallet transactions overlap, what is committed adds up
      in every state: for every boss, HP, players' damage and allies' damage make up its maximum, it is
      defeated exactly at 0 HP and then has a killer; no owner has earned more than the cap on any day, also
      from renters who attack different bosses at once; and every balance is what its records sum to. */
  lemma EveryStateAddsUp(
      bosses: map<string, Boss>, rentals: seq<Rental>, books: W.Books, n: nat, m: nat, steps: seq<Step>, week: string)
    requires Untouched(bosses, rentals) && W.Booked(books) && week in bosses
    requires forall owner: string, day: int :: FeesOnDay(rentals, owner, day) <= OWNER_DAILY_CAP
    ensures var r := Run(Opening(bosses, rentals, books, n, m), steps);
            && week in r.bosses && week in r.damages
            && r.bosses[week].hp + SumDamage(r.damages[week]) + AllyDamage(r.rentals, week) == bosses[week].maxHp
            && (r.bosses[week].hp == 0 <==> r.bosses[week].defeatedAt.Some?)
            && (r.bosses[week].killedBy.Some? <==> r.bosses[week].defeatedAt.Some?)
            && (forall owner: string, day: int :: FeesOnDay(r.rentals, owner, day) <= OWNER_DAILY_CAP)
            && W.Booked(r.wallets.committed)
  {
    hide Run, SumDamage, AllyDamage, FeesOnDay, W.Booked, W.SessionSound;
    var w := Opening(bosses, rentals, books, n, m);
    OpeningSound(bosses, rentals, books, n, m);
    RunKeepsSound(w, steps);
    var r := Run(w, steps);
    assert BossAccounted(r.bosses[week], week, r.damages[week], r.rentals);
  }

  /** Once a boss has fallen, no transaction that is under way or still to come changes its row, its killer or
      anybody's damage to it. */
  lemma {:induction false} FallenForGood(w: World, steps: seq<Step>, week: string)
    requires Sound(w) && week in w.bosses && w.bosses[week].defeatedAt.Some?
    ensures var r := Run(w, steps);
            && week in r.bosses && r.bosses[week] == w.bosses[week]
            && week in w.damages && week in r.damages && r.damages[week] == w.damages[week]
            && AllyDamage(r.rentals, week) == AllyDamage(w.rentals, week)
  {
    hide Next, AllyDamage, AttackerSound, W.Sound, BossAccounted;
    assert week in w.damages;
    if steps != [] {
      var before := steps[..|steps| - 1];
      FallenForGood(w, before, week);
      RunKeepsSound(w, before);
      NextFollows(Run(w, before), steps[|steps| - 1]);
    }
  }

  // ----- One attack by itself -----

  /** What an attack on one boss sees committed. */
  function View(w: World, week: string): State
    requires week in w.bosses && week in w.damages
  {
    State(w.bosses[week], w.damages[week], w.rentals, w.wallets.committed)
  }

  /** Nothing stands in the way of an attack: its own session is new, and nobody holds these wallets. */
  predicate Free(w: World, i: nat, users: seq<string>) {
    && i < |w.wallets.sessions| && w.wallets.sessions[i] == W.IDLE
    && forall u, j | u in users && 0 <= j < |w.wallets.sessions| :: u !in w.wallets.sessions[j].purses
  }

  /** An attack without an ally that runs through without interruption is the attack as a whole. */
  lemma AloneIsAttack(w: World, i: nat, a: Request, week: string)
    requires Sound(w) && CanBegin(w, i, a, week) && Free(w, i, []) && a.support.Alone?
    ensures var r := Run(w, [Begin(i, a, week), Write(i), Commit(i)]);
            week in w.damages && week in r.bosses && week in r.damages
            && View(r, week) == Attack(View(w, week), a).0
  {
    hide W.Sound, SumDamage, AllyDamage, FeesOnDay, AddDamage, Split, RentalFee;
    assert BossAccounted(w.bosses[week], week, w.damages[week], w.rentals);
    var steps := [Begin(i, a, week), Write(i), Commit(i)];
    assert steps[..3] == steps && Run(w, steps[..0]) == w;
    OneStep(w, steps, 0);
    OneStep(w, steps, 1);
    OneStep(w, steps, 2);
    assert w.wallets.committed.purses + map[] == w.wallets.committed.purses;
    assert w.wallets.committed.records + [] == w.wallets.committed.records && w.rentals + [] == w.rentals;
  }

  function RowOrEmpty(purses: map<string, W.Purse>, user: string): W.Purse {
    if user in purses then purses[user] else W.EMPTY
  }

  /** Both wallets in a session that has locked them and nothing else. */
  function BothRows(purses: map<string, W.Purse>, renter: string, owner: string): map<string, W.Purse> {
    map[renter := RowOrEmpty(purses, renter), owner := RowOrEmpty(purses, owner)]
  }

  lemma BothLockedRows(books: W.Books, renter: string, owner: string)
    requires renter != owner
    ensures BothLocked(books, renter, owner) == W.Books(books.purses + BothRows(books.purses, renter, owner), books.records)
  {
    assert [renter, owner][..1] == [renter];
    assert W.LockOrder([renter]) == [renter] by {
      assert [renter][..0] == [];
    }
    var order := W.LockOrder([renter, owner]);
    assert W.Insert([], owner) == [owner] && [renter][1..] == [];
    assert order == W.Insert([renter], owner);
    assert order == [renter, owner] || order == [owner, renter];
    assert W.WithRows(books.purses, order[..1]) == W.WithRow(books.purses, order[0]) by {
      assert order[..1][..0] == [];
    }
    assert W.WithRows(books.purses, order) == W.WithRow(W.WithRow(books.purses, order[0]), order[1]);
    assert W.WithRow(W.WithRow(books.purses, order[0]), order[1]) == books.purses + BothRows(books.purses, renter, owner);
  }

  /** The books as a session sees them. */
  function Seen(b: W.Books, s: W.Session): W.Books {
    W.Books(b.purses + s.purses, b.records + s.records)
  }

  /** A change in a session that holds the row is the change of what it sees. */
  lemma ChangeSeen(b: W.Books, s: W.Session, user: string, amount: int)
    requires user in s.purses
    ensures var mine, all := W.Change(s, user, W.Coin, amount), W.Change(Seen(b, s), user, W.Coin, amount);
            && mine.Some? == all.Some?
            && (mine.Some? ==> all.value == Seen(b, mine.value) && mine.value.purses.Keys == s.purses.Keys)
  {
    var mine, all := W.Change(s, user, W.Coin, amount), W.Change(Seen(b, s), user, W.Coin, amount);
    if mine.Some? {
      assert b.purses + mine.value.purses == all.value.purses;
      assert b.records + mine.value.records == all.value.records;
    }
  }

  /** What a session that moved the fee commits is what the transfer as a whole leaves. */
  lemma MovedIsTransfer(wallets: W.World, i: nat, renter: string, owner: string, fee: nat)
    requires i < |wallets.sessions| && renter != owner
    requires wallets.sessions[i] == W.Books(BothRows(wallets.committed.purses, renter, owner), [])
    ensures var moved, paid := FeeMoved(wallets, i, renter, owner, fee), PayRent(wallets.committed, renter, owner, fee);
            && moved.Some? == paid.Some?
            && (moved.Some? ==> i < |moved.value.sessions| && W.Commit(moved.value, i).committed == paid.value)
  {
    hide W.Change, BothLocked;
    BothLockedRows(wallets.committed, renter, owner);
    var b, s := wallets.committed, wallets.sessions[i];
    assert b.records + [] == b.records;
    assert BothLocked(b, renter, owner) == Seen(b, s);
    if fee > 0 {
      ChangeSeen(b, s, renter, -(fee as int));
      var paid := W.Change(s, renter, W.Coin, -(fee as int));
      if paid.Some? {
        ChangeSeen(b, paid.value, owner, fee);
        IncomeFits(paid.value, owner, fee);
      }
    }
  }

  /** Paying, writing and committing are the rest of the attack as a whole. */
  lemma PaidIsLanded(w: World, i: nat, a: Request, week: string)
    requires i < |w.attackers| && i < |w.wallets.sessions| && a.support.Rents? && a.support.owner != a.user
    requires week in w.bosses && week in w.damages && w.bosses[week].hp > 0 && w.bosses[week].week == week
    requires w.attackers[i] == Fighting(a, w.bosses[week])
    requires w.wallets.sessions[i] == W.Books(BothRows(w.wallets.committed.purses, a.user, a.support.owner), [])
    ensures var r := Next(Next(Next(w, Rent(i)), Write(i)), Commit(i));
            var fee := FeeDue(w.rentals, a);
            var paid := PayRent(w.wallets.committed, a.user, a.support.owner, fee);
            && week in r.bosses && week in r.damages
            && View(r, week) == if paid.None? then View(w, week) else Land(View(w, week), a, paid.value, fee).0
  {
    hide AddDamage, Split, FeeDue, PayRent, FeeMoved, W.Commit;
    MovedIsTransfer(w.wallets, i, a.user, a.support.owner, FeeDue(w.rentals, a));
  }

  /** An attack with an ally that runs through without interruption is the attack as a whole, whichever
      wallet comes first; one whose renter cannot pay leaves nothing behind. */
  lemma RentedIsAttack(w: World, i: nat, a: Request, week: string, first: string, second: string)
    requires Sound(w) && CanBegin(w, i, a, week) && a.support.Rents? && Free(w, i, [a.user, a.support.owner])
    requires (first, second) == (a.user, a.support.owner) || (first, second) == (a.support.owner, a.user)
    ensures var r := Run(w, [Begin(i, a, week), Reserve(i, first), Reserve(i, second), Rent(i), Write(i), Commit(i)]);
            week in w.damages && week in r.bosses && week in r.damages
            && View(r, week) == Attack(View(w, week), a).0
  {
    hide W.Sound, SumDamage, AllyDamage, FeesOnDay, RentalFee, PayRent, Land, CanRent, Renting, Writing, Committed,
         EarnedSince, DayStart, Next;
    assert BossAccounted(w.bosses[week], week, w.damages[week], w.rentals);
    SixSteps(w, [Begin(i, a, week), Reserve(i, first), Reserve(i, second), Rent(i), Write(i), Commit(i)]);
    BothReserved(w, i, a, week, first, second);
    PaidIsLanded(Next(Next(Next(w, Begin(i, a, week)), Reserve(i, first)), Reserve(i, second)), i, a, week);
  }

  lemma OneStep(w: World, steps: seq<Step>, k: nat)
    requires k < |steps|
    ensures Run(w, steps[..k + 1]) == Next(Run(w, steps[..k]), steps[k])
  {
    assert steps[..k + 1][..k] == steps[..k];
  }

  lemma SixSteps(w: World, steps: seq<Step>)
    requires |steps| == 6
    ensures Run(w, steps)
            == Next(Next(Next(Next(Next(Next(w, steps[0]), steps[1]), steps[2]), steps[3]), steps[4]), steps[5])
  {
    hide Next;
    assert steps[..6] == steps && Run(w, steps[..0]) == w;
    OneStep(w, steps, 0);
    OneStep(w, steps, 1);
    OneStep(w, steps, 2);
    OneStep(w, steps, 3);
    OneStep(w, steps, 4);
    OneStep(w, steps, 5);
  }

  lemma BothReserved(w: World, i: nat, a: Request, week: string, first: string, second: string)
    requires Sound(w) && CanBegin(w, i, a, week) && a.support.Rents? && Free(w, i, [a.user, a.support.owner])
    requires (first, second) == (a.user, a.support.owner) || (first, second) == (a.support.owner, a.user)
    ensures var b := w.wallets.committed;
            var session := W.Books(BothRows(b.purses, a.user, a.support.owner), []);
            Next(Next(Next(w, Begin(i, a, week)), Reserve(i, first)), Reserve(i, second))
            == w.(wallets := w.wallets.(sessions := w.wallets.sessions[i := session]),
                  attackers := w.attackers[i := Fighting(a, w.bosses[week])])
  {
    hide W.Sound, Committable;
    assert a.user in [a.user, a.support.owner] && a.support.owner in [a.user, a.support.owner];
    var w1 := Next(w, Begin(i, a, week));
    var w2 := Next(w1, Reserve(i, first));
    assert w2.wallets.sessions
           == w.wallets.sessions[i := W.Books(map[first := RowOrEmpty(w.wallets.committed.purses, first)], [])];
    var w3 := Next(w2, Reserve(i, second));
    assert w3.wallets.sessions[i].purses == BothRows(w.wallets.committed.purses, a.user, a.support.owner);
    assert w3.wallets.sessions
           == w.wallets.sessions[i := W.Books(BothRows(w.wallets.committed.purses, a.user, a.support.owner), [])];
  }
}
