/** The wallet and world boss services in their own form: rows updated step by step inside a transaction
    that is rolled back when a step fails. Every method is proved equal to the rule it carries out. */
module WorldBossService {
  import opened Options
  import opened WorldBoss

  /** The wallet rows and the transaction book. */
  class WalletRows {
    var purses: map<string, W.Purse>
    var records: seq<W.Record>

    function Now(): W.Books
      reads this
    {
      W.Books(purses, records)
    }

    constructor (books: W.Books)
      ensures Now() == books
    {
      purses, records := books.purses, books.records;
    }

    method Restore(books: W.Books)
      modifies this
      ensures Now() == books
    {
      purses, records := books.purses, books.records;
    }

    /** Creates the wallet row unless there is one. */
    method EnsureRow(user: string)
      modifies this`purses
      ensures purses == W.WithRow(old(purses), user)
    {
      if user !in purses {
        purses := purses[user := W.EMPTY];
      }
    }

    /** Takes the rows one by one in user order, creating those that are missing. */
    method LockWallets(userIds: seq<string>) returns (locked: seq<string>)
      modifies this`purses
      ensures locked == W.LockOrder(userIds) && W.Rising(locked)
      ensures purses == W.WithRows(old(purses), locked)
    {
      var sorted := W.LockOrder(userIds);
      W.LockOrderRising(userIds);
      locked := [];
      for k := 0 to |sorted|
        invariant locked == sorted[..k]
        invariant purses == W.WithRows(old(purses), locked)
      {
        EnsureRow(sorted[k]);
        locked := locked + [sorted[k]];
        assert locked[..|locked| - 1] == sorted[..k];
      }
      assert sorted[..|sorted|] == sorted;
    }

    /** Adds or spends one currency; refuses, writing nothing but the row itself, when the balance would go
        below zero. */
    method Change(user: string, c: W.Currency, amount: int) returns (ok: bool)
      modifies this
      ensures ok <==> W.Change(old(Now()), user, c, amount).Some?
      ensures ok ==> Now() == W.Change(old(Now()), user, c, amount).value
      ensures !ok ==> Now() == W.Books(W.WithRow(old(purses), user), old(records))
    {
      EnsureRow(user);
      var wallet := purses[user];
      var balanceAfter := wallet.At(c) + amount;
      if balanceAfter < 0 {
        return false;
      }
      purses := purses[user := wallet.With(c, balanceAfter)];
      records := records + [W.Record(user, c, amount, balanceAfter)];
      ok := true;
    }
  }

  /** The boss row, its damage rows, and the rentals. */
  class BossRows {
    var boss: Boss
    var damages: seq<DamageRow>
    var rentals: seq<Rental>
    const wallets: WalletRows

    function Now(): State
      reads this, wallets
    {
      State(boss, damages, rentals, wallets.Now())
    }

    constructor (boss: Boss, damages: seq<DamageRow>, rentals: seq<Rental>, wallets: WalletRows)
      ensures this.wallets == wallets && Now() == State(boss, damages, rentals, wallets.Now())
    {
      this.boss, this.damages, this.rentals, this.wallets := boss, damages, rentals, wallets;
    }

    /** Rents a friend's unit for one fight: both wallets locked first, then what the owner earned today. */
    method RentAlly(user: string, owner: string, now: int) returns (fee: Option<nat>)
      requires user != owner
      modifies wallets
      ensures var due := RentalFee(EarnedSince(rentals, owner, DayStart(now)));
              var paid := PayRent(old(wallets.Now()), user, owner, due);
              && (fee == if paid.Some? then Some(due) else None)
              && (paid.Some? ==> wallets.Now() == paid.value)
    {
      hide W.WithRow, W.WithRows, W.LockOrder, W.Change, RentalFee;
      var _ := wallets.LockWallets([user, owner]);
      assert wallets.Now() == BothLocked(old(wallets.Now()), user, owner);
      var due := RentalFee(EarnedSince(rentals, owner, DayStart(now)));
      if due > 0 {
        var ok := wallets.Change(user, W.Coin, -(due as int));
        if !ok {
          return None;
        }
        var earned := wallets.Change(owner, W.Coin, due);
        assert earned by {
          IncomeFits(old(wallets.Now()), user, owner, due);
        }
      }
      fee := Some(due);
    }

    /** One attack in its transaction: refused before anything is written, or rolled back when the rent
        cannot be paid. */
    method Attack(a: Request) returns (outcome: Outcome)
      requires boss.hp == 0 ==> boss.defeatedAt.Some?
      modifies this`boss, this`damages, this`rentals, wallets
      ensures (Now(), outcome) == WorldBoss.Attack(old(Now()), a)
    {
      hide RentalFee, PayRent, DayStart, AddDamage;
      if !a.mayFight {
        return MayNotFight;
      }
      if IsEnded(boss, a.now) {
        return NotActive;
      }
      var rent: Option<nat> := None;
      if a.support.Unavailable? || (a.support.Rents? && a.support.owner == a.user) {
        return NoSuchUnit;
      }
      if a.support.Rents? {
        var before := wallets.Now();
        rent := RentAlly(a.user, a.support.owner, a.now);
        if rent.None? {
          wallets.Restore(before);
          return NotEnoughCoins;
        }
      }
      var shares := Split(boss.hp, a.dealt.0, if rent.Some? then a.dealt.1 else 0, a.fell);
      boss := boss.(hp := shares.hpAfter);
      if a.fell {
        boss := boss.(defeatedAt := Some(a.now), killedBy := Some(a.user));
      }
      damages := AddDamage(damages, a.user, shares.own);
      if rent.Some? {
        rentals := rentals + [Rental(boss.week, a.user, a.support.owner, rent.value, shares.ally, a.now)];
      }
      outcome := Landed(shares.own, shares.ally, if rent.Some? then rent.value else 0);
    }
  }

  /** Income never fails. */
  lemma IncomeFits(books: W.Books, user: string, owner: string, fee: nat)
    ensures var paid := W.Change(BothLocked(books, user, owner), user, W.Coin, -(fee as int));
            paid.Some? ==> W.Change(paid.value, owner, W.Coin, fee).Some?
  {
  }
}
