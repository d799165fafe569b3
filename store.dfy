/**
 * The `users` table and the db_* operations on it. The table is a map from
 * user_id to record that each operation updates in place.
 */
module Store {
  import opened Wrappers
  import opened Records
  import opened Migration

  /** The table after db_ensure_user: the default record is inserted only for a new id. */
  function Ensured(t: Table, id: int): (t': Table)
    ensures id in t'
    ensures t'.Keys == t.Keys + {id}
    ensures id in t ==> t'[id] == t[id]
    ensures id !in t ==> t'[id] == DefaultRecord()
    ensures forall k :: k in t && k != id ==> t'[k] == t[k]
  {
    if id in t then t else t[id := DefaultRecord()]
  }

  /** Ensuring a user twice is ensuring it once. */
  lemma EnsuredIdempotent(t: Table, id: int)
    ensures Ensured(Ensured(t, id), id) == Ensured(t, id)
  {
  }

  /** Every record is healthy: known drink, positive rates. */
  predicate AllHealthy(t: Table)
  {
    forall k :: k in t ==> Healthy(t[k])
  }

  /** Replacing one record by a healthy one keeps the table healthy. */
  lemma UpdateKeepsHealthy(t: Table, id: int, v: UserRecord)
    requires AllHealthy(t) && Healthy(v)
    ensures AllHealthy(t[id := v])
  {
  }

  /** Inserting the default record keeps a healthy table healthy. */
  lemma EnsuredKeepsHealthy(t: Table, id: int)
    ensures AllHealthy(t) ==> AllHealthy(Ensured(t, id))
  {
  }

  class UserStore {
    var users: Table

    /** A table created by `CREATE TABLE IF NOT EXISTS` on an empty database. */
    constructor ()
      ensures users == map[]
    {
      users := map[];
    }

    /** db_ensure_user */
    method EnsureUser(id: int)
      modifies this
      ensures users == Ensured(old(users), id)
      ensures AllHealthy(old(users)) ==> AllHealthy(users)
    {
      EnsuredKeepsHealthy(users, id);
      if id !in users {
        users := users[id := UserRecord("beer", 0.0, DefaultRate(Beer), DefaultRate(Wine), DefaultRate(Strong))];
      }
    }

    /** db_get_user: ensures the user, then reads the whole record; it never fails. */
    method GetUser(id: int) returns (u: UserRecord)
      modifies this
      ensures users == Ensured(old(users), id)
      ensures id in users && u == users[id]
      ensures AllHealthy(old(users)) ==> AllHealthy(users)
    {
      EnsureUser(id);
      u := users[id];
    }

    /** db_set_balance_minutes: overwrites the balance with an absolute value. */
    method SetBalanceMinutes(id: int, minutes: real)
      modifies this
      ensures var e := Ensured(old(users), id);
        users == e[id := WithBalance(e[id], minutes)]
      ensures AllHealthy(old(users)) ==> AllHealthy(users)
    {
      EnsureUser(id);
      if AllHealthy(users) {
        BalanceWriteKeepsHealthy(users[id], minutes);
        UpdateKeepsHealthy(users, id, WithBalance(users[id], minutes));
      }
      users := users[id := users[id].(balanceMinutes := minutes)];
    }

    /** db_set_drink: an unknown name is stored as "beer". */
    method SetDrink(id: int, drink: string)
      modifies this
      ensures var e := Ensured(old(users), id);
        users == e[id := WithDrink(e[id], Coerce(drink))]
      ensures AllHealthy(old(users)) ==> AllHealthy(users)
    {
      EnsureUser(id);
      if AllHealthy(users) {
        DrinkWriteKeepsHealthy(users[id], Coerce(drink));
        UpdateKeepsHealthy(users, id, WithDrink(users[id], Coerce(drink)));
      }
      var name := drink;
      if Parse(drink).None? {
        name := "beer";
      }
      users := users[id := users[id].(drink := name)];
    }

    /** db_set_rate_for_drink: writes the rate column of the named drink, beer's for an unknown name. */
    method SetRateForDrink(id: int, drink: string, rate: real)
      modifies this
      ensures var e := Ensured(old(users), id);
        users == e[id := WithRate(e[id], Coerce(drink), rate)]
      ensures AllHealthy(old(users)) && rate > 0.0 ==> AllHealthy(users)
    {
      EnsureUser(id);
      if AllHealthy(users) && rate > 0.0 {
        RateWriteKeepsHealthy(users[id], Coerce(drink), rate);
        UpdateKeepsHealthy(users, id, WithRate(users[id], Coerce(drink), rate));
      }
      var d := Coerce(drink);
      var u := users[id];
      match d {
        case Beer => users := users[id := u.(rateBeer := rate)];
        case Wine => users := users[id := u.(rateWine := rate)];
        case Strong => users := users[id := u.(rateStrong := rate)];
      }
    }

    /**
     * The migration half of db_init. `hasBalanceLiters` and `hasRateLph` say whether
     * the legacy columns exist; `rows` are the rows fetched before the loop.
     */
    method Migrate(hasBalanceLiters: bool, hasRateLph: bool, rows: seq<LegacyRow>)
      modifies this
      ensures users == StartupMigration(old(users), hasBalanceLiters, hasRateLph, rows)
    {
      if hasBalanceLiters && hasRateLph {
        var i := 0;
        while i < |rows|
          invariant 0 <= i <= |rows|
          invariant users == MigrateAll(old(users), rows[..i])
        {
          var row := rows[i];
          assert rows[..i + 1][..i] == rows[..i];
          if row.balanceLiters.Some? && row.rateLph.Some? {
            var liters := row.balanceLiters.value;
            var rate := row.rateLph.value;
            var drink := if row.drink.Some? && row.drink.value != "" then row.drink.value else "beer";
            if Parse(drink).None? {
              drink := "beer";
            }
            var minutes := 0.0;
            if rate > 0.0 {
              minutes := (liters / rate) * 60.0;
            }
            if row.userId in users {
              users := users[row.userId := users[row.userId].(balanceMinutes := minutes)];
              var u := users[row.userId];
              if drink == "beer" {
                users := users[row.userId := u.(rateBeer := rate)];
              } else if drink == "wine" {
                users := users[row.userId := u.(rateWine := rate)];
              } else if drink == "strong" {
                users := users[row.userId := u.(rateStrong := rate)];
              }
            }
          }
          i := i + 1;
        }
        assert rows[..|rows|] == rows;
      }
    }
  }
}
