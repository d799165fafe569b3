/**
 * The legacy migration of db_init: rows that still carry the old columns
 * `balance_liters` and `rate_lph` are converted into the per-drink schema.
 * The table is a map from user_id to record; the loop that runs the
 * migration in place is UserStore.Migrate, specified by MigrateAll.
 */
module Migration {
  import opened Wrappers
  import opened Conversion
  import opened Records

  type Table = map<int, UserRecord>

  /**
   * One fetched legacy row. A numeric field is None when float() would raise on it;
   * `drink` is None for SQL NULL.
   */
  datatype LegacyRow = LegacyRow(
    userId: int,
    balanceLiters: Option<real>,
    rateLph: Option<real>,
    drink: Option<string>)

  /** A row whose two numeric fields parse; the others are skipped by `except Exception: continue`. */
  predicate WellFormed(row: LegacyRow)
  {
    row.balanceLiters.Some? && row.rateLph.Some?
  }

  /** `drink = str(drink) if drink else "beer"`, then coerced to a known drink. */
  function LegacyDrink(drink: Option<string>): (d: Drink)
    ensures drink.None? || drink == Some("") ==> d == Beer
    ensures drink.Some? && Parse(drink.value).Some? ==> d == Parse(drink.value).value
    ensures drink.Some? && Parse(drink.value).None? ==> d == Beer
  {
    match drink
    case None => Beer
    case Some(s) => if s == "" then Beer else Coerce(s)
  }

  /** The record after the two UPDATEs issued for one well-formed legacy row. */
  function MigratedRecord(u: UserRecord, liters: real, rate: real, d: Drink): (v: UserRecord)
    ensures v.balanceMinutes == MinutesFromLiters(liters, rate)
    ensures RateOf(v, d) == rate
    ensures forall e :: e != d ==> RateOf(v, e) == RateOf(u, e)
    ensures v.drink == u.drink
  {
    var minutes := if rate > 0.0 then (liters / rate) * 60.0 else 0.0;
    WithRate(u.(balanceMinutes := minutes), d, rate)
  }

  /** The effect of one iteration of the migration loop. */
  function MigrateRow(t: Table, row: LegacyRow): (t': Table)
    ensures t'.Keys == t.Keys
    ensures forall k :: k in t && k != row.userId ==> t'[k] == t[k]
    ensures !WellFormed(row) || row.userId !in t ==> t' == t
    ensures WellFormed(row) && row.userId in t ==>
      t'[row.userId] == MigratedRecord(t[row.userId], row.balanceLiters.value, row.rateLph.value, LegacyDrink(row.drink))
  {
    if WellFormed(row) && row.userId in t then
      t[row.userId := MigratedRecord(t[row.userId], row.balanceLiters.value, row.rateLph.value, LegacyDrink(row.drink))]
    else
      t
  }

  /** The table after the loop has processed `rows` in order. */
  function MigrateAll(t: Table, rows: seq<LegacyRow>): Table
    decreases |rows|
  {
    if rows == [] then t
    else MigrateRow(MigrateAll(t, rows[..|rows| - 1]), rows[|rows| - 1])
  }

  /**
   * The fetched `drink` is the record's own drink column, so with a positive legacy
   * rate the migrated balance shows the same litres the legacy balance held.
   */
  lemma MigrationKeepsShownLiters(t: Table, row: LegacyRow)
    requires WellFormed(row) && row.userId in t && row.rateLph.value > 0.0
    requires row.drink == Some(t[row.userId].drink)
    ensures var v := MigrateRow(t, row)[row.userId];
      LitersFromMinutes(v.balanceMinutes, RateForCurrentDrink(v)) == row.balanceLiters.value
  {
    LitersRoundTrip(row.balanceLiters.value, row.rateLph.value);
  }

  /** The migration adds and removes no user. */
  lemma {:induction false} MigrateAllKeys(t: Table, rows: seq<LegacyRow>)
    ensures MigrateAll(t, rows).Keys == t.Keys
    decreases |rows|
  {
    if rows != [] {
      MigrateAllKeys(t, rows[..|rows| - 1]);
    }
  }

  /** No record's drink column is touched by the migration. */
  lemma {:induction false} MigrateAllKeepsDrinks(t: Table, rows: seq<LegacyRow>, k: int)
    requires k in t
    ensures k in MigrateAll(t, rows) && MigrateAll(t, rows)[k].drink == t[k].drink
    decreases |rows|
  {
    if rows != [] {
      MigrateAllKeepsDrinks(t, rows[..|rows| - 1], k);
    }
  }

  /** A user without a well-formed row keeps the record it had. */
  lemma {:induction false} MigrateAllUntouched(t: Table, rows: seq<LegacyRow>, k: int)
    requires k in t
    requires forall j :: 0 <= j < |rows| && WellFormed(rows[j]) ==> rows[j].userId != k
    ensures k in MigrateAll(t, rows) && MigrateAll(t, rows)[k] == t[k]
    decreases |rows|
  {
    if rows != [] {
      var init := rows[..|rows| - 1];
      forall j | 0 <= j < |init| && WellFormed(init[j])
        ensures init[j].userId != k
      {
        assert init[j] == rows[j];
      }
      MigrateAllUntouched(t, init, k);
    }
  }

  /**
   * The user ids of the fetched rows are distinct. This holds for a table created by
   * db_init, where user_id is the primary key; a legacy table keeps its own schema,
   * for which it is an assumption.
   */
  predicate DistinctIds(rows: seq<LegacyRow>)
  {
    forall i, j :: 0 <= i < j < |rows| ==> rows[i].userId != rows[j].userId
  }

  /**
   * Every well-formed row of an existing user is migrated, whatever rows before
   * or after it fail to parse.
   */
  lemma {:induction false} MigrateAllRow(t: Table, rows: seq<LegacyRow>, i: int)
    requires DistinctIds(rows)
    requires 0 <= i < |rows| && WellFormed(rows[i]) && rows[i].userId in t
    ensures rows[i].userId in MigrateAll(t, rows)
    ensures MigrateAll(t, rows)[rows[i].userId] ==
      MigratedRecord(t[rows[i].userId], rows[i].balanceLiters.value, rows[i].rateLph.value, LegacyDrink(rows[i].drink))
    decreases |rows|
  {
    var init := rows[..|rows| - 1];
    var k := rows[i].userId;
    MigrateAllKeys(t, init);
    if i == |rows| - 1 {
      forall j | 0 <= j < |init| && WellFormed(init[j])
        ensures init[j].userId != k
      {
        assert init[j] == rows[j];
      }
      MigrateAllUntouched(t, init, k);
    } else {
      assert init[i] == rows[i];
      assert DistinctIds(init) by {
        forall a, b | 0 <= a < b < |init| ensures init[a].userId != init[b].userId {
          assert init[a] == rows[a] && init[b] == rows[b];
        }
      }
      MigrateAllRow(t, init, i);
      assert rows[|rows| - 1].userId != k;
    }
  }

  /** The worked example: 3.0 L of beer at 0.75 L per hour becomes 240 minutes. */
  lemma MigrationExample()
    ensures var t := MigrateAll(map[7 := DefaultRecord()], [LegacyRow(7, Some(3.0), Some(0.75), Some("beer"))]);
      7 in t && t[7].balanceMinutes == 240.0 && t[7].rateBeer == 0.75 &&
      t[7].rateWine == 0.30 && t[7].rateStrong == 0.15
  {
  }

  /** The migration step of db_init: it runs only when both legacy columns still exist. */
  function StartupMigration(t: Table, hasBalanceLiters: bool, hasRateLph: bool, rows: seq<LegacyRow>): (t': Table)
    ensures !(hasBalanceLiters && hasRateLph) ==> t' == t
    ensures t'.Keys == t.Keys
  {
    MigrateAllKeys(t, rows);
    if hasBalanceLiters && hasRateLph then MigrateAll(t, rows) else t
  }

  /** The persisted schema: the table and whether the legacy migration has been applied. */
  datatype Schema = Schema(users: Table, legacyMigrated: bool)

  /** The migration as intended: applied once, then recorded so that later startups skip it. */
  function StartupMigrationOnce(s: Schema, hasBalanceLiters: bool, hasRateLph: bool, rows: seq<LegacyRow>): (s': Schema)
    ensures s'.legacyMigrated
    ensures !s.legacyMigrated ==> s'.users == StartupMigration(s.users, hasBalanceLiters, hasRateLph, rows)
    ensures s.legacyMigrated ==> s'.users == s.users
  {
    if s.legacyMigrated then s
    else Schema(StartupMigration(s.users, hasBalanceLiters, hasRateLph, rows), true)
  }

  /** Once a startup has run, any table written afterwards survives every later startup. */
  lemma RestartKeepsActivity(s: Schema, later: Table, hasBalanceLiters: bool, hasRateLph: bool, rows: seq<LegacyRow>)
    ensures var first := StartupMigrationOnce(s, hasBalanceLiters, hasRateLph, rows);
      StartupMigrationOnce(first.(users := later), hasBalanceLiters, hasRateLph, rows).users == later
  {
  }
}
