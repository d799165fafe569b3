# BeerSportBot balance engine — a Dafny model

BeerSportBot keeps, for every chat user, a balance in minutes of exercise.
Drinking takes minutes off, exercise adds them, and a per-drink rate
("litres per 60 minutes") converts between minutes and litres of beer, wine
or strong drink. This project models the engine under the chat bot:

- **Conversion** (`conversion.dfy`): `liters_from_minutes` and
  `minutes_from_liters`, with the guard that a non-positive rate yields 0.
- **Records** (`records.dfy`): the three drinks, the stored drink text and its
  coercion to beer, `DEFAULT_RATE`, the user record and
  `UserData.rate_for_current_drink`, plus the single-field writes.
- **Migration** (`migration.dfy`): the legacy-row conversion of `db_init` as a
  pure fold over the fetched rows, with the lemmas about it.
- **Store** (`store.dfy`): the `users` table as a class holding
  `map<int, UserRecord>`; `db_ensure_user`, `db_get_user`,
  `db_set_balance_minutes`, `db_set_drink`, `db_set_rate_for_drink` and the
  migration loop as methods that update it in place.
- **Balance** (`balance.dfy`): the read-validate-write steps of
  `on_drink_choice`, `on_custom_drink_amount`, `on_sport_choice`,
  `on_custom_sport_minutes`, `on_change_drink` and `cmd_setrate`, and the
  restart scenario of the migration finding, which combines a migration with
  a drink.

Numbers are Dafny `real`, so the round trips between minutes and litres hold
exactly. User input arrives already parsed: `Input` is `Absent` (no argument,
no text), `Malformed` (`float()` raised) or `Number(v)`. A legacy field that
`float()` cannot parse is `None`. The presence of the legacy columns
`balance_liters` and `rate_lph` is passed in as two booleans.

The stored `drink` is kept as text, not as the `Drink` datatype. Every write
through the store stores a known name. A legacy row, however, can leave any
text in that column, because migration never rewrites it. That is why
`RateForCurrentDrink` falls back to beer.

Every handler ensures the user exists before it validates anything. A
rejected input therefore leaves the table equal to `Ensured(old table, id)`,
which is the old table plus possibly a fresh default record. It is not
always the old table itself.

Points where the code's behaviour is easy to misread:

- The legacy migration is meant to run once. The code keeps no record that it
  ran and re-runs it on every startup while the legacy columns exist
  (see Findings).
- A healthy record has a known drink and positive rates (`AllHealthy` of the
  table). Every handler keeps the table healthy. Of the store operations,
  `EnsureUser`, `GetUser`, `SetBalanceMinutes` and `SetDrink` keep it.
  `SetRateForDrink` keeps it only for a positive rate, like
  `db_set_rate_for_drink`, which writes any rate; `cmd_setrate` passes it only
  rates in (0, 10]. Migration does not keep it: it copies any parsed
  `rate_lph`, including 0 or a negative value, and leaves the drink text as
  it was.
- Only a typed amount is range-checked: (0, 20] litres, (0, 600] minutes.
  The preset buttons of `on_drink_choice` and `on_sport_choice` apply their
  amount without any check, and the model does the same.

## Model

| member | source | states |
|---|---|---|
| Conversion.LitersFromMinutes | beerbot.py:244-246 | (minutes / 60) * rate |
| Conversion.MinutesFromLiters | beerbot.py:248-252 | 0 for a rate <= 0, otherwise (liters / rate) * 60 |
| Conversion.NonPositiveRateGivesZero | beerbot.py:248-251 | with a rate <= 0, every amount of litres converts to 0 minutes |
| Conversion.MinutesRoundTrip | beerbot.py:244-252 | with a positive rate, minutes -> litres -> minutes is the identity |
| Conversion.LitersRoundTrip | beerbot.py:244-252 | with a positive rate, litres -> minutes -> litres is the identity |
| Conversion.ConversionsPreserveSign | beerbot.py:244-252 | with a positive rate, a positive amount converts to a positive amount in both directions |
| Records.Parse | beerbot.py:20-24 | a name is recognised exactly when it is the stored name of one of the three drinks |
| Records.ParseName | beerbot.py:20-24 | the stored name of each drink is recognised as that drink |
| Records.Coerce | beerbot.py:177-178 | a known name maps to its drink, any other text to beer |
| Records.DefaultRate | beerbot.py:20-24 | the default rates 0.75 / 0.30 / 0.15 are positive |
| Records.RateOf | beerbot.py:187 | the rate column that belongs to a drink |
| Records.RateForCurrentDrink | beerbot.py:143-150 | the rate column of the selected drink, and `rate_beer` for unrecognised drink text |
| Records.DefaultRecord | beerbot.py:125-130 | the inserted record has drink beer, balance 0 and each drink's default rate |
| Records.WithBalance | beerbot.py:172 | only the balance changes; drink, rates and the current rate stay |
| Records.WithDrink | beerbot.py:180 | only the drink changes, to a known one; balance and all rates stay, and the current rate becomes that drink's rate |
| Records.WithRate | beerbot.py:187-189 | exactly the selected drink's rate is written; the other two rates, drink and balance stay |
| Records.DefaultRecordHealthy | beerbot.py:125-130 | a new record has a known drink and positive rates |
| Records.WithRateOfCurrentDrink | beerbot.py:183-190 | writing the rate of the coerced current drink makes it the rate `rate_for_current_drink` returns |
| Records.BalanceWriteKeepsHealthy | beerbot.py:169-173 | a balance write keeps a record healthy |
| Records.DrinkWriteKeepsHealthy | beerbot.py:175-181 | a drink write keeps a record healthy |
| Records.RateWriteKeepsHealthy | beerbot.py:183-190 | a rate write keeps a record healthy when the rate is positive |
| Migration.WellFormed | beerbot.py:98-99 | both numeric fields of the row parse; a row failing either takes the `except Exception: continue` path at lines 116-117 |
| Migration.LegacyDrink | beerbot.py:100-102 | a NULL, empty or unknown legacy drink is beer; a known one is kept |
| Migration.MigratedRecord | beerbot.py:103-115 | the balance becomes `minutes_from_liters(balance_liters, rate_lph)`; `rate_lph` goes into the matching drink's rate; the other rates and the drink stay |
| Migration.MigrationKeepsShownLiters | beerbot.py:94-115 | the fetched drink is the record's own drink column, so at a positive legacy rate the migrated balance shows the same litres the legacy balance held |
| Migration.MigrateRow | beerbot.py:96-117 | a well-formed row of an existing user migrates that user only; a malformed row changes nothing |
| Migration.MigrateAll | beerbot.py:94-117 | the rows applied one after another, in fetch order, by `MigrateRow` |
| Migration.MigrateAllKeys | beerbot.py:94-117 | the migration adds and removes no user |
| Migration.MigrateAllKeepsDrinks | beerbot.py:94-117 | the migration never changes a drink column |
| Migration.MigrateAllUntouched | beerbot.py:94-117 | a user with no well-formed row keeps its record |
| Migration.MigrateAllRow | beerbot.py:96-117 | with distinct ids, every well-formed row is migrated, whatever rows before or after it fail to parse |
| Migration.MigrationExample | beerbot.py:103-111 | 3.0 L at 0.75 L per hour becomes 240 minutes and rate_beer 0.75; wine and strong keep their defaults |
| Migration.StartupMigration | beerbot.py:92 | the migration runs only when both legacy columns exist; otherwise the table is unchanged |
| Migration.StartupMigrationOnce | beerbot.py:92 | corrected startup: it migrates only if not yet recorded as migrated, and afterwards records that it has |
| Migration.RestartKeepsActivity | beerbot.py:92-119 | under the corrected startup, any table written after the first startup survives a later startup |
| Store.Ensured | beerbot.py:121-132 | the default record is inserted only for an absent id; every existing record is kept |
| Store.EnsuredIdempotent | beerbot.py:121-132 | ensuring a user twice equals ensuring it once |
| Store.UpdateKeepsHealthy | beerbot.py:169-190 | replacing one record of a healthy table by a healthy record keeps the table healthy |
| Store.EnsuredKeepsHealthy | beerbot.py:121-132 | ensuring a user keeps a healthy table healthy |
| Store.UserStore.constructor | beerbot.py:59-68 | stands for the empty table on a fresh database; the DDL itself is not modelled |
| Store.UserStore.EnsureUser | beerbot.py:121-132 | the table becomes `Ensured(old table, id)`; a healthy table stays healthy |
| Store.UserStore.GetUser | beerbot.py:152-167 | always returns a record: the user is ensured and the returned record is the stored one |
| Store.UserStore.SetBalanceMinutes | beerbot.py:169-173 | after ensuring, only the user's balance is overwritten; other users are unchanged; health is kept |
| Store.UserStore.SetDrink | beerbot.py:175-181 | after ensuring, only the user's drink is overwritten, with unknown names coerced to beer; health is kept |
| Store.UserStore.SetRateForDrink | beerbot.py:183-190 | after ensuring, only the rate of the coerced drink is overwritten; health is kept only when the rate is positive |
| Store.UserStore.Migrate | beerbot.py:92-119 | the loop leaves the table equal to `StartupMigration` of the old table and the fetched rows |
| Balance.CheckLiters | beerbot.py:405-413 | a typed amount is accepted exactly when it is a number in (0, 20]; otherwise "not a number" or "out of range" |
| Balance.CheckMinutes | beerbot.py:428-436 | typed minutes are accepted exactly when they are a number in (0, 600] |
| Balance.CheckRate | beerbot.py:288-300 | the `/setrate` argument is accepted exactly when it is a number in (0, 10]; missing gives usage, unparsable "not a number" |
| Balance.AfterDrink | beerbot.py:415-417 | the minutes taken off are worth exactly the litres drunk at the current rate; a positive drink at a positive rate lowers the balance; only the balance changes |
| Balance.AfterExercise | beerbot.py:438-439 | the balance grows by exactly the minutes; only the balance changes |
| Balance.GainedLiters | beerbot.py:443 | at a positive current rate, the litres reported convert back to exactly the minutes exercised, and are positive for positive minutes |
| Balance.ExerciseUndoesDrink | beerbot.py:415-443 | exercising the minutes a drink cost restores the record, at any rate (a non-positive rate makes both amounts 0) |
| Balance.NewUserScenario | beerbot.py:346-373 | a new user drinking 1.0 L of beer goes to -80; 60 minutes of exercise then give -20 and 0.75 L |
| Balance.SwitchScenario | beerbot.py:385-393 | switching from beer to wine keeps the balance and makes rate_wine the current rate |
| Balance.RestartDiscardsActivity | beerbot.py:72-119 | as written, a second startup resets the balance of a migrated user who then drank 1.0 L (240 again instead of 160) |
| Balance.RestartKeepsActivityExample | beerbot.py:92-119 | under the corrected startup, the 160-minute balance of the same scenario is kept |
| Balance.OnDrinkChoice | beerbot.py:333-353 | a preset amount is deducted by `AfterDrink` with no range check; "custom" only ensures the user; the table stays healthy |
| Balance.OnCustomDrinkAmount | beerbot.py:399-421 | a rejected amount writes nothing past ensuring the user; an accepted one is deducted by `AfterDrink` |
| Balance.OnSportChoice | beerbot.py:355-378 | a preset amount is added with no range check and the gained litres use the current rate; "custom" only ensures the user |
| Balance.OnCustomSportMinutes | beerbot.py:423-447 | rejected minutes write nothing past ensuring the user; accepted ones are added and reported as `GainedLiters` |
| Balance.OnChangeDrink | beerbot.py:380-395 | an unknown drink is rejected before any write; a known one changes only the drink; the balance never changes |
| Balance.CmdSetRate | beerbot.py:284-304 | a rejected argument writes nothing past ensuring the user; an accepted one becomes the rate of the current drink and nothing else changes |

## Findings

| source | as written | input that shows it | evidently intended | confidence | as-written member | corrected member |
|---|---|---|---|---|---|---|
| beerbot.py:92-119 | the migration runs on every startup while `balance_liters` and `rate_lph` exist, and nothing drops those columns or records that it ran | a legacy user with 3.0 L at 0.75 is migrated to 240 minutes and drinks 1.0 L (160 minutes); the next startup resets the balance to 240 | migrate each legacy record once, then leave the table to the new columns | high, not executed | Balance.RestartDiscardsActivity | Migration.StartupMigrationOnce |

## Left out

- SQLite plumbing: connections, SQL text, commits and `PRAGMA table_info` probing (`db_connect`, `_has_column`) are foreign library calls. Column presence is passed in as booleans and the table is a map.
- DDL: `CREATE TABLE` and the `ALTER TABLE ... ADD COLUMN` steps of `db_init` are not modelled. `Migrate` starts from a table that already has the current columns, filled with whatever the database holds.
- Storage errors are not modelled: every store operation succeeds.
- The chat transport is left out: aiogram messages, `edit_text`, `call.answer`, the FSM states (`set_state`/`clear`) and `main`/`BOT_TOKEN`. The "custom" buttons are modelled only by what they do to the table: they ensure the user and write nothing.
- `cmd_start` and `on_menu` ensure the user, read it and render a screen; `cmd_change` ensures the user and renders the drink menu; `cmd_info` only sends a fixed text. Their table effects are those of `EnsureUser` and `GetUser`, and they are not modelled further.
- The keyboard builders and the text formatting (`fmt_status`, `fmt_screen`, `DRINK_LABEL`, `INFO_TEXT`, the number formats) are presentation only and are left out.
- Parsing is left out: `float()` and the `","` to `"."` replacement. Input arrives as `Input` or `Option<real>`, and a parse failure is a rejection.
- IEEE-754 behaviour is left out, and all arithmetic is on exact reals. Rounding is not modelled. Neither is NaN: `float("nan")` fails both comparisons of every range check, so the source accepts it, while a real always lies inside or outside a range.
- A preset button's payload is taken to be a number. A crafted non-numeric `drink:`/`sport:` payload makes `float()` raise in the source after the user has been ensured; that path is not modelled.
- Concurrency between events is left out: each handler runs as one uninterrupted sequence.
