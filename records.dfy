/**
 * The per-user record (the dataclass UserData without its key), the three
 * drinks and the points where a stored drink name is coerced to a drink.
 */
module Records {
  import opened Wrappers

  datatype Drink = Beer | Wine | Strong

  /** The name under which a drink is stored in the `drink` column. */
  function Name(d: Drink): string
  {
    match d
    case Beer => "beer"
    case Wine => "wine"
    case Strong => "strong"
  }

  /** Recognises a stored drink name: a key of DEFAULT_RATE. */
  function Parse(s: string): (r: Option<Drink>)
    ensures r.Some? ==> Name(r.value) == s
    ensures r.None? ==> forall d :: Name(d) != s
  {
    if s == "beer" then Some(Beer)
    else if s == "wine" then Some(Wine)
    else if s == "strong" then Some(Strong)
    else None
  }

  lemma ParseName(d: Drink)
    ensures Parse(Name(d)) == Some(d)
  {
  }

  /** `if drink not in DEFAULT_RATE: drink = "beer"`: an unknown name is read as beer. */
  function Coerce(s: string): (d: Drink)
    ensures Parse(s).Some? ==> d == Parse(s).value
    ensures Parse(s).None? ==> d == Beer
    ensures Parse(Name(d)) == Some(d)
  {
    match Parse(s)
    case Some(k) => k
    case None => Beer
  }

  /** DEFAULT_RATE: litres per 60 minutes for a new user. */
  function DefaultRate(d: Drink): (r: real)
    ensures r > 0.0
  {
    match d
    case Beer => 0.75
    case Wine => 0.30
    case Strong => 0.15
  }

  /** One row of the `users` table, keyed elsewhere by user_id. `drink` is the stored text. */
  datatype UserRecord = UserRecord(
    drink: string,
    balanceMinutes: real,
    rateBeer: real,
    rateWine: real,
    rateStrong: real)

  /** The rate column that belongs to a drink. */
  function RateOf(u: UserRecord, d: Drink): real
  {
    match d
    case Beer => u.rateBeer
    case Wine => u.rateWine
    case Strong => u.rateStrong
  }

  /** UserData.rate_for_current_drink: the rate of the selected drink, beer's for unknown text. */
  function RateForCurrentDrink(u: UserRecord): (r: real)
    ensures r == RateOf(u, Coerce(u.drink))
    ensures Parse(u.drink).None? ==> r == u.rateBeer
  {
    if u.drink == "beer" then u.rateBeer
    else if u.drink == "wine" then u.rateWine
    else if u.drink == "strong" then u.rateStrong
    else u.rateBeer
  }

  /** The record db_ensure_user inserts. */
  function DefaultRecord(): (u: UserRecord)
    ensures Parse(u.drink) == Some(Beer)
    ensures u.balanceMinutes == 0.0
    ensures forall d :: RateOf(u, d) == DefaultRate(d)
  {
    UserRecord("beer", 0.0, DefaultRate(Beer), DefaultRate(Wine), DefaultRate(Strong))
  }

  /** The record after `UPDATE users SET balance_minutes = ?`. */
  function WithBalance(u: UserRecord, minutes: real): (v: UserRecord)
    ensures v.balanceMinutes == minutes
    ensures v.drink == u.drink
    ensures forall d :: RateOf(v, d) == RateOf(u, d)
    ensures RateForCurrentDrink(v) == RateForCurrentDrink(u)
  {
    u.(balanceMinutes := minutes)
  }

  /** The record after `UPDATE users SET drink = ?` with a known drink. */
  function WithDrink(u: UserRecord, d: Drink): (v: UserRecord)
    ensures Parse(v.drink) == Some(d)
    ensures v.balanceMinutes == u.balanceMinutes
    ensures forall e :: RateOf(v, e) == RateOf(u, e)
    ensures RateForCurrentDrink(v) == RateOf(u, d)
  {
    u.(drink := Name(d))
  }

  /** The record after writing `rate` into the rate column of drink `d`. */
  function WithRate(u: UserRecord, d: Drink, rate: real): (v: UserRecord)
    ensures RateOf(v, d) == rate
    ensures forall e :: e != d ==> RateOf(v, e) == RateOf(u, e)
    ensures v.drink == u.drink
    ensures v.balanceMinutes == u.balanceMinutes
  {
    match d
    case Beer => u.(rateBeer := rate)
    case Wine => u.(rateWine := rate)
    case Strong => u.(rateStrong := rate)
  }

  /** The state every record reached through the store's own operations is in. */
  predicate Healthy(u: UserRecord)
  {
    Parse(u.drink).Some? && u.rateBeer > 0.0 && u.rateWine > 0.0 && u.rateStrong > 0.0
  }

  lemma DefaultRecordHealthy()
    ensures Healthy(DefaultRecord())
  {
  }

  /** Writing the current drink's rate changes what rate_for_current_drink returns to exactly that rate. */
  lemma WithRateOfCurrentDrink(u: UserRecord, rate: real)
    ensures RateForCurrentDrink(WithRate(u, Coerce(u.drink), rate)) == rate
  {
  }

  /** A balance write keeps a record healthy. */
  lemma BalanceWriteKeepsHealthy(u: UserRecord, minutes: real)
    requires Healthy(u)
    ensures Healthy(WithBalance(u, minutes))
  {
  }

  /** A drink write keeps a record healthy. */
  lemma DrinkWriteKeepsHealthy(u: UserRecord, d: Drink)
    requires Healthy(u)
    ensures Healthy(WithDrink(u, d))
  {
  }

  /** A rate write keeps a record healthy when the rate written is positive. */
  lemma RateWriteKeepsHealthy(u: UserRecord, d: Drink, rate: real)
    requires Healthy(u) && rate > 0.0
    ensures Healthy(WithRate(u, d, rate))
  {
  }
}
