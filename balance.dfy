/**
 * The balance logic of the chat handlers, reduced to their
 * ensure / read / validate / compute / write steps on already-parsed input.
 */
module Balance {
  import opened Wrappers
  import opened Conversion
  import opened Records
  import opened Migration
  import opened Store

  /** User text after float(): missing (no argument, no text), unparsable, or a number. */
  datatype Input = Absent | Malformed | Number(value: real)

  /** Why a handler answered with an error message instead of writing. */
  datatype Rejection = Usage | NotANumber | OutOfRange | UnknownDrink

  /** Callback data after "drink:" or "sport:": the "custom" button or a preset amount. */
  datatype Payload = Custom | Preset(amount: real)

  /** What an exercise handler shows: the new record and the litres the minutes are worth. */
  datatype Exercised = Exercised(user: UserRecord, gainedLiters: real)

  /** The range check of on_custom_drink_amount: `liters <= 0 or liters > 20` is rejected. */
  function CheckLiters(x: Input): (r: Result<real, Rejection>)
    ensures r.Success? <==> x.Number? && 0.0 < x.value <= 20.0
    ensures r.Success? ==> r.value == x.value
    ensures r.Failure? ==> r.error == (if x.Number? then OutOfRange else NotANumber)
  {
    match x
    case Number(v) => if v <= 0.0 || v > 20.0 then Failure(OutOfRange) else Success(v)
    case _ => Failure(NotANumber)
  }

  /** The range check of on_custom_sport_minutes: `minutes <= 0 or minutes > 600` is rejected. */
  function CheckMinutes(x: Input): (r: Result<real, Rejection>)
    ensures r.Success? <==> x.Number? && 0.0 < x.value <= 600.0
    ensures r.Success? ==> r.value == x.value
    ensures r.Failure? ==> r.error == (if x.Number? then OutOfRange else NotANumber)
  {
    match x
    case Number(v) => if v <= 0.0 || v > 600.0 then Failure(OutOfRange) else Success(v)
    case _ => Failure(NotANumber)
  }

  /** The checks of cmd_setrate: no argument, an unparsable one, or `val <= 0 or val > 10`. */
  function CheckRate(x: Input): (r: Result<real, Rejection>)
    ensures r.Success? <==> x.Number? && 0.0 < x.value <= 10.0
    ensures r.Success? ==> r.value == x.value
    ensures x.Absent? ==> r == Failure(Usage)
    ensures x.Malformed? ==> r == Failure(NotANumber)
    ensures x.Number? && r.Failure? ==> r.error == OutOfRange
  {
    match x
    case Absent => Failure(Usage)
    case Malformed => Failure(NotANumber)
    case Number(v) => if v <= 0.0 || v > 10.0 then Failure(OutOfRange) else Success(v)
  }

  /**
   * The record after drinking `liters` of the current drink: the minutes taken off
   * are worth exactly those litres at the current rate, and nothing else changes.
   */
  function AfterDrink(u: UserRecord, liters: real): (v: UserRecord)
    ensures v.drink == u.drink
    ensures forall d :: RateOf(v, d) == RateOf(u, d)
    ensures RateForCurrentDrink(u) > 0.0 ==>
      LitersFromMinutes(u.balanceMinutes - v.balanceMinutes, RateForCurrentDrink(u)) == liters
    ensures RateForCurrentDrink(u) <= 0.0 ==> v == u
    ensures RateForCurrentDrink(u) > 0.0 && liters > 0.0 ==> v.balanceMinutes < u.balanceMinutes
  {
    var rate := RateForCurrentDrink(u);
    var v := WithBalance(u, u.balanceMinutes - MinutesFromLiters(liters, rate));
    if rate > 0.0 then LitersRoundTrip(liters, rate); v else v
  }

  /** The record after `minutes` of exercise: the balance grows by exactly that much, nothing else changes. */
  function AfterExercise(u: UserRecord, minutes: real): (v: UserRecord)
    ensures v.balanceMinutes - u.balanceMinutes == minutes
    ensures v.drink == u.drink
    ensures forall d :: RateOf(v, d) == RateOf(u, d)
  {
    WithBalance(u, u.balanceMinutes + minutes)
  }

  /** The litres of the current drink that `minutes` of exercise are worth. */
  function GainedLiters(u: UserRecord, minutes: real): (l: real)
    ensures RateForCurrentDrink(u) > 0.0 ==> MinutesFromLiters(l, RateForCurrentDrink(u)) == minutes
    ensures RateForCurrentDrink(u) > 0.0 && minutes > 0.0 ==> l > 0.0
  {
    var rate := RateForCurrentDrink(u);
    var l := LitersFromMinutes(minutes, rate);
    if rate > 0.0 then MinutesRoundTrip(minutes, rate); l else l
  }

  /** Exercising the minutes a drink cost restores the record exactly. */
  lemma ExerciseUndoesDrink(u: UserRecord, liters: real)
    ensures AfterExercise(AfterDrink(u, liters), MinutesFromLiters(liters, RateForCurrentDrink(u))) == u
  {
  }

  /** A new user drinks 1.0 L of beer (-80 minutes), then exercises 60 minutes (-20, worth 0.75 L). */
  lemma NewUserScenario()
    ensures AfterDrink(DefaultRecord(), 1.0).balanceMinutes == -80.0
    ensures AfterExercise(AfterDrink(DefaultRecord(), 1.0), 60.0).balanceMinutes == -20.0
    ensures GainedLiters(AfterExercise(AfterDrink(DefaultRecord(), 1.0), 60.0), 60.0) == 0.75
  {
  }

  /** Switching from beer to wine keeps the balance and makes wine's rate the current one. */
  lemma SwitchScenario(u: UserRecord)
    requires u.drink == "beer"
    ensures WithDrink(u, Wine).balanceMinutes == u.balanceMinutes
    ensures RateForCurrentDrink(WithDrink(u, Wine)) == u.rateWine
    ensures RateForCurrentDrink(u) == u.rateBeer
  {
  }

  /**
   * As written, nothing records that the legacy migration has run and the legacy
   * columns are never dropped, so the next startup converts the legacy litres again
   * and overwrites the balance the user has built up since by drinking 1.0 L.
   */
  lemma RestartDiscardsActivity()
    ensures var rows := [LegacyRow(7, Some(3.0), Some(0.75), Some("beer"))];
      var first := StartupMigration(map[7 := DefaultRecord()], true, true, rows);
      7 in first &&
      var afterDrink := first[7 := AfterDrink(first[7], 1.0)];
      var second := StartupMigration(afterDrink, true, true, rows);
      7 in second && second[7].balanceMinutes == 240.0 && afterDrink[7].balanceMinutes == 160.0
  {
    MigrationExample();
  }

  /** The scenario of RestartDiscardsActivity under the corrected startup: the 160 minutes are kept. */
  lemma RestartKeepsActivityExample()
    ensures var rows := [LegacyRow(7, Some(3.0), Some(0.75), Some("beer"))];
      var first := StartupMigrationOnce(Schema(map[7 := DefaultRecord()], false), true, true, rows);
      7 in first.users && first.users[7].balanceMinutes == 240.0 &&
      var afterDrink := first.(users := first.users[7 := AfterDrink(first.users[7], 1.0)]);
      var second := StartupMigrationOnce(afterDrink, true, true, rows);
      7 in second.users && second.users[7].balanceMinutes == 160.0
  {
    MigrationExample();
  }

  /** on_drink_choice: a preset button deducts without a range check; "custom" only asks for input. */
  method OnDrinkChoice(store: UserStore, id: int, payload: Payload) returns (r: Option<UserRecord>)
    modifies store
    ensures var e := Ensured(old(store.users), id);
      if payload.Custom? then r.None? && store.users == e
      else (store.users == e[id := AfterDrink(e[id], payload.amount)] && r == Some(store.users[id]))
    ensures AllHealthy(old(store.users)) ==> AllHealthy(store.users)
  {
    store.EnsureUser(id);
    var u := store.GetUser(id);
    var rate := RateForCurrentDrink(u);
    if payload.Custom? {
      r := None;
      return;
    }
    var liters := payload.amount;
    var delta := MinutesFromLiters(liters, rate);
    store.SetBalanceMinutes(id, u.balanceMinutes - delta);
    var u2 := store.GetUser(id);
    r := Some(u2);
  }

  /** on_custom_drink_amount: the typed amount must be a number in (0, 20]. */
  method OnCustomDrinkAmount(store: UserStore, id: int, text: Input) returns (r: Result<UserRecord, Rejection>)
    modifies store
    ensures var e := Ensured(old(store.users), id);
      match CheckLiters(text)
      case Failure(err) => r == Failure(err) && store.users == e
      case Success(liters) => store.users == e[id := AfterDrink(e[id], liters)] && r == Success(store.users[id])
    ensures AllHealthy(old(store.users)) ==> AllHealthy(store.users)
  {
    store.EnsureUser(id);
    var u := store.GetUser(id);
    var rate := RateForCurrentDrink(u);
    if !text.Number? {
      r := Failure(NotANumber);
      return;
    }
    var liters := text.value;
    if liters <= 0.0 || liters > 20.0 {
      r := Failure(OutOfRange);
      return;
    }
    var delta := MinutesFromLiters(liters, rate);
    store.SetBalanceMinutes(id, u.balanceMinutes - delta);
    var u2 := store.GetUser(id);
    r := Success(u2);
  }

  /** on_sport_choice: a preset button adds its minutes without a range check; "custom" only asks for input. */
  method OnSportChoice(store: UserStore, id: int, payload: Payload) returns (r: Option<Exercised>)
    modifies store
    ensures var e := Ensured(old(store.users), id);
      if payload.Custom? then r.None? && store.users == e
      else (store.users == e[id := AfterExercise(e[id], payload.amount)] &&
            r == Some(Exercised(store.users[id], GainedLiters(e[id], payload.amount))))
    ensures AllHealthy(old(store.users)) ==> AllHealthy(store.users)
  {
    store.EnsureUser(id);
    var u := store.GetUser(id);
    if payload.Custom? {
      r := None;
      return;
    }
    var minutes := payload.amount;
    store.SetBalanceMinutes(id, u.balanceMinutes + minutes);
    var u2 := store.GetUser(id);
    var gained := LitersFromMinutes(minutes, RateForCurrentDrink(u2));
    r := Some(Exercised(u2, gained));
  }

  /** on_custom_sport_minutes: the typed minutes must be a number in (0, 600]. */
  method OnCustomSportMinutes(store: UserStore, id: int, text: Input) returns (r: Result<Exercised, Rejection>)
    modifies store
    ensures var e := Ensured(old(store.users), id);
      match CheckMinutes(text)
      case Failure(err) => r == Failure(err) && store.users == e
      case Success(minutes) =>
        (store.users == e[id := AfterExercise(e[id], minutes)] &&
         r == Success(Exercised(store.users[id], GainedLiters(e[id], minutes))))
    ensures AllHealthy(old(store.users)) ==> AllHealthy(store.users)
  {
    store.EnsureUser(id);
    var u := store.GetUser(id);
    if !text.Number? {
      r := Failure(NotANumber);
      return;
    }
    var minutes := text.value;
    if minutes <= 0.0 || minutes > 600.0 {
      r := Failure(OutOfRange);
      return;
    }
    store.SetBalanceMinutes(id, u.balanceMinutes + minutes);
    var u2 := store.GetUser(id);
    var gained := LitersFromMinutes(minutes, RateForCurrentDrink(u2));
    r := Success(Exercised(u2, gained));
  }

  /** on_change_drink: an unknown drink is rejected before any write; the balance never changes. */
  method OnChangeDrink(store: UserStore, id: int, drink: string) returns (r: Result<UserRecord, Rejection>)
    modifies store
    ensures var e := Ensured(old(store.users), id);
      match Parse(drink)
      case None => r == Failure(UnknownDrink) && store.users == e
      case Some(d) => store.users == e[id := WithDrink(e[id], d)] && r == Success(store.users[id])
    ensures id in store.users && store.users[id].balanceMinutes == Ensured(old(store.users), id)[id].balanceMinutes
    ensures AllHealthy(old(store.users)) ==> AllHealthy(store.users)
  {
    store.EnsureUser(id);
    if Parse(drink).None? {
      r := Failure(UnknownDrink);
      return;
    }
    store.SetDrink(id, drink);
    var u2 := store.GetUser(id);
    r := Success(u2);
  }

  /**
   * cmd_setrate: the argument must be a number in (0, 10]; it becomes the rate of the
   * drink currently selected, so it is what rate_for_current_drink returns afterwards.
   */
  method CmdSetRate(store: UserStore, id: int, args: Input) returns (r: Result<UserRecord, Rejection>)
    modifies store
    ensures var e := Ensured(old(store.users), id);
      match CheckRate(args)
      case Failure(err) => r == Failure(err) && store.users == e
      case Success(rate) =>
        (store.users == e[id := WithRate(e[id], Coerce(e[id].drink), rate)] &&
         r == Success(store.users[id]) && RateForCurrentDrink(r.value) == rate)
    ensures AllHealthy(old(store.users)) ==> AllHealthy(store.users)
  {
    store.EnsureUser(id);
    var u := store.GetUser(id);
    if args.Absent? {
      r := Failure(Usage);
      return;
    }
    if args.Malformed? {
      r := Failure(NotANumber);
      return;
    }
    var val := args.value;
    if val <= 0.0 || val > 10.0 {
      r := Failure(OutOfRange);
      return;
    }
    store.SetRateForDrink(id, u.drink, val);
    var u2 := store.GetUser(id);
    r := Success(u2);
    WithRateOfCurrentDrink(u, val);
  }
}
