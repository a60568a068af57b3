/** `DataManager` of nutrition_tracker/utils/data_manager.py: a read-only food
    catalogue (loaded from a CSV file in the source, passed in here) and the
    session's meal log, which only ever grows at the end.

    The log lives in Streamlit's session state, which is modelled by the class
    `Session`: its `dailyLog` is `None` while the 'daily_log' key is absent.
    The clock is a parameter: `now` for logging, `today` (a day number) for
    totals. */
module DataManager {
  import opened Common
  import opened NutrientTotals

  /** One row of the food catalogue. */
  datatype FoodRow = FoodRow(foodName: string, servingSize: real, nutrients: Nutrients)

  /** The dict returned by `get_food_info`. */
  datatype FoodInfo = FoodInfo(servingSize: real, nutrients: Nutrients)

  /** `iloc[0]` on an empty selection raises: the name is not in the catalogue. */
  datatype LookupError = NoSuchFood(foodName: string)

  /** One element of `st.session_state.daily_log`. */
  datatype MealEntry = MealEntry(foodName: string, portions: real, nutrients: Nutrients, timestamp: Timestamp)

  /** The log as a sequence; an absent log reads as empty. */
  function LogOrEmpty(dailyLog: Option<seq<MealEntry>>): seq<MealEntry>
  {
    match dailyLog
    case None => []
    case Some(log) => log
  }

  /** The entries of `log` whose timestamp falls on `date`, in log order. */
  function EntriesOn(log: seq<MealEntry>, date: int): (r: seq<MealEntry>)
    ensures |r| <= |log|
  {
    if log == [] then []
    else
      var last := log[|log| - 1];
      EntriesOn(log[..|log| - 1], date) + if last.timestamp.date == date then [last] else []
  }

  /** The date filter keeps exactly the logged entries dated on `date`. */
  lemma {:induction false} EntriesOnMembers(log: seq<MealEntry>, date: int)
    ensures forall e :: e in EntriesOn(log, date) <==> e in log && e.timestamp.date == date
  {
    if log != [] {
      var init := log[..|log| - 1];
      EntriesOnMembers(init, date);
      assert log == init + [log[|log| - 1]];
    }
  }

  /** The nutrient records of a list of entries. */
  function NutrientsOf(entries: seq<MealEntry>): (r: seq<Nutrients>)
    ensures |r| == |entries|
  {
    seq(|entries|, i requires 0 <= i < |entries| => entries[i].nutrients)
  }

  /** Field-wise total of the entries logged on `date`. */
  function DayTotal(log: seq<MealEntry>, date: int): Nutrients
  {
    Total(NutrientsOf(EntriesOn(log, date)))
  }

  /** What `get_daily_totals` must return for a given session log and day. */
  function DailyTotals(dailyLog: Option<seq<MealEntry>>, today: int): Nutrients
  {
    match dailyLog
    case None => Zero
    case Some(log) => DayTotal(log, today)
  }

  /** Index of the first catalogue row named `foodName`, looking from `from`. */
  function FirstRowNamed(rows: seq<FoodRow>, foodName: string, from: nat): (r: Option<nat>)
    requires from <= |rows|
    ensures r.Some? ==> from <= r.value < |rows| && rows[r.value].foodName == foodName
    ensures r.Some? ==> forall j :: from <= j < r.value ==> rows[j].foodName != foodName
    ensures r.None? ==> forall j :: from <= j < |rows| ==> rows[j].foodName != foodName
    decreases |rows| - from
  {
    if from == |rows| then None
    else if rows[from].foodName == foodName then Some(from)
    else FirstRowNamed(rows, foodName, from + 1)
  }

  /** The accumulation loop of `get_daily_totals` (and of the progress
      charts): start from zeros and add each entry's four fields in turn. */
  method SumEntries(logs: seq<MealEntry>) returns (totals: Nutrients)
    ensures totals == Total(NutrientsOf(logs))
  {
    totals := Zero;
    for i := 0 to |logs|
      invariant totals == Total(NutrientsOf(logs[..i]))
    {
      var log := logs[i];
      totals := Nutrients(
        totals.calories + log.nutrients.calories,
        totals.protein + log.nutrients.protein,
        totals.carbs + log.nutrients.carbs,
        totals.fat + log.nutrients.fat);
      assert NutrientsOf(logs[..i + 1])[..i] == NutrientsOf(logs[..i]);
    }
    assert logs[..|logs|] == logs;
  }

  /** Streamlit's session state; only the 'daily_log' key is modelled. */
  class Session {
    var dailyLog: Option<seq<MealEntry>>

    /** A fresh session has no 'daily_log' key. */
    constructor()
      ensures dailyLog == None
    {
      dailyLog := None;
    }
  }

  class DataManager {
    /** The catalogue, one row per line of the food database file. */
    const foodDb: seq<FoodRow>

    constructor(foodDb: seq<FoodRow>)
      ensures this.foodDb == foodDb
    {
      this.foodDb := foodDb;
    }

    /** `get_food_items`: the catalogue's food names, one per row, in order. */
    function GetFoodItems(): (names: seq<string>)
      ensures |names| == |foodDb|
      ensures forall i :: 0 <= i < |foodDb| ==> names[i] == foodDb[i].foodName
    {
      seq(|foodDb|, i requires 0 <= i < |foodDb| => foodDb[i].foodName)
    }

    /** `get_food_info`: the first row whose name matches; no match is an
        error. */
    function GetFoodInfo(foodName: string): (r: Result<FoodInfo, LookupError>)
      ensures r.Success? <==> foodName in GetFoodItems()
      ensures r.Failure? ==> r.error == NoSuchFood(foodName)
      ensures r.Success? ==>
        exists i :: && 0 <= i < |foodDb| && foodDb[i].foodName == foodName
                    && (forall j :: 0 <= j < i ==> foodDb[j].foodName != foodName)
                    && r.value == FoodInfo(foodDb[i].servingSize, foodDb[i].nutrients)
    {
      match FirstRowNamed(foodDb, foodName, 0)
      case None => Failure(NoSuchFood(foodName))
      case Some(i) => Success(FoodInfo(foodDb[i].servingSize, foodDb[i].nutrients))
    }

    /** `log_meal`: make sure the log exists, look the food up, then append
        one entry with the per-serving nutrients times `portions`. An unknown
        food raises after the empty log has been created. */
    method LogMeal(session: Session, foodName: string, portions: real, now: Timestamp) returns (raised: Option<LookupError>)
      modifies session
      ensures raised.None? <==> foodName in GetFoodItems()
      ensures raised.Some? ==> raised.value == NoSuchFood(foodName)
      ensures raised.Some? ==> session.dailyLog == Some(LogOrEmpty(old(session.dailyLog)))
      ensures raised.None? ==> GetFoodInfo(foodName).Success?
      ensures raised.None? ==>
        session.dailyLog == Some(LogOrEmpty(old(session.dailyLog)) + [
          MealEntry(foodName, portions, Scale(GetFoodInfo(foodName).value.nutrients, portions), now)])
    {
      if session.dailyLog.None? {
        session.dailyLog := Some([]);
      }
      assert session.dailyLog.value == LogOrEmpty(old(session.dailyLog));
      var foodInfo := GetFoodInfo(foodName);
      if foodInfo.Failure? {
        return Some(foodInfo.error);
      }
      var info := foodInfo.value.nutrients;
      var mealEntry := MealEntry(
        foodName,
        portions,
        Nutrients(info.calories * portions, info.protein * portions, info.carbs * portions, info.fat * portions),
        now);
      assert mealEntry.nutrients == Scale(GetFoodInfo(foodName).value.nutrients, portions);
      session.dailyLog := Some(session.dailyLog.value + [mealEntry]);
      raised := None;
    }

    /** `get_daily_totals`: zeros when there is no log; otherwise the sum of
        exactly the entries whose timestamp falls on `today`. */
    method GetDailyTotals(session: Session, today: int) returns (totals: Nutrients)
      ensures totals == DailyTotals(session.dailyLog, today)
    {
      if session.dailyLog.None? {
        return Zero;
      }
      var todayLogs := EntriesOn(session.dailyLog.value, today);
      totals := SumEntries(todayLogs);
    }
  }

  lemma NutrientsOfConcat(xs: seq<MealEntry>, ys: seq<MealEntry>)
    ensures NutrientsOf(xs + ys) == NutrientsOf(xs) + NutrientsOf(ys)
  {
  }

  /** Filtering by date distributes over concatenation. */
  lemma {:induction false} EntriesOnConcat(xs: seq<MealEntry>, ys: seq<MealEntry>, date: int)
    ensures EntriesOn(xs + ys, date) == EntriesOn(xs, date) + EntriesOn(ys, date)
  {
    if ys == [] {
      assert xs + ys == xs;
    } else {
      var init := ys[..|ys| - 1];
      assert (xs + ys)[..|xs + ys| - 1] == xs + init;
      EntriesOnConcat(xs, init, date);
    }
  }

  /** A day's total over two logs is the sum of the two day totals. */
  lemma DayTotalConcat(xs: seq<MealEntry>, ys: seq<MealEntry>, date: int)
    ensures DayTotal(xs + ys, date) == Add(DayTotal(xs, date), DayTotal(ys, date))
  {
    EntriesOnConcat(xs, ys, date);
    NutrientsOfConcat(EntriesOn(xs, date), EntriesOn(ys, date));
    TotalConcat(NutrientsOf(EntriesOn(xs, date)), NutrientsOf(EntriesOn(ys, date)));
  }

  /** Appending one entry adds its nutrients to the total of its own date
      and leaves the total of every other date as it was. */
  lemma DayTotalAppend(log: seq<MealEntry>, e: MealEntry, date: int)
    ensures DayTotal(log + [e], date)
         == if e.timestamp.date == date then Add(DayTotal(log, date), e.nutrients) else DayTotal(log, date)
  {
    DayTotalConcat(log, [e], date);
    assert [e][..0] == [];
    if e.timestamp.date == date {
      assert EntriesOn([e], date) == [e];
      TotalOfSingleton(e.nutrients);
      assert NutrientsOf([e]) == [e.nutrients];
    } else {
      assert EntriesOn([e], date) == [];
    }
  }

  /** After `log_meal` appends entry `e` (to the existing log, or to the one it
      creates), the totals for the entry's date grow by exactly its nutrients
      and the totals for every other date are unchanged. */
  lemma LoggedMealMovesOnlyItsOwnDay(dailyLog: Option<seq<MealEntry>>, e: MealEntry, date: int)
    ensures DailyTotals(Some(LogOrEmpty(dailyLog) + [e]), date)
         == if e.timestamp.date == date then Add(DailyTotals(dailyLog, date), e.nutrients) else DailyTotals(dailyLog, date)
  {
    DayTotalAppend(LogOrEmpty(dailyLog), e, date);
    if dailyLog.None? {
      assert EntriesOn([], date) == [];
      assert DayTotal([], date) == Zero;
    }
  }

  /** Taking one entry out of the middle of the log takes it out of the day
      total. */
  lemma DayTotalRemoveAt(ys: seq<MealEntry>, j: nat, date: int)
    requires j < |ys|
    ensures DayTotal(ys, date) == Add(DayTotal(ys[..j] + ys[j + 1..], date), DayTotal([ys[j]], date))
  {
    var before, x, after := ys[..j], [ys[j]], ys[j + 1..];
    assert ys == (before + x) + after;
    DayTotalConcat(before + x, after, date);
    DayTotalConcat(before, x, date);
    DayTotalConcat(before, after, date);
    var b, m, a := DayTotal(before, date), DayTotal(x, date), DayTotal(after, date);
    assert DayTotal(ys, date) == Add(Add(b, m), a);
    assert DayTotal(before + after, date) == Add(b, a);
    AddRightSwap(b, m, a);
  }

  /** The day totals do not depend on the order of the log. */
  lemma {:induction false} DayTotalPermutation(xs: seq<MealEntry>, ys: seq<MealEntry>, date: int)
    requires multiset(xs) == multiset(ys)
    ensures DayTotal(xs, date) == DayTotal(ys, date)
    decreases |xs|
  {
    if xs == [] {
      assert |ys| == |multiset(ys)| == 0;
    } else {
      var n := |xs| - 1;
      assert xs[n] in multiset(ys);
      var j :| 0 <= j < |ys| && ys[j] == xs[n];
      MultisetRemoveAt(xs, n);
      MultisetRemoveAt(ys, j);
      assert xs[..n] + xs[n + 1..] == xs[..n];
      DayTotalPermutation(xs[..n], ys[..j] + ys[j + 1..], date);
      DayTotalRemoveAt(xs, n, date);
      DayTotalRemoveAt(ys, j, date);
    }
  }
}
