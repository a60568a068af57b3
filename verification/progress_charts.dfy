/** The data half of `render_progress_charts`
    (nutrition_tracker/components/progress_charts.py): the seven-day date
    window and one field-wise total per date. The plotting is not modelled. */
module ProgressCharts {
  import opened Common
  import opened NutrientTotals
  import opened DataManager

  /** The dates the charts show: six days ago through today, oldest first. */
  function WeekWindow(today: int): (dates: seq<int>)
    ensures |dates| == 7 && dates[0] == today - 6 && dates[6] == today
    ensures forall i, j :: 0 <= i < j < |dates| ==> dates[i] < dates[j]
    ensures forall d :: d in dates ==> today - 6 <= d <= today
  {
    seq(7, i => today - 6 + i)
  }

  /** Every date from six days ago to today is in the window. */
  lemma WeekWindowCoversWeek(today: int, d: int)
    requires today - 6 <= d <= today
    ensures d in WeekWindow(today)
  {
    assert WeekWindow(today)[d - today + 6] == d;
  }

  /** The window dates and their buckets, as `render_progress_charts` builds
      them: the dates `x` days before `today` for `x` from 0 to 6, with one
      clock reading standing for all seven, reversed; then for each date the
      sum of the log entries of that date, or zeros when there is no log. */
  method DailyTotalsForWeek(session: Session, today: int) returns (dates: seq<int>, dailyTotals: seq<Nutrients>)
    ensures dates == WeekWindow(today)
    ensures |dailyTotals| == |dates|
    ensures forall i :: 0 <= i < |dates| ==> dailyTotals[i] == DailyTotals(session.dailyLog, dates[i])
    ensures session.dailyLog.None? ==> forall i :: 0 <= i < |dailyTotals| ==> dailyTotals[i] == Zero
    ensures dailyTotals[6] == DailyTotals(session.dailyLog, today)
    ensures session.dailyLog.Some? ==> dailyTotals == WeekBuckets(session.dailyLog.value, today)
  {
    dates := Reversed(seq(7, x => today - x));
    assert dates == WeekWindow(today);
    dailyTotals := [];
    for k := 0 to |dates|
      invariant |dailyTotals| == k
      invariant forall i :: 0 <= i < k ==> dailyTotals[i] == DailyTotals(session.dailyLog, dates[i])
    {
      var date := dates[k];
      if session.dailyLog.None? {
        dailyTotals := dailyTotals + [Zero];
        continue;
      }
      var logs := EntriesOn(session.dailyLog.value, date);
      var totals := SumEntries(logs);
      dailyTotals := dailyTotals + [totals];
    }
    if session.dailyLog.Some? {
      WindowTotalsAreBuckets(session.dailyLog.value, today, dailyTotals);
    }
  }

  /** Per-date totals over the window, of an existing log, are its buckets. */
  lemma WindowTotalsAreBuckets(log: seq<MealEntry>, today: int, totals: seq<Nutrients>)
    requires |totals| == 7
    requires forall i :: 0 <= i < 7 ==> totals[i] == DailyTotals(Some(log), WeekWindow(today)[i])
    ensures totals == WeekBuckets(log, today)
  {
  }

  /** The buckets of the window, as a function of the log. */
  function WeekBuckets(log: seq<MealEntry>, today: int): (buckets: seq<Nutrients>)
    ensures |buckets| == 7
  {
    seq(7, i requires 0 <= i < 7 => DayTotal(log, today - 6 + i))
  }

  /** The entries of `log` dated inside the window ending at `today`. */
  function EntriesInWeek(log: seq<MealEntry>, today: int): seq<MealEntry>
  {
    if log == [] then []
    else
      var last := log[|log| - 1];
      EntriesInWeek(log[..|log| - 1], today)
        + if today - 6 <= last.timestamp.date <= today then [last] else []
  }

  /** The window's entries are exactly the logged entries dated inside it. */
  lemma {:induction false} EntriesInWeekMembers(log: seq<MealEntry>, today: int)
    ensures forall e :: e in EntriesInWeek(log, today) <==> e in log && today - 6 <= e.timestamp.date <= today
  {
    if log != [] {
      var init := log[..|log| - 1];
      EntriesInWeekMembers(init, today);
      assert log == init + [log[|log| - 1]];
    }
  }

  /** Adding `v` to one element adds `v` to the total. */
  lemma TotalBumpAt(xs: seq<Nutrients>, k: nat, v: Nutrients)
    requires k < |xs|
    ensures Total(xs[k := Add(xs[k], v)]) == Add(Total(xs), v)
  {
    var ys := xs[k := Add(xs[k], v)];
    TotalRemoveAt(xs, k);
    TotalRemoveAt(ys, k);
    assert ys[..k] + ys[k + 1..] == xs[..k] + xs[k + 1..];
  }

  /** One bucket after logging an entry: it grows by the entry's nutrients
      exactly when the entry falls on that bucket's date. */
  lemma BucketAppend(log: seq<MealEntry>, e: MealEntry, today: int, i: nat)
    requires i < 7
    ensures WeekBuckets(log + [e], today)[i]
         == if e.timestamp.date == today - 6 + i then Add(WeekBuckets(log, today)[i], e.nutrients)
            else WeekBuckets(log, today)[i]
  {
    DayTotalAppend(log, e, today - 6 + i);
  }

  /** Logging an entry changes the buckets only at its own date, and only when
      that date is inside the window. */
  lemma WeekBucketsAppend(log: seq<MealEntry>, e: MealEntry, today: int)
    ensures var d := e.timestamp.date;
      WeekBuckets(log + [e], today)
        == if today - 6 <= d <= today
           then WeekBuckets(log, today)[d - today + 6 := Add(DayTotal(log, d), e.nutrients)]
           else WeekBuckets(log, today)
  {
    var d := e.timestamp.date;
    var before, after := WeekBuckets(log, today), WeekBuckets(log + [e], today);
    if today - 6 <= d <= today {
      var k := d - today + 6;
      assert before[k] == DayTotal(log, d);
      var expected := before[k := Add(before[k], e.nutrients)];
      forall i | 0 <= i < 7
        ensures after[i] == expected[i]
      {
        BucketAppend(log, e, today, i);
      }
      assert after == expected;
    } else {
      forall i | 0 <= i < 7
        ensures after[i] == before[i]
      {
        BucketAppend(log, e, today, i);
      }
      assert after == before;
    }
  }

  /** With an empty log every bucket, and so their sum, is zero. */
  lemma WeekBucketsOfEmptyLog(today: int)
    ensures Total(WeekBuckets([], today)) == Zero
  {
    var buckets := WeekBuckets([], today);
    forall i | 0 <= i < 7
      ensures buckets[i] == Zero
    {
      assert EntriesOn([], today - 6 + i) == [];
      assert NutrientsOf([]) == [];
      assert buckets[i] == DayTotal([], today - 6 + i) == Total([]);
    }
    TotalOfZeros(buckets);
  }

  /** Logging an entry dated inside the window adds it to the window's
      entries; one dated outside leaves them as they were. */
  lemma EntriesInWeekAppend(log: seq<MealEntry>, e: MealEntry, today: int)
    ensures Total(NutrientsOf(EntriesInWeek(log + [e], today)))
         == if today - 6 <= e.timestamp.date <= today
            then Add(Total(NutrientsOf(EntriesInWeek(log, today))), e.nutrients)
            else Total(NutrientsOf(EntriesInWeek(log, today)))
  {
    assert (log + [e])[..|log|] == log;
    if today - 6 <= e.timestamp.date <= today {
      assert EntriesInWeek(log + [e], today) == EntriesInWeek(log, today) + [e];
      NutrientsOfConcat(EntriesInWeek(log, today), [e]);
      assert NutrientsOf([e]) == [e.nutrients];
      TotalConcat(NutrientsOf(EntriesInWeek(log, today)), [e.nutrients]);
      TotalOfSingleton(e.nutrients);
    } else {
      assert EntriesInWeek(log + [e], today) == EntriesInWeek(log, today);
    }
  }

  /** Across the seven buckets every entry dated inside the window is counted
      exactly once and no other entry is counted at all. */
  lemma {:induction false} WeekBucketsCountWindowEntriesOnce(log: seq<MealEntry>, today: int)
    ensures Total(WeekBuckets(log, today)) == Total(NutrientsOf(EntriesInWeek(log, today)))
  {
    if log == [] {
      WeekBucketsOfEmptyLog(today);
      assert EntriesInWeek(log, today) == [];
      assert NutrientsOf([]) == [];
    } else {
      var init, e := log[..|log| - 1], log[|log| - 1];
      assert log == init + [e];
      WeekBucketsCountWindowEntriesOnce(init, today);
      WeekBucketsAppend(init, e, today);
      EntriesInWeekAppend(init, e, today);
      var d := e.timestamp.date;
      if today - 6 <= d <= today {
        var k := d - today + 6;
        assert WeekBuckets(init, today)[k] == DayTotal(init, d);
        TotalBumpAt(WeekBuckets(init, today), k, e.nutrients);
      }
    }
  }

  /** An entry dated outside the window changes no bucket. */
  lemma EntryOutsideWindowChangesNoBucket(log: seq<MealEntry>, e: MealEntry, today: int)
    requires e.timestamp.date !in WeekWindow(today)
    ensures WeekBuckets(log + [e], today) == WeekBuckets(log, today)
  {
    if today - 6 <= e.timestamp.date <= today {
      WeekWindowCoversWeek(today, e.timestamp.date);
    }
    WeekBucketsAppend(log, e, today);
  }
}
