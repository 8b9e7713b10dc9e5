/**
 * The food diary screen (features/FoodDiary.tsx): the log's dates newest
 * first, the day's meals and totals, and the CSV export of the whole log.
 */
module FoodDiary {
  import opened Wrappers
  import opened Text
  import opened Types
  import opened Numbers
  import opened AppContext

  // ---------------------------------------------------------------------------
  // Date order

  /**
   * `a` sorts no later than `b`, comparing character by character.  For the
   * `YYYY-MM-DD` keys of the log this is the calendar order.
   */
  predicate NoLater(a: string, b: string) {
    a == [] || (b != [] && (a[0] < b[0] || (a[0] == b[0] && NoLater(a[1..], b[1..]))))
  }

  /** Any two dates compare one way or the other. */
  lemma {:induction false} NoLaterTotal(a: string, b: string)
    ensures NoLater(a, b) || NoLater(b, a)
  {
    if a != [] && b != [] && a[0] == b[0] {
      NoLaterTotal(a[1..], b[1..]);
    }
  }

  lemma {:induction false} NoLaterTransitive(a: string, b: string, c: string)
    requires NoLater(a, b) && NoLater(b, c)
    ensures NoLater(a, c)
  {
    if a != [] && b != [] && c != [] && a[0] == b[0] && b[0] == c[0] {
      NoLaterTransitive(a[1..], b[1..], c[1..]);
    }
  }

  /** Newest first: each date is no earlier than the one after it. */
  predicate NewestFirst(ds: seq<string>) {
    forall i :: 0 <= i < |ds| - 1 ==> NoLater(ds[i + 1], ds[i])
  }

  /** Put a date into a newest-first list before the first date no later than it. */
  function InsertByDate(d: string, ds: seq<string>): (r: seq<string>)
    requires NewestFirst(ds)
    ensures NewestFirst(r)
    ensures multiset(r) == multiset(ds) + multiset{d}
    ensures r != [] && (r[0] == d || (ds != [] && r[0] == ds[0]))
  {
    if ds == [] then [d]
    else if NoLater(ds[0], d) then [d] + ds
    else
      NoLaterTotal(ds[0], d);
      var rest := InsertByDate(d, ds[1..]);
      assert [ds[0]] + ds[1..] == ds;
      [ds[0]] + rest
  }

  /** `Object.keys(foodLog).sort(...)` with the newest date first. */
  function SortNewestFirst(ds: seq<string>): (r: seq<string>)
    ensures NewestFirst(r)
    ensures multiset(r) == multiset(ds)
  {
    if ds == [] then []
    else
      var r := InsertByDate(ds[0], SortNewestFirst(ds[1..]));
      assert ds == [ds[0]] + ds[1..];
      r
  }

  /** In a newest-first list every date is no earlier than every date after it. */
  lemma {:induction false} NewestFirstPairs(ds: seq<string>, i: int, j: int)
    requires NewestFirst(ds)
    requires 0 <= i < j < |ds|
    ensures NoLater(ds[j], ds[i])
  {
    if j > i + 1 {
      NewestFirstPairs(ds, i, j - 1);
      NoLaterTransitive(ds[j], ds[j - 1], ds[i]);
    }
  }

  /** The dates the diary lists: every key of the log once, newest first. */
  function DiaryDates(log: FoodLog): (ds: seq<string>)
    ensures NewestFirst(ds) && multiset(ds) == multiset(Dates(log))
  {
    SortNewestFirst(Dates(log))
  }

  // ---------------------------------------------------------------------------
  // The day's summary

  function CaloriesOf(m: LoggedMeal): int { m.analysis.calories }

  function ScoreOf(m: LoggedMeal): int { m.analysis.overallScore }

  datatype Summary = Summary(calories: int, avgScore: int)

  /** The summary of a day: total calories, and the rounded mean score (0 for no meal). */
  function SummaryOf(meals: seq<LoggedMeal>): Summary {
    Summary(Sum(meals, CaloriesOf),
            if |meals| > 0 then RoundedMean(Sum(meals, ScoreOf), |meals|) else 0)
  }

  /** `dailySummary`: accumulate calories and scores, then turn the score total into a mean. */
  method DailySummary(meals: seq<LoggedMeal>) returns (s: Summary)
    ensures s == SummaryOf(meals)
  {
    var calories := 0;
    var score := 0;
    var i := 0;
    while i < |meals|
      invariant 0 <= i <= |meals|
      invariant calories == Sum(meals[..i], CaloriesOf)
      invariant score == Sum(meals[..i], ScoreOf)
    {
      assert meals[..i + 1][..i] == meals[..i];
      calories := calories + meals[i].analysis.calories;
      score := score + meals[i].analysis.overallScore;
      i := i + 1;
    }
    assert meals[..|meals|] == meals;
    if |meals| > 0 {
      score := RoundedMean(score, |meals|);
    }
    s := Summary(calories, score);
  }

  /** When every score is a percentage, so is the day's average. */
  lemma AverageScoreWithin(meals: seq<LoggedMeal>)
    requires forall m :: m in meals ==> 0 <= m.analysis.overallScore <= 100
    ensures 0 <= SummaryOf(meals).avgScore <= 100
  {
    if |meals| > 0 {
      SumWithin(meals, ScoreOf, 0, 100);
      RoundedMeanWithin(Sum(meals, ScoreOf), |meals|, 0, 100);
    }
  }

  /** Logging a meal on a day adds its calories to the day's total. */
  lemma SummaryAfterAdd(log: FoodLog, meal: LoggedMeal)
    ensures var date := DateKey(meal.timestamp);
      SummaryOf(MealsOn(AddToLog(log, meal), date)).calories
        == meal.analysis.calories + SummaryOf(MealsOn(log, date)).calories
  {
    SumAppend([meal], MealsOn(log, DateKey(meal.timestamp)), CaloriesOf);
    assert Sum([meal], CaloriesOf) == CaloriesOf(meal) by {
      assert [meal][..0] == [];
    }
  }

  // ---------------------------------------------------------------------------
  // CSV export

  const CsvHeader := "data:text/csv;charset=utf-8,Date,Meal,Calories,Protein(g),Carbs(g),Fats(g),Score\n"

  /** The seven fields of a meal's row: the name loses its commas. */
  function RowFields(date: string, meal: LoggedMeal): seq<string> {
    var a := meal.analysis;
    [date, RemoveChar(meal.name, ','), IntToString(a.calories), IntToString(a.protein),
     IntToString(a.carbs), IntToString(a.fats), IntToString(a.overallScore)]
  }

  /** A meal's row: its fields joined with commas. */
  function CsvRow(date: string, meal: LoggedMeal): string {
    Join(RowFields(date, meal), ",")
  }

  /** A row of a comma-free date splits back into exactly its seven fields. */
  lemma CsvRowFields(date: string, meal: LoggedMeal)
    requires ',' !in date
    ensures Split(CsvRow(date, meal), ',') == RowFields(date, meal)
    ensures |Split(CsvRow(date, meal), ',')| == 7
  {
    var fields := RowFields(date, meal);
    forall i | 2 <= i < 7
      ensures ',' !in fields[i]
    {
      var digits := fields[i];
      assert forall k :: 0 <= k < |digits| ==> digits[k] != ',';
    }
    SplitJoin(fields, ',');
  }

  /** The rows of one bucket, its meals in order. */
  function BucketRows(b: Bucket): (rows: seq<string>)
    ensures |rows| == |b.meals|
  {
    seq(|b.meals|, i requires 0 <= i < |b.meals| => CsvRow(b.date, b.meals[i]))
  }

  /** The rows of the whole log: bucket by bucket in key order. */
  function Rows(log: FoodLog): seq<string> {
    if log == [] then [] else Rows(log[..|log| - 1]) + BucketRows(log[|log| - 1])
  }

  /** The number of meals in the log. */
  function MealCount(log: FoodLog): nat {
    if log == [] then 0 else MealCount(log[..|log| - 1]) + |log[|log| - 1].meals|
  }

  /** Exactly one row per logged meal. */
  lemma {:induction false} RowsPerMeal(log: FoodLog)
    ensures |Rows(log)| == MealCount(log)
  {
    if log != [] {
      RowsPerMeal(log[..|log| - 1]);
    }
  }

  /** Each row, followed by a carriage return and a line feed. */
  function Lines(rows: seq<string>): string {
    if rows == [] then "" else Lines(rows[..|rows| - 1]) + rows[|rows| - 1] + "\r\n"
  }

  /** The exported text: the header line and then one line per meal. */
  function CsvContent(log: FoodLog): string {
    CsvHeader + Lines(Rows(log))
  }

  /** Adding a row adds its line at the end. */
  lemma LinesSnoc(head: string, rows: seq<string>, row: string)
    ensures head + Lines(rows + [row]) == head + Lines(rows) + row + "\r\n"
  {
    assert (rows + [row])[..|rows|] == rows;
  }

  lemma TakeOneMore(done: seq<string>, rows: seq<string>, j: int)
    requires 0 <= j < |rows|
    ensures done + rows[..j + 1] == (done + rows[..j]) + [rows[j]]
  {
    assert rows[..j + 1] == rows[..j] + [rows[j]];
  }

  /** The rows of one more bucket come after the rows before it. */
  lemma RowsSnoc(log: FoodLog, i: int)
    requires 0 <= i < |log|
    ensures Rows(log[..i + 1]) == Rows(log[..i]) + BucketRows(log[i])
  {
    assert log[..i + 1][..i] == log[..i];
  }

  /** `exportToCSV`: append a line per meal, bucket by bucket. */
  method ExportToCsv(log: FoodLog) returns (csv: string)
    ensures csv == CsvContent(log)
  {
    csv := CsvHeader;
    var i := 0;
    while i < |log|
      invariant 0 <= i <= |log|
      invariant csv == CsvHeader + Lines(Rows(log[..i]))
    {
      var date, meals := log[i].date, log[i].meals;
      ghost var done := Rows(log[..i]);
      ghost var bucket := BucketRows(log[i]);
      var j := 0;
      assert done + bucket[..0] == done;
      while j < |meals|
        invariant 0 <= j <= |meals|
        invariant csv == CsvHeader + Lines(done + bucket[..j])
      {
        var row := CsvRow(date, meals[j]);
        TakeOneMore(done, bucket, j);
        assert row == bucket[j];
        LinesSnoc(CsvHeader, done + bucket[..j], row);
        csv := csv + row + "\r\n";
        j := j + 1;
      }
      assert bucket[..|meals|] == bucket;
      RowsSnoc(log, i);
      i := i + 1;
    }
    assert log[..|log|] == log;
  }
}
