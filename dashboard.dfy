/**
 * The health-insights dashboard (features/Dashboard.tsx): whether a report
 * has been supplied, the macronutrient totals over the whole log, the
 * weekly score chart, and the upload modal that reads a report and merges
 * its findings into the profile.
 */
module Dashboard {
  import opened Wrappers
  import opened Types
  import opened Numbers
  import opened AppContext
  import FoodDiary
  import GeminiService

  /** The dashboard offers the report upload until the profile holds lab values. */
  predicate HasReportData(profile: Option<UserProfile>) {
    profile.Some? && profile.value.metrics != map[]
  }

  // ---------------------------------------------------------------------------
  // Macronutrient totals

  /** `Object.values(foodLog).flat()`: every meal, bucket by bucket. */
  function AllMeals(log: FoodLog): seq<LoggedMeal> {
    if log == [] then [] else log[0].meals + AllMeals(log[1..])
  }

  lemma {:induction false} AllMealsAppend(a: FoodLog, b: FoodLog)
    ensures AllMeals(a + b) == AllMeals(a) + AllMeals(b)
  {
    if a == [] {
      assert a + b == b;
    } else {
      AllMealsAppend(a[1..], b);
      assert (a + b)[1..] == a[1..] + b;
      assert (a + b)[0] == a[0];
      var x, y, z := a[0].meals, AllMeals(a[1..]), AllMeals(b);
      assert x + (y + z) == (x + y) + z;
    }
  }

  /** The meals of the first `i + 1` buckets are those of the first `i`, then bucket `i`'s. */
  lemma AllMealsSnoc(log: FoodLog, i: int)
    requires 0 <= i < |log|
    ensures AllMeals(log[..i + 1]) == AllMeals(log[..i]) + log[i].meals
  {
    assert log[..i + 1] == log[..i] + [log[i]];
    AllMealsAppend(log[..i], [log[i]]);
    assert AllMeals([log[i]]) == log[i].meals + [];
  }

  function ProteinOf(m: LoggedMeal): int { m.analysis.protein }

  function CarbsOf(m: LoggedMeal): int { m.analysis.carbs }

  function FatsOf(m: LoggedMeal): int { m.analysis.fats }

  /** The three slices of the macronutrient chart. */
  datatype Macros = Macros(protein: int, carbs: int, fats: int)

  /** The chart's totals: each macronutrient summed over every logged meal. */
  function MacroTotals(log: FoodLog): Macros {
    var meals := AllMeals(log);
    Macros(Sum(meals, ProteinOf), Sum(meals, CarbsOf), Sum(meals, FatsOf))
  }

  lemma SumStep(done: seq<LoggedMeal>, meals: seq<LoggedMeal>, j: int, f: LoggedMeal -> int)
    requires 0 <= j < |meals|
    ensures Sum(done + meals[..j + 1], f) == Sum(done + meals[..j], f) + f(meals[j])
  {
    var xs := done + meals[..j + 1];
    assert xs[..|xs| - 1] == done + meals[..j];
    assert xs[|xs| - 1] == meals[j];
  }

  /** `macroData`: walk every meal of every bucket, adding to the three accumulators. */
  method MacroData(log: FoodLog) returns (totals: Macros)
    ensures totals == MacroTotals(log)
  {
    var protein, carbs, fats := 0, 0, 0;
    var i := 0;
    assert log[..0] == [];
    while i < |log|
      invariant 0 <= i <= |log|
      invariant protein == Sum(AllMeals(log[..i]), ProteinOf)
      invariant carbs == Sum(AllMeals(log[..i]), CarbsOf)
      invariant fats == Sum(AllMeals(log[..i]), FatsOf)
    {
      var meals := log[i].meals;
      ghost var done := AllMeals(log[..i]);
      var j := 0;
      assert done + meals[..0] == done;
      while j < |meals|
        invariant 0 <= j <= |meals|
        invariant protein == Sum(done + meals[..j], ProteinOf)
        invariant carbs == Sum(done + meals[..j], CarbsOf)
        invariant fats == Sum(done + meals[..j], FatsOf)
      {
        SumStep(done, meals, j, ProteinOf);
        SumStep(done, meals, j, CarbsOf);
        SumStep(done, meals, j, FatsOf);
        protein := protein + meals[j].analysis.protein;
        carbs := carbs + meals[j].analysis.carbs;
        fats := fats + meals[j].analysis.fats;
        j := j + 1;
      }
      assert meals[..|meals|] == meals;
      AllMealsSnoc(log, i);
      i := i + 1;
    }
    assert log[..|log|] == log;
    totals := Macros(protein, carbs, fats);
  }

  /** Logging a meal adds exactly that meal's amount to a total, wherever its bucket is. */
  lemma {:induction false} SumAfterAdd(log: FoodLog, meal: LoggedMeal, f: LoggedMeal -> int)
    ensures Sum(AllMeals(AddToLog(log, meal)), f) == f(meal) + Sum(AllMeals(log), f)
  {
    var date := DateKey(meal.timestamp);
    var r := AddToLog(log, meal);
    if log == [] {
      assert AllMeals(r) == [meal] + [];
      SumAppend([meal], [], f);
      assert [meal][..0] == [];
    } else if log[0].date == date {
      assert r[1..] == log[1..];
      assert AllMeals(r) == [meal] + (log[0].meals + AllMeals(log[1..]));
      SumAppend([meal], log[0].meals + AllMeals(log[1..]), f);
      assert [meal][..0] == [];
    } else {
      assert r[1..] == AddToLog(log[1..], meal);
      SumAfterAdd(log[1..], meal, f);
      SumAppend(log[0].meals, AllMeals(r[1..]), f);
      SumAppend(log[0].meals, AllMeals(log[1..]), f);
    }
  }

  /** After `addMealToLog` the chart's totals have grown by the meal's protein, carbs and fats. */
  lemma MacrosAfterAdd(log: FoodLog, meal: LoggedMeal)
    ensures MacroTotals(AddToLog(log, meal)) ==
      Macros(MacroTotals(log).protein + meal.analysis.protein,
             MacroTotals(log).carbs + meal.analysis.carbs,
             MacroTotals(log).fats + meal.analysis.fats)
  {
    SumAfterAdd(log, meal, ProteinOf);
    SumAfterAdd(log, meal, CarbsOf);
    SumAfterAdd(log, meal, FatsOf);
  }

  // ---------------------------------------------------------------------------
  // Weekly scores

  /** A bar of the weekly chart: a date and that date's rounded mean score. */
  datatype DayScore = DayScore(date: string, score: int)

  function DayScoreOf(b: Bucket): DayScore {
    DayScore(b.date, FoodDiary.SummaryOf(b.meals).avgScore)
  }

  function Reversed<T>(s: seq<T>): (r: seq<T>)
    ensures |r| == |s|
    ensures forall i :: 0 <= i < |s| ==> r[i] == s[|s| - 1 - i]
  {
    if s == [] then [] else Reversed(s[1..]) + [s[0]]
  }

  /** One bar per bucket, in log order. */
  function DayScores(log: FoodLog): (r: seq<DayScore>)
    ensures |r| == |log|
    ensures forall i :: 0 <= i < |log| ==> r[i] == DayScoreOf(log[i])
  {
    if log == [] then [] else [DayScoreOf(log[0])] + DayScores(log[1..])
  }

  /**
   * `weeklyScores`: the first seven entries of the log, scored, then
   * reversed.  The chart has a bar for each of the first seven dates (all of
   * them when there are fewer), and the log's first date comes last.
   */
  function WeeklyScores(log: FoodLog): (r: seq<DayScore>)
    ensures |r| == if |log| < 7 then |log| else 7
    ensures forall i :: 0 <= i < |r| ==> r[i] == DayScoreOf(log[|r| - 1 - i])
  {
    Reversed(DayScores(log[..if |log| < 7 then |log| else 7]))
  }

  /** Each bar is within 0..100 when every meal's score is. */
  lemma WeeklyScoresWithin(log: FoodLog)
    requires forall b, m :: b in log && m in b.meals ==> 0 <= m.analysis.overallScore <= 100
    ensures forall d :: d in WeeklyScores(log) ==> 0 <= d.score <= 100
  {
    forall d | d in WeeklyScores(log)
      ensures 0 <= d.score <= 100
    {
      var i :| 0 <= i < |WeeklyScores(log)| && WeeklyScores(log)[i] == d;
      var b := log[|WeeklyScores(log)| - 1 - i];
      FoodDiary.AverageScoreWithin(b.meals);
    }
  }

  // ---------------------------------------------------------------------------
  // Condition merge

  predicate Distinct<T(==)>(s: seq<T>) {
    forall i, j :: 0 <= i < j < |s| ==> s[i] != s[j]
  }

  /** `[...new Set(s)]`: each element at its first occurrence, in order. */
  function Dedupe<T(==)>(s: seq<T>): (r: seq<T>)
    ensures Distinct(r)
  {
    if s == [] then []
    else
      var d := Dedupe(s[..|s| - 1]);
      if s[|s| - 1] in d then d else d + [s[|s| - 1]]
  }

  /** Nothing is lost and nothing is invented. */
  lemma {:induction false} DedupeMembers<T>(s: seq<T>, x: T)
    ensures x in Dedupe(s) <==> x in s
  {
    if s != [] {
      DedupeMembers(s[..|s| - 1], x);
      assert s == s[..|s| - 1] + [s[|s| - 1]];
    }
  }

  /** Appending never reorders what was already there. */
  lemma {:induction false} DedupeExtends<T>(s: seq<T>, t: seq<T>)
    ensures Dedupe(s) <= Dedupe(s + t)
  {
    if t != [] {
      DedupeExtends(s, t[..|t| - 1]);
      assert (s + t)[..|s + t| - 1] == s + t[..|t| - 1];
    } else {
      assert s + t == s;
    }
  }

  /** A list without repetitions is left as it is. */
  lemma {:induction false} DedupeDistinct<T>(s: seq<T>)
    requires Distinct(s)
    ensures Dedupe(s) == s
  {
    if s != [] {
      var init := s[..|s| - 1];
      DedupeDistinct(init);
      assert s[|s| - 1] !in init;
      assert init + [s[|s| - 1]] == s;
    }
  }

  /** `[...new Set([...existing, ...derived])]`. */
  function MergeConditions(existing: seq<Condition>, derived: seq<Condition>): (r: seq<Condition>)
    ensures Distinct(r)
  {
    Dedupe(existing + derived)
  }

  /**
   * The merged list has no repetition, holds exactly the conditions of both
   * lists, and starts with the existing list (without its repetitions).
   */
  lemma MergeConditionsLaws(existing: seq<Condition>, derived: seq<Condition>)
    ensures forall c :: c in MergeConditions(existing, derived) <==> c in existing || c in derived
    ensures Dedupe(existing) <= MergeConditions(existing, derived)
    ensures Distinct(existing) ==> existing <= MergeConditions(existing, derived)
  {
    forall c
      ensures c in MergeConditions(existing, derived) <==> c in existing || c in derived
    {
      DedupeMembers(existing + derived, c);
    }
    DedupeExtends(existing, derived);
    if Distinct(existing) {
      DedupeDistinct(existing);
    }
  }

  // ---------------------------------------------------------------------------
  // The upload modal

  const MaxFileSize := 5 * 1024 * 1024
  const FileTooLargeMessage := "Please select a file smaller than 5MB."
  const AnalyzeFailedMessage := "Failed to analyze report."

  /** A chosen file is kept only when there is one and it is under 5 MiB. */
  predicate Acceptable(files: seq<FileInfo>) {
    |files| > 0 && files[0].size < MaxFileSize
  }

  /** The update `handleAnalyze` sends: the report's values, the merged conditions. */
  function ReportPatch(existing: seq<Condition>, outcome: GeminiService.ReportOutcome): ProfilePatch {
    EmptyPatch.(metrics := Some(outcome.reportData),
                conditions := Some(MergeConditions(existing, outcome.conditions)))
  }

  /** `e.message || "Failed to analyze report."`. */
  function UploadError(e: GeminiService.ServiceError): (msg: string)
    ensures msg != ""
    ensures GeminiService.ErrorMessage(e) != "" ==> msg == GeminiService.ErrorMessage(e)
  {
    if GeminiService.ErrorMessage(e) != "" then GeminiService.ErrorMessage(e) else AnalyzeFailedMessage
  }

  /**
   * The upload modal's state; `open` is the dashboard's flag that shows it,
   * which the modal clears through its `onClose` callback.
   */
  class UploadModal {
    var file: Option<FileInfo>
    var isLoading: bool
    var error: Option<string>
    var open: bool

    constructor ()
      ensures file == None && !isLoading && error == None && open
    {
      file := None;
      isLoading := false;
      error := None;
      open := true;
    }

    /** `handleFileChange`: keep the first file if it is small enough, else complain. */
    method HandleFileChange(files: seq<FileInfo>)
      modifies this
      ensures Acceptable(files) ==> file == Some(files[0]) && error == None
      ensures !Acceptable(files) ==> file == old(file) && error == Some(FileTooLargeMessage)
      ensures isLoading == old(isLoading) && open == old(open)
    {
      if |files| > 0 && files[0].size < 5 * 1024 * 1024 {
        file := Some(files[0]);
        error := None;
      } else {
        error := Some(FileTooLargeMessage);
      }
    }

    /**
     * `handleAnalyze`: read the chosen file; on success replace the profile's
     * lab values, merge the derived conditions into its list and close; on
     * failure show the error and leave the profile alone.
     */
    method HandleAnalyze(store: Store, ask: GeminiService.Request -> GeminiService.Reply)
      requires store.Valid()
      modifies this, store
      ensures store.Valid()
      ensures store.foodLog == old(store.foodLog)
      ensures old(file).None? || old(store.profile).None? ==>
        store.profile == old(store.profile) && file == old(file) && isLoading == old(isLoading)
        && error == old(error) && open == old(open)
      ensures old(file).Some? && old(store.profile).Some? ==>
        var result := GeminiService.ReportResult(ask(GeminiService.ReportRequest(old(file).value)));
        var before := old(store.profile).value;
        file == old(file) && !isLoading
        && (result.Success? ==>
              store.profile == Some(Merge(before, ReportPatch(before.conditions, result.value)))
              && error == None && !open && HasReportData(store.profile))
        && (result.Failure? ==>
              store.profile == old(store.profile) && error == Some(UploadError(result.error)) && open == old(open))
    {
      if file.None? || store.profile.None? {
        return;
      }
      isLoading := true;
      error := None;
      var result := GeminiService.AnalyzeReport(file.value, ask);
      match result {
        case Success(outcome) =>
          var existing := store.profile.value.conditions;
          store.UpdateProfile(ReportPatch(existing, outcome));
          open := false;
        case Failure(e) =>
          error := Some(UploadError(e));
      }
      isLoading := false;
    }
  }
}
