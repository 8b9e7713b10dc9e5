/**
 * The application store (context/AppContext.tsx): one health profile and a
 * food log that files meals under the UTC calendar date of their timestamp.
 *
 * The log is a JavaScript object from date strings to meal lists.  Its keys
 * keep insertion order (date strings are never integer-like), and the
 * dashboard and the CSV export depend on that order, so the log is modelled
 * as a sequence of buckets rather than as a map.
 */
module AppContext {
  import opened Wrappers
  import opened Text
  import opened Types

  // ---------------------------------------------------------------------------
  // Date keys

  /** `toISOString().split('T')[0]`: the part of an ISO-8601 instant before the `T`. */
  function DateKey(timestamp: string): (date: string)
    ensures 'T' !in date
  {
    Split(timestamp, 'T')[0]
  }

  /** The key of `<date>T<time>` is `<date>`. */
  lemma DateKeyOfInstant(date: string, time: string)
    requires 'T' !in date
    ensures DateKey(date + "T" + time) == date
  {
    SplitSepFreePrefix(date, "T" + time, 'T');
    assert date + "T" + time == date + ("T" + time);
    assert ("T" + time)[1..] == time;
    assert Split("T" + time, 'T')[0] == "";
    assert date + "" == date;
  }

  // ---------------------------------------------------------------------------
  // The food log

  /** One key of the log and the meals filed under it, newest first. */
  datatype Bucket = Bucket(date: string, meals: seq<LoggedMeal>)

  type FoodLog = seq<Bucket>

  /** The log's keys in insertion order. */
  function Dates(log: FoodLog): (ds: seq<string>)
    ensures |ds| == |log|
  {
    if log == [] then [] else [log[0].date] + Dates(log[1..])
  }

  lemma {:induction false} DatesAppend(a: FoodLog, b: FoodLog)
    ensures Dates(a + b) == Dates(a) + Dates(b)
  {
    if a == [] {
      assert a + b == b;
    } else {
      var head := [a[0].date];
      assert (a + b)[0] == a[0];
      assert (a + b)[1..] == a[1..] + b;
      DatesAppend(a[1..], b);
      assert Dates(a + b) == head + (Dates(a[1..]) + Dates(b));
      assert Dates(a) == head + Dates(a[1..]);
      assert head + (Dates(a[1..]) + Dates(b)) == (head + Dates(a[1..])) + Dates(b);
    }
  }

  /** No key twice, as in any JavaScript object. */
  predicate DistinctDates(log: FoodLog) {
    log == [] || (log[0].date !in Dates(log[1..]) && DistinctDates(log[1..]))
  }

  predicate NoEmptyBuckets(log: FoodLog) {
    forall b :: b in log ==> b.meals != []
  }

  /** Every meal is filed under the date of its own timestamp. */
  predicate DatesMatch(log: FoodLog) {
    forall b, m :: b in log && m in b.meals ==> DateKey(m.timestamp) == b.date
  }

  /** The shape every log the store's operations build has. */
  predicate WellFormed(log: FoodLog) {
    DistinctDates(log) && NoEmptyBuckets(log) && DatesMatch(log)
  }

  /** No logged meal carries the id. */
  predicate Missing(log: FoodLog, id: string) {
    forall b, m :: b in log && m in b.meals ==> m.id != id
  }

  /** `foodLog[date] || []`: the meals filed under a date. */
  function MealsOn(log: FoodLog, date: string): (meals: seq<LoggedMeal>)
    ensures date !in Dates(log) ==> meals == []
  {
    if log == [] then []
    else if log[0].date == date then log[0].meals
    else MealsOn(log[1..], date)
  }

  /** The position of a date's bucket, or |log| when the date has none. */
  function BucketIndex(log: FoodLog, date: string): (i: nat)
    ensures i <= |log|
    ensures i < |log| ==> log[i].date == date
    ensures i == |log| <==> date !in Dates(log)
  {
    if log == [] then 0
    else if log[0].date == date then 0
    else 1 + BucketIndex(log[1..], date)
  }

  /**
   * `addMealToLog` on values: the meal goes first in its date's bucket, and
   * a date seen for the first time opens a new bucket after all the others.
   */
  function AddToLog(log: FoodLog, meal: LoggedMeal): (r: FoodLog)
    ensures MealsOn(r, DateKey(meal.timestamp)) == [meal] + MealsOn(log, DateKey(meal.timestamp))
    ensures forall d :: d != DateKey(meal.timestamp) ==> MealsOn(r, d) == MealsOn(log, d)
    ensures Dates(r) == if DateKey(meal.timestamp) in Dates(log) then Dates(log) else Dates(log) + [DateKey(meal.timestamp)]
  {
    var date := DateKey(meal.timestamp);
    if log == [] then [Bucket(date, [meal])]
    else if log[0].date == date then [Bucket(date, [meal] + log[0].meals)] + log[1..]
    else [log[0]] + AddToLog(log[1..], meal)
  }

  /** Adding two meals of one date leaves the later one first: `[second, first, ...]`. */
  lemma AddTwiceSameDate(log: FoodLog, first: LoggedMeal, second: LoggedMeal)
    requires DateKey(first.timestamp) == DateKey(second.timestamp)
    ensures MealsOn(AddToLog(AddToLog(log, first), second), DateKey(first.timestamp))
      == [second, first] + MealsOn(log, DateKey(first.timestamp))
  {
  }

  /** Adding a meal is an update of its date's bucket in place, or an appended bucket. */
  lemma {:induction false} AddToLogAt(log: FoodLog, meal: LoggedMeal)
    ensures var date := DateKey(meal.timestamp);
      var i := BucketIndex(log, date);
      AddToLog(log, meal) ==
        if i < |log| then log[i := Bucket(date, [meal] + log[i].meals)]
        else log + [Bucket(date, [meal])]
  {
    if log != [] && log[0].date != DateKey(meal.timestamp) {
      AddToLogAt(log[1..], meal);
    }
  }

  /** Adding a meal keeps the log well formed. */
  lemma {:induction false} AddPreservesWellFormed(log: FoodLog, meal: LoggedMeal)
    requires WellFormed(log)
    ensures WellFormed(AddToLog(log, meal))
  {
    if log != [] && log[0].date != DateKey(meal.timestamp) {
      AddPreservesWellFormed(log[1..], meal);
      var rest := AddToLog(log[1..], meal);
      assert log[0].date !in Dates(rest);
    }
  }

  /** `meals.filter(meal => meal.id !== id)`. */
  function WithoutMeal(meals: seq<LoggedMeal>, id: string): (r: seq<LoggedMeal>)
    ensures |r| <= |meals|
  {
    if meals == [] then []
    else (if meals[0].id == id then [] else [meals[0]]) + WithoutMeal(meals[1..], id)
  }

  /** The filter keeps exactly the meals whose id differs. */
  lemma {:induction false} WithoutMealMembers(meals: seq<LoggedMeal>, id: string)
    ensures forall m :: m in WithoutMeal(meals, id) <==> m in meals && m.id != id
  {
    if meals != [] {
      WithoutMealMembers(meals[1..], id);
      assert meals == [meals[0]] + meals[1..];
    }
  }

  /** The filter keeps the order of what it keeps: it distributes over concatenation. */
  lemma {:induction false} WithoutMealAppend(a: seq<LoggedMeal>, b: seq<LoggedMeal>, id: string)
    ensures WithoutMeal(a + b, id) == WithoutMeal(a, id) + WithoutMeal(b, id)
  {
    if a == [] {
      assert a + b == b;
    } else {
      var tail := a[1..];
      assert a + b == [a[0]] + (tail + b);
      WithoutMealAppend(tail, b, id);
      WithoutMealCons(a[0], tail + b, id);
      WithoutMealCons(a[0], tail, id);
      assert a == [a[0]] + tail;
      var head := if a[0].id == id then [] else [a[0]];
      var x, y := WithoutMeal(tail, id), WithoutMeal(b, id);
      assert head + (x + y) == (head + x) + y;
    }
  }

  lemma WithoutMealCons(m: LoggedMeal, rest: seq<LoggedMeal>, id: string)
    ensures WithoutMeal([m] + rest, id) == (if m.id == id then [] else [m]) + WithoutMeal(rest, id)
  {
    assert ([m] + rest)[1..] == rest;
  }

  /** Filtering out an id no meal has changes nothing. */
  lemma {:induction false} WithoutAbsentMeal(meals: seq<LoggedMeal>, id: string)
    requires forall m :: m in meals ==> m.id != id
    ensures WithoutMeal(meals, id) == meals
  {
    if meals != [] {
      WithoutAbsentMeal(meals[1..], id);
    }
  }

  /**
   * `deleteMealFromLog` on values: the id is filtered out of every bucket and
   * a bucket left empty is dropped.
   */
  function DeleteFromLog(log: FoodLog, id: string): (r: FoodLog)
    ensures NoEmptyBuckets(r)
    ensures Missing(r, id)
    ensures forall d :: d in Dates(r) ==> d in Dates(log)
  {
    if log == [] then []
    else
      var kept := WithoutMeal(log[0].meals, id);
      var front := if kept == [] then [] else [Bucket(log[0].date, kept)];
      WithoutMealMembers(log[0].meals, id);
      DatesAppend(front, DeleteFromLog(log[1..], id));
      front + DeleteFromLog(log[1..], id)
  }

  /** The first bucket of a delete's result, and the rest. */
  lemma DeleteFromLogStep(log: FoodLog, id: string)
    requires log != []
    ensures var kept := WithoutMeal(log[0].meals, id);
      var rest := DeleteFromLog(log[1..], id);
      DeleteFromLog(log, id) == if kept == [] then rest else [Bucket(log[0].date, kept)] + rest
  {
    assert [] + DeleteFromLog(log[1..], id) == DeleteFromLog(log[1..], id);
  }

  /** Deleting from a log after some buckets already kept: the first bucket moves over when something of it is left. */
  lemma DeleteAfter(kept: FoodLog, log: FoodLog, id: string)
    requires log != []
    ensures var left := WithoutMeal(log[0].meals, id);
      (if left == [] then kept else kept + [Bucket(log[0].date, left)]) + DeleteFromLog(log[1..], id)
      == kept + DeleteFromLog(log, id)
  {
    DeleteFromLogStep(log, id);
    var left := WithoutMeal(log[0].meals, id);
    if left != [] {
      var rest := DeleteFromLog(log[1..], id);
      assert (kept + [Bucket(log[0].date, left)]) + rest == kept + ([Bucket(log[0].date, left)] + rest);
    }
  }

  /** After a delete, each date holds its former meals less those with the id, in their order. */
  lemma {:induction false} DeleteLookup(log: FoodLog, id: string, date: string)
    requires DistinctDates(log)
    ensures MealsOn(DeleteFromLog(log, id), date) == WithoutMeal(MealsOn(log, date), id)
  {
    if log != [] {
      DeleteLookup(log[1..], id, date);
      DeleteFromLogStep(log, id);
      var kept := WithoutMeal(log[0].meals, id);
      var rest := DeleteFromLog(log[1..], id);
      if kept != [] {
        assert ([Bucket(log[0].date, kept)] + rest)[1..] == rest;
      }
      if log[0].date == date {
        assert MealsOn(log[1..], date) == [];
        assert date !in Dates(rest);
      }
    }
  }

  /** The key at a position of the log is the date of the bucket there. */
  lemma {:induction false} DatesAt(log: FoodLog, i: int)
    requires 0 <= i < |log|
    ensures Dates(log)[i] == log[i].date
  {
    if i > 0 {
      DatesAt(log[1..], i - 1);
    }
  }

  /** A bucket with the meals of the id filtered out. */
  function Filtered(b: Bucket, id: string): Bucket {
    Bucket(b.date, WithoutMeal(b.meals, id))
  }

  /** Positions shifted by one, as when a list loses its first element. */
  function Shift(idx: seq<nat>): (r: seq<nat>)
    ensures |r| == |idx|
    ensures forall j :: 0 <= j < |idx| ==> r[j] == idx[j] + 1
  {
    seq(|idx|, j requires 0 <= j < |idx| => idx[j] + 1)
  }

  /**
   * `r` holds the filtered buckets of `log` at the increasing positions
   * `idx`, and these are exactly the positions whose bucket keeps a meal.
   */
  predicate Selects(r: FoodLog, log: FoodLog, idx: seq<nat>, id: string) {
    |idx| == |r|
    && (forall j :: 0 <= j < |idx| ==> idx[j] < |log| && r[j] == Filtered(log[idx[j]], id))
    && (forall j, k :: 0 <= j < k < |idx| ==> idx[j] < idx[k])
    && (forall i :: 0 <= i < |log| ==> (i in idx <==> WithoutMeal(log[i].meals, id) != []))
  }

  /** The entries of a selection from the rest of the log, at shifted positions. */
  lemma ShiftedEntries(r: FoodLog, log: FoodLog, idx: seq<nat>, id: string)
    requires log != [] && Selects(r, log[1..], idx, id)
    ensures forall j :: 0 <= j < |idx| ==> Shift(idx)[j] < |log| && r[j] == Filtered(log[Shift(idx)[j]], id)
  {
    forall j | 0 <= j < |idx|
      ensures Shift(idx)[j] < |log| && r[j] == Filtered(log[Shift(idx)[j]], id)
    {
      assert log[1..][idx[j]] == log[idx[j] + 1];
    }
  }

  /** The shifted positions are the later buckets that keep a meal, and never the first. */
  lemma ShiftedMembers(r: FoodLog, log: FoodLog, idx: seq<nat>, id: string)
    requires log != [] && Selects(r, log[1..], idx, id)
    ensures forall i :: 1 <= i < |log| ==> (i in Shift(idx) <==> WithoutMeal(log[i].meals, id) != [])
    ensures 0 !in Shift(idx)
  {
    var shifted := Shift(idx);
    forall i | 1 <= i < |log|
      ensures i in shifted <==> WithoutMeal(log[i].meals, id) != []
    {
      assert log[1..][i - 1] == log[i];
      if i - 1 in idx {
        var j :| 0 <= j < |idx| && idx[j] == i - 1;
        assert shifted[j] == i;
      }
      if i in shifted {
        var j :| 0 <= j < |shifted| && shifted[j] == i;
        assert idx[j] == i - 1;
      }
    }
    forall j | 0 <= j < |shifted|
      ensures shifted[j] != 0
    {
    }
  }

  /** A first bucket left empty is skipped. */
  lemma SelectsSkip(r: FoodLog, log: FoodLog, idx: seq<nat>, id: string)
    requires log != [] && Selects(r, log[1..], idx, id)
    requires WithoutMeal(log[0].meals, id) == []
    ensures Selects(r, log, Shift(idx), id)
  {
    ShiftedEntries(r, log, idx, id);
    ShiftedMembers(r, log, idx, id);
  }

  /** Putting the first position in front of shifted ones keeps them increasing. */
  lemma ConsShiftIncreasing(idx: seq<nat>)
    requires forall j, k :: 0 <= j < k < |idx| ==> idx[j] < idx[k]
    ensures var idx' := [0] + Shift(idx);
      forall j, k :: 0 <= j < k < |idx'| ==> idx'[j] < idx'[k]
  {
    var shifted := Shift(idx);
    var idx' := [0] + shifted;
    forall j, k | 0 <= j < k < |idx'|
      ensures idx'[j] < idx'[k]
    {
      assert idx'[k] == shifted[k - 1] == idx[k - 1] + 1;
      if j > 0 {
        assert idx'[j] == shifted[j - 1] == idx[j - 1] + 1;
      }
    }
  }

  /** The entries when the first bucket is taken. */
  lemma TakenEntries(r: FoodLog, log: FoodLog, idx: seq<nat>, id: string)
    requires log != [] && Selects(r, log[1..], idx, id)
    ensures var r', idx' := [Filtered(log[0], id)] + r, [0] + Shift(idx);
      forall j :: 0 <= j < |idx'| ==> idx'[j] < |log| && r'[j] == Filtered(log[idx'[j]], id)
  {
    ShiftedEntries(r, log, idx, id);
    var shifted := Shift(idx);
    var r', idx' := [Filtered(log[0], id)] + r, [0] + shifted;
    forall j | 0 <= j < |idx'|
      ensures idx'[j] < |log| && r'[j] == Filtered(log[idx'[j]], id)
    {
      if j > 0 {
        assert idx'[j] == shifted[j - 1] && r'[j] == r[j - 1];
      }
    }
  }

  /** The positions when the first bucket is taken. */
  lemma TakenMembers(r: FoodLog, log: FoodLog, idx: seq<nat>, id: string)
    requires log != [] && Selects(r, log[1..], idx, id)
    requires WithoutMeal(log[0].meals, id) != []
    ensures forall i :: 0 <= i < |log| ==> (i in [0] + Shift(idx) <==> WithoutMeal(log[i].meals, id) != [])
  {
    ShiftedMembers(r, log, idx, id);
    var shifted := Shift(idx);
    var idx' := [0] + shifted;
    forall i | 0 <= i < |log|
      ensures i in idx' <==> WithoutMeal(log[i].meals, id) != []
    {
      assert i in idx' <==> i == 0 || i in shifted;
    }
  }

  /** A first bucket that keeps a meal comes first. */
  lemma SelectsTake(r: FoodLog, log: FoodLog, idx: seq<nat>, id: string)
    requires log != [] && Selects(r, log[1..], idx, id)
    requires WithoutMeal(log[0].meals, id) != []
    ensures Selects([Filtered(log[0], id)] + r, log, [0] + Shift(idx), id)
  {
    TakenEntries(r, log, idx, id);
    ConsShiftIncreasing(idx);
    TakenMembers(r, log, idx, id);
  }

  /**
   * A delete keeps the surviving buckets in their order: the result holds,
   * at increasing positions of the log, each bucket filtered, and those
   * positions are exactly the buckets that keep a meal.
   */
  lemma {:induction false} DeleteKeepsOrder(log: FoodLog, id: string) returns (idx: seq<nat>)
    ensures Selects(DeleteFromLog(log, id), log, idx, id)
  {
    if log == [] {
      return [];
    }
    var tail := DeleteKeepsOrder(log[1..], id);
    DeleteFromLogStep(log, id);
    if WithoutMeal(log[0].meals, id) == [] {
      SelectsSkip(DeleteFromLog(log[1..], id), log, tail, id);
      idx := Shift(tail);
    } else {
      SelectsTake(DeleteFromLog(log[1..], id), log, tail, id);
      idx := [0] + Shift(tail);
    }
  }

  /** The keys after a delete: those of the buckets that keep a meal, in their order in the log. */
  lemma DeleteKeepsKeyOrder(log: FoodLog, id: string) returns (idx: seq<nat>)
    ensures |idx| == |Dates(DeleteFromLog(log, id))|
    ensures forall j :: 0 <= j < |idx| ==>
      idx[j] < |log| && Dates(DeleteFromLog(log, id))[j] == Dates(log)[idx[j]]
    ensures forall j, k :: 0 <= j < k < |idx| ==> idx[j] < idx[k]
    ensures forall i :: 0 <= i < |log| ==> (i in idx <==> WithoutMeal(log[i].meals, id) != [])
  {
    idx := DeleteKeepsOrder(log, id);
    assert Selects(DeleteFromLog(log, id), log, idx, id);
    forall j | 0 <= j < |idx|
      ensures Dates(DeleteFromLog(log, id))[j] == Dates(log)[idx[j]]
    {
      DatesAt(DeleteFromLog(log, id), j);
      DatesAt(log, idx[j]);
    }
  }

  /** Deleting an id no meal has leaves a log without empty buckets unchanged. */
  lemma {:induction false} DeleteAbsent(log: FoodLog, id: string)
    requires NoEmptyBuckets(log) && Missing(log, id)
    ensures DeleteFromLog(log, id) == log
  {
    if log != [] {
      WithoutAbsentMeal(log[0].meals, id);
      DeleteAbsent(log[1..], id);
    }
  }

  /** Deleting keeps the log well formed. */
  lemma {:induction false} DeletePreservesWellFormed(log: FoodLog, id: string)
    requires WellFormed(log)
    ensures WellFormed(DeleteFromLog(log, id))
  {
    if log != [] {
      DeletePreservesWellFormed(log[1..], id);
      DeleteFromLogStep(log, id);
      WithoutMealMembers(log[0].meals, id);
      var kept := WithoutMeal(log[0].meals, id);
      var rest := DeleteFromLog(log[1..], id);
      if kept != [] {
        var r := [Bucket(log[0].date, kept)] + rest;
        assert r[1..] == rest;
        assert log[0].date !in Dates(rest);
        assert log[0] in log;
      }
    }
  }

  /** Adding a meal with a fresh id and then deleting that id restores the log. */
  lemma {:induction false} AddThenDelete(log: FoodLog, meal: LoggedMeal)
    requires WellFormed(log) && Missing(log, meal.id)
    ensures DeleteFromLog(AddToLog(log, meal), meal.id) == log
  {
    var date := DateKey(meal.timestamp);
    if log == [] {
    } else if log[0].date == date {
      assert log[0] in log;
      WithoutAbsentMeal(log[0].meals, meal.id);
      assert WithoutMeal([meal] + log[0].meals, meal.id) == log[0].meals;
      DeleteAbsent(log[1..], meal.id);
    } else {
      AddThenDelete(log[1..], meal);
      assert log[0] in log;
      WithoutAbsentMeal(log[0].meals, meal.id);
    }
  }

  // ---------------------------------------------------------------------------
  // The profile

  /** A field of a shallow merge: the update's value when present. */
  function Pick<T>(update: Option<T>, current: T): T {
    if update.Some? then update.value else current
  }

  /** `{ ...profile, ...updates }`. */
  function Merge(p: UserProfile, u: ProfilePatch): UserProfile {
    UserProfile(
      Pick(u.name, p.name), Pick(u.age, p.age), Pick(u.gender, p.gender),
      Pick(u.conditions, p.conditions), Pick(u.metrics, p.metrics),
      Pick(u.dietaryPreference, p.dietaryPreference), Pick(u.allergies, p.allergies),
      Pick(u.weightLossGoal, p.weightLossGoal), Pick(u.currentWeight, p.currentWeight),
      Pick(u.targetWeight, p.targetWeight), Pick(u.height, p.height), Pick(u.bmi, p.bmi),
      Pick(u.waterIntake, p.waterIntake), Pick(u.activityLevel, p.activityLevel),
      Pick(u.sleepHours, p.sleepHours))
  }

  /** An update with no field leaves the profile as it was, and applying an update twice is applying it once. */
  lemma MergeLaws(p: UserProfile, u: ProfilePatch)
    ensures Merge(p, EmptyPatch) == p
    ensures Merge(Merge(p, u), u) == Merge(p, u)
  {
  }

  // ---------------------------------------------------------------------------
  // The store

  class Store {
    var profile: Option<UserProfile>
    var foodLog: FoodLog

    ghost predicate Valid()
      reads this
    {
      WellFormed(foodLog)
    }

    /** The store's initial value: no profile and an empty log. */
    constructor ()
      ensures profile == None && foodLog == []
      ensures Valid()
    {
      profile := None;
      foodLog := [];
    }

    /** `setProfile`: replace the profile (possibly by none) and wipe the log. */
    method SetProfile(p: Option<UserProfile>)
      modifies this
      ensures profile == p && foodLog == []
      ensures Valid()
    {
      profile := p;
      foodLog := [];
    }

    /** `updateProfile`: merge the update into the profile; no profile stays no profile. */
    method UpdateProfile(updates: ProfilePatch)
      requires Valid()
      modifies this
      ensures profile == if old(profile).Some? then Some(Merge(old(profile).value, updates)) else None
      ensures foodLog == old(foodLog)
      ensures Valid()
    {
      if profile.Some? {
        profile := Some(Merge(profile.value, updates));
      } else {
        profile := None;
      }
    }

    /** `addMealToLog`: open the date's bucket if needed, then put the meal at its front. */
    method AddMealToLog(meal: LoggedMeal)
      requires Valid()
      modifies this
      ensures foodLog == AddToLog(old(foodLog), meal)
      ensures profile == old(profile)
      ensures Valid()
    {
      var date := DateKey(meal.timestamp);
      var i := BucketIndex(foodLog, date);
      AddToLogAt(foodLog, meal);
      AddPreservesWellFormed(foodLog, meal);
      ghost var before := foodLog;
      if i == |foodLog| {
        foodLog := foodLog + [Bucket(date, [])];
      }
      foodLog := foodLog[i := Bucket(date, [meal] + foodLog[i].meals)];
      if i == |before| {
        assert [meal] + [] == [meal];
        assert foodLog == before + [Bucket(date, [meal])];
      }
    }

    /** `deleteMealFromLog`: filter every bucket, dropping the ones left empty. */
    method DeleteMealFromLog(id: string)
      requires Valid()
      modifies this
      ensures foodLog == DeleteFromLog(old(foodLog), id)
      ensures profile == old(profile)
      ensures Valid()
    {
      var log := foodLog;
      var newLog: FoodLog := [];
      var i := 0;
      while i < |log|
        invariant 0 <= i <= |log|
        invariant newLog + DeleteFromLog(log[i..], id) == DeleteFromLog(log, id)
        invariant profile == old(profile)
      {
        DeleteAfter(newLog, log[i..], id);
        assert log[i..][1..] == log[i + 1..];
        var kept := WithoutMeal(log[i].meals, id);
        if |kept| != 0 {
          newLog := newLog + [Bucket(log[i].date, kept)];
        }
        i := i + 1;
      }
      assert newLog + [] == newLog;
      DeletePreservesWellFormed(log, id);
      foodLog := newLog;
    }
  }
}
