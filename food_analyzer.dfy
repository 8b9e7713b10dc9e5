/**
 * The meal analyser screen (features/FoodAnalyzer.tsx): a description is
 * sent for analysis and, when an analysis comes back, logged as a meal; the
 * result is shown with a coloured score, capped progress bars and the cards
 * for the profile's conditions.
 */
module FoodAnalyzer {
  import opened Wrappers
  import opened Text
  import opened Types
  import opened AppContext
  import GeminiService

  // ---------------------------------------------------------------------------
  // Placeholder rotation

  const Placeholders: seq<string> := [
    "e.g., 2 roti, paneer sabzi, dal",
    "Try typing: poha with peanuts",
    "Or: chicken biryani with raita"
  ]

  /** `list.indexOf(p)`: the first position of `p`, or -1. */
  function IndexOf(list: seq<string>, p: string): (k: int)
    ensures -1 <= k < |list|
    ensures k == -1 <==> p !in list
    ensures k >= 0 ==> list[k] == p && p !in list[..k]
  {
    if list == [] then -1
    else if list[0] == p then 0
    else
      var k := IndexOf(list[1..], p);
      if k == -1 then -1 else k + 1
  }

  /** The next placeholder every three seconds: the one after the current, wrapping round. */
  function NextPlaceholder(p: string): (r: string)
    ensures r in Placeholders
  {
    Placeholders[(IndexOf(Placeholders, p) + 1) % |Placeholders|]
  }

  /**
   * From a shown placeholder the rotation moves to the next position modulo
   * three, it starts over from the first when the text is not one of them,
   * and three steps bring every placeholder back.
   */
  lemma PlaceholderRotation(p: string)
    ensures p !in Placeholders ==> NextPlaceholder(p) == Placeholders[0]
    ensures p == Placeholders[0] ==> NextPlaceholder(p) == Placeholders[1]
    ensures p == Placeholders[1] ==> NextPlaceholder(p) == Placeholders[2]
    ensures p == Placeholders[2] ==> NextPlaceholder(p) == Placeholders[0]
    ensures p in Placeholders ==> NextPlaceholder(NextPlaceholder(NextPlaceholder(p))) == p
  {
    var p0, p1, p2 := Placeholders[0], Placeholders[1], Placeholders[2];
    assert p0[0] == 'e' && p1[0] == 'T' && p2[0] == 'O';
    assert IndexOf(Placeholders, p0) == 0;
    assert IndexOf(Placeholders, p1) == 1;
    assert IndexOf(Placeholders, p2) == 2;
  }

  // ---------------------------------------------------------------------------
  // The result view

  datatype ScoreColor = Green | Yellow | Red

  /** The colour of the overall score. */
  function ScoreColorOf(score: int): (c: ScoreColor)
    ensures c == Green <==> score > 80
    ensures c == Yellow <==> 50 < score <= 80
    ensures c == Red <==> score <= 50
  {
    if score > 80 then Green else if score > 50 then Yellow else Red
  }

  /** A progress bar's width in percent: the share of the goal reached, never above 100. */
  function ProgressWidth(value: int, goal: int): (w: real)
    requires goal > 0
    ensures w <= 100.0
    ensures w == 100.0 <==> value >= goal
    ensures w < 100.0 ==> w * goal as real == value as real * 100.0
  {
    var share := value as real / goal as real * 100.0;
    if share < 100.0 then share else 100.0
  }

  /** The goals the three bars are drawn against: protein, carbs, fats. */
  const ProteinGoal := 50
  const CarbsGoal := 150
  const FatsGoal := 50

  /** Which of the four condition cards are shown. */
  datatype Cards = Cards(bloodSugar: bool, liver: bool, cholesterol: bool, weightLoss: bool)

  /** The blood-sugar card: some condition's key contains `diabetes`; the others: their exact key. */
  function CardsFor(conditions: seq<Condition>): Cards {
    Cards(exists c :: c in conditions && Contains(ConditionKey(c), "diabetes"),
          FattyLiver in conditions, HighCholesterol in conditions, WeightLossGoal in conditions)
  }

  /** Exactly two condition keys mention diabetes. */
  lemma KeyMentionsDiabetes(c: Condition)
    ensures Contains(ConditionKey(c), "diabetes") <==> c == Diabetes || c == Prediabetes
  {
    var key := ConditionKey(c);
    if c == Diabetes {
      assert OccursAt(key, "diabetes", 0);
    } else if c == Prediabetes {
      assert key[3..11] == "diabetes";
      assert OccursAt(key, "diabetes", 3);
    } else {
      KeyLacksDiabetes(c);
    }
  }

  /** The other keys each lack one letter of `diabetes`. */
  lemma KeyLacksDiabetes(c: Condition)
    requires c != Diabetes && c != Prediabetes
    ensures !Contains(ConditionKey(c), "diabetes")
  {
    var key := ConditionKey(c);
    match c
    case FattyLiver => MissingCharNotContained(key, "diabetes", 0);
    case HighCholesterol => MissingCharNotContained(key, "diabetes", 0);
    case HighBloodPressure => MissingCharNotContained(key, "diabetes", 2);
    case VitaminDDeficiency => MissingCharNotContained(key, "diabetes", 7);
    case VitaminB12Deficiency => MissingCharNotContained(key, "diabetes", 7);
    case PcosHormonalImbalance => MissingCharNotContained(key, "diabetes", 0);
    case WeightLossGoal => MissingCharNotContained(key, "diabetes", 0);
  }

  /** The blood-sugar card is shown for diabetes and for prediabetes, and for nothing else. */
  lemma BloodSugarCard(conditions: seq<Condition>)
    ensures CardsFor(conditions).bloodSugar <==> Diabetes in conditions || Prediabetes in conditions
  {
    forall c | c in conditions {
      KeyMentionsDiabetes(c);
    }
    KeyMentionsDiabetes(Diabetes);
    KeyMentionsDiabetes(Prediabetes);
  }

  // ---------------------------------------------------------------------------
  // The analyser

  const DescribeMealMessage := "Please describe your meal."
  const AnalysisFailedMessage := "Sorry, we couldn't analyze your meal. Please try again."

  /** The meal `handleAnalyze` logs: the description as its name, always as lunch. */
  function NewMeal(id: string, foodName: string, timestamp: string, analysis: FoodAnalysis): LoggedMeal {
    LoggedMeal(id, foodName, timestamp, Lunch, analysis)
  }

  class Analyzer {
    var foodName: string
    var placeholder: string
    var analysisResult: Option<FoodAnalysis>
    var isLoading: bool
    var error: Option<string>

    constructor ()
      ensures foodName == "" && placeholder == Placeholders[0]
      ensures analysisResult == None && !isLoading && error == None
    {
      foodName := "";
      placeholder := Placeholders[0];
      analysisResult := None;
      isLoading := false;
      error := None;
    }

    /** The text area's `onChange`. */
    method SetFoodName(text: string)
      modifies this
      ensures foodName == text && placeholder == old(placeholder)
      ensures analysisResult == old(analysisResult) && isLoading == old(isLoading) && error == old(error)
    {
      foodName := text;
    }

    /** The interval tick. */
    method RotatePlaceholder()
      modifies this
      ensures placeholder == NextPlaceholder(old(placeholder))
      ensures foodName == old(foodName) && analysisResult == old(analysisResult)
      ensures isLoading == old(isLoading) && error == old(error)
    {
      placeholder := NextPlaceholder(placeholder);
    }

    /**
     * `handleAnalyze`: with a description and a profile, ask for an analysis
     * and log it as a new meal; the id and the timestamp are the ones the
     * browser would generate.
     */
    method HandleAnalyze(store: Store, ask: GeminiService.Request -> GeminiService.Reply,
                         decode: string -> Option<FoodAnalysis>, fmt: real -> string,
                         id: string, timestamp: string)
      requires store.Valid()
      modifies this, store
      ensures store.Valid()
      ensures store.profile == old(store.profile)
      ensures foodName == old(foodName) && placeholder == old(placeholder)
      ensures Blank(old(foodName)) || old(store.profile).None? ==>
        error == Some(DescribeMealMessage) && store.foodLog == old(store.foodLog)
        && analysisResult == old(analysisResult) && isLoading == old(isLoading)
      ensures !Blank(old(foodName)) && old(store.profile).Some? ==>
        var result := GeminiService.DecodeReply(
          ask(GeminiService.FoodRequest(GeminiService.UserContext(old(store.profile).value, fmt), old(foodName))),
          '{', '}', GeminiService.FoodNoJsonMessage, decode);
        !isLoading
        && (result.Success? ==>
              analysisResult == Some(result.value) && error == None
              && store.foodLog == AddToLog(old(store.foodLog), NewMeal(id, old(foodName), timestamp, result.value)))
        && (result.Failure? ==>
              analysisResult == None && error == Some(AnalysisFailedMessage) && store.foodLog == old(store.foodLog))
    {
      if Trim(foodName) == "" || store.profile.None? {
        error := Some(DescribeMealMessage);
        return;
      }
      var name, profile := foodName, store.profile.value;
      ghost var expected := GeminiService.DecodeReply(
        ask(GeminiService.FoodRequest(GeminiService.UserContext(profile, fmt), name)),
        '{', '}', GeminiService.FoodNoJsonMessage, decode);
      isLoading := true;
      error := None;
      analysisResult := None;
      var result := GeminiService.AnalyzeFood(name, profile, ask, decode, fmt);
      assert result == expected;
      match result {
        case Success(analysis) =>
          analysisResult := Some(analysis);
          store.AddMealToLog(NewMeal(id, name, timestamp, analysis));
        case Failure(_) =>
          error := Some(AnalysisFailedMessage);
      }
      isLoading := false;
    }
  }
}
