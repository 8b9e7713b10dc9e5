/**
 * The application's data shapes (types.ts): the health profile, lab report
 * values, the nutrition analysis of a meal, logged meals, chat messages and
 * the meal and drink suggestions.
 */
module Types {
  import opened Wrappers

  /** The nine health conditions and goals a profile can select. */
  datatype Condition =
    | Prediabetes
    | Diabetes
    | FattyLiver
    | HighCholesterol
    | HighBloodPressure
    | VitaminDDeficiency
    | VitaminB12Deficiency
    | PcosHormonalImbalance
    | WeightLossGoal

  /** The string a condition is stored as. */
  function ConditionKey(c: Condition): string {
    match c
    case Prediabetes => "prediabetes"
    case Diabetes => "diabetes"
    case FattyLiver => "fatty_liver"
    case HighCholesterol => "high_cholesterol"
    case HighBloodPressure => "high_blood_pressure"
    case VitaminDDeficiency => "vitamin_d_deficiency"
    case VitaminB12Deficiency => "vitamin_b12_deficiency"
    case PcosHormonalImbalance => "pcos_hormonal_imbalance"
    case WeightLossGoal => "weight_loss_goal"
  }

  datatype Gender = Male | Female | Other

  datatype Diet = Vegetarian | NonVegetarian | Vegan | Eggetarian

  datatype Activity = Sedentary | Light | Moderate | Active

  /** The ten lab values a report can supply. */
  datatype LabField =
    | Hba1c
    | Glucose
    | Ldl
    | Hdl
    | TotalCholesterol
    | Triglycerides
    | VitaminD
    | VitaminB12
    | Sgpt
    | Sgot

  /** A sparse set of lab values: a field missing from the report is absent. */
  type ReportData = map<LabField, real>

  /**
   * The health profile.  `null` is `None`.  Age, height and weights are
   * integers because the setup form reads them with `parseInt`; sleep hours
   * come from a half-hour slider and may be fractional.
   */
  datatype UserProfile = UserProfile(
    name: string,
    age: Option<int>,
    gender: Option<Gender>,
    conditions: seq<Condition>,
    metrics: ReportData,
    dietaryPreference: Diet,
    allergies: seq<string>,
    weightLossGoal: bool,
    currentWeight: Option<int>,
    targetWeight: Option<int>,
    height: Option<int>,
    bmi: Option<real>,
    waterIntake: Option<int>,
    activityLevel: Option<Activity>,
    sleepHours: Option<real>
  )

  /**
   * `Partial<UserProfile>`: a field that is `Some` is present in the update
   * (for a nullable field the update may itself be `null`).
   */
  datatype ProfilePatch = ProfilePatch(
    name: Option<string>,
    age: Option<Option<int>>,
    gender: Option<Option<Gender>>,
    conditions: Option<seq<Condition>>,
    metrics: Option<ReportData>,
    dietaryPreference: Option<Diet>,
    allergies: Option<seq<string>>,
    weightLossGoal: Option<bool>,
    currentWeight: Option<Option<int>>,
    targetWeight: Option<Option<int>>,
    height: Option<Option<int>>,
    bmi: Option<Option<real>>,
    waterIntake: Option<Option<int>>,
    activityLevel: Option<Option<Activity>>,
    sleepHours: Option<Option<real>>
  )

  /** The update with no field present. */
  const EmptyPatch := ProfilePatch(None, None, None, None, None, None, None, None,
                                   None, None, None, None, None, None, None)

  datatype SugarLevel = LowSugar | ModerateSugar | HighSugar

  datatype CholesterolEffect = Positive | Neutral | Negative

  datatype BloodSugarImpact = BloodSugarImpact(level: SugarLevel, explanation: string, tip: string)

  datatype LiverHealth = LiverHealth(score: int, explanation: string, tip: string)

  datatype CholesterolImpact = CholesterolImpact(effect: CholesterolEffect, explanation: string, tip: string)

  datatype WeightLossAlignment = WeightLossAlignment(percentage: int, explanation: string, tip: string)

  /** The nutrition analysis the external model returns for a meal. */
  datatype FoodAnalysis = FoodAnalysis(
    overallScore: int,
    calories: int,
    protein: int,
    carbs: int,
    fats: int,
    fiber: int,
    bloodSugarImpact: BloodSugarImpact,
    liverHealth: LiverHealth,
    cholesterolImpact: CholesterolImpact,
    weightLossAlignment: WeightLossAlignment,
    smartSuggestions: seq<string>
  )

  datatype MealType = Breakfast | Lunch | Dinner | Snack

  /** A meal in the food log; `timestamp` is an ISO-8601 instant. */
  datatype LoggedMeal = LoggedMeal(
    id: string,
    name: string,
    timestamp: string,
    mealType: MealType,
    analysis: FoodAnalysis
  )

  datatype HealthScore = HealthScore(condition: string, score: int)

  datatype Nutrition = Nutrition(calories: int, protein: int, carbs: int, fats: int)

  datatype Difficulty = Easy | Medium | Hard

  /** A meal idea as the external model returns it, with the term to search an image for. */
  datatype MealIdea = MealIdea(
    name: string,
    imageSearchTerm: string,
    description: string,
    healthScores: seq<HealthScore>,
    nutrition: Nutrition,
    prepTime: string,
    difficulty: Difficulty,
    ingredients: seq<string>,
    recipe: seq<string>,
    whyItsGood: string
  )

  /** A meal idea with every field of the model's object spread in, plus the image URL. */
  datatype MealSuggestion = MealSuggestion(idea: MealIdea, image: string)

  datatype DrinkSuggestion = DrinkSuggestion(
    name: string,
    perfectFor: seq<string>,
    calories: int,
    sugar: string,
    keyNutrients: string,
    whyItWorks: string,
    ingredients: seq<string>,
    prepTime: string,
    bestTime: string,
    recipe: string,
    warnings: string
  )

  datatype Sender = User | Ai

  datatype ChatMessage = ChatMessage(id: string, sender: Sender, text: string, timestamp: string)

  /** An uploaded report file as far as the application looks at it. */
  datatype FileInfo = FileInfo(name: string, size: int, mimeType: string)
}
