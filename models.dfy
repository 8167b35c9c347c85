/**
 * The request and response records of the calculator (backend/app/models.py):
 * four string-valued enumerations, the user's input with its field bounds and
 * defaults, and the calculation output.
 */
module Models {
  import opened Outcomes

  datatype UnitSystem = Metric | Imperial {
    /** The enumeration's string value, as it appears in a request body. */
    function Value(): string {
      match this
      case Metric => "metric"
      case Imperial => "imperial"
    }
  }

  datatype Sex = Male | Female {
    function Value(): string {
      match this
      case Male => "male"
      case Female => "female"
    }
  }

  datatype Goal = Lose | Maintain | Gain {
    function Value(): string {
      match this
      case Lose => "lose"
      case Maintain => "maintain"
      case Gain => "gain"
    }
  }

  datatype ActivityLevel = Sedentary | Light | Moderate | Very | Athlete {
    function Value(): string {
      match this
      case Sedentary => "sedentary"
      case Light => "light"
      case Moderate => "moderate"
      case Very => "very"
      case Athlete => "athlete"
    }
  }

  const AllUnitSystems: seq<UnitSystem> := [Metric, Imperial]
  const AllSexes: seq<Sex> := [Male, Female]
  const AllGoals: seq<Goal> := [Lose, Maintain, Gain]
  const AllActivityLevels: seq<ActivityLevel> := [Sedentary, Light, Moderate, Very, Athlete]

  /** The member of an enumeration whose value is `s`, if any (how a request string is read). */
  function ParseUnitSystem(s: string): (r: Option<UnitSystem>)
    ensures forall u: UnitSystem :: r == Some(u) <==> u.Value() == s
  {
    if s == "metric" then Some(Metric) else if s == "imperial" then Some(Imperial) else None
  }

  function ParseSex(s: string): (r: Option<Sex>)
    ensures forall x: Sex :: r == Some(x) <==> x.Value() == s
  {
    if s == "male" then Some(Male) else if s == "female" then Some(Female) else None
  }

  function ParseGoal(s: string): (r: Option<Goal>)
    ensures forall g: Goal :: r == Some(g) <==> g.Value() == s
  {
    if s == "lose" then Some(Lose)
    else if s == "maintain" then Some(Maintain)
    else if s == "gain" then Some(Gain)
    else None
  }

  function ParseActivityLevel(s: string): (r: Option<ActivityLevel>)
    ensures forall a: ActivityLevel :: r == Some(a) <==> a.Value() == s
  {
    if s == "sedentary" then Some(Sedentary)
    else if s == "light" then Some(Light)
    else if s == "moderate" then Some(Moderate)
    else if s == "very" then Some(Very)
    else if s == "athlete" then Some(Athlete)
    else None
  }

  /** The enumerations have exactly 2, 2, 3 and 5 members, with pairwise distinct values. */
  lemma EnumerationSizes()
    ensures |AllUnitSystems| == 2 && forall u: UnitSystem :: u in AllUnitSystems
    ensures |AllSexes| == 2 && forall x: Sex :: x in AllSexes
    ensures |AllGoals| == 3 && forall g: Goal :: g in AllGoals
    ensures |AllActivityLevels| == 5 && forall a: ActivityLevel :: a in AllActivityLevels
    ensures forall i, j :: 0 <= i < j < |AllActivityLevels| ==>
      AllActivityLevels[i].Value() != AllActivityLevels[j].Value()
    ensures forall i, j :: 0 <= i < j < |AllGoals| ==> AllGoals[i].Value() != AllGoals[j].Value()
  {
    forall u: UnitSystem
      ensures u in AllUnitSystems
    {
      match u
      case Metric => assert AllUnitSystems[0] == u;
      case Imperial => assert AllUnitSystems[1] == u;
    }
    forall x: Sex
      ensures x in AllSexes
    {
      match x
      case Male => assert AllSexes[0] == x;
      case Female => assert AllSexes[1] == x;
    }
    forall g: Goal
      ensures g in AllGoals
    {
      match g
      case Lose => assert AllGoals[0] == g;
      case Maintain => assert AllGoals[1] == g;
      case Gain => assert AllGoals[2] == g;
    }
    forall a: ActivityLevel
      ensures a in AllActivityLevels
    {
      match a
      case Sedentary => assert AllActivityLevels[0] == a;
      case Light => assert AllActivityLevels[1] == a;
      case Moderate => assert AllActivityLevels[2] == a;
      case Very => assert AllActivityLevels[3] == a;
      case Athlete => assert AllActivityLevels[4] == a;
    }
  }

  datatype Macros = Macros(caloriesTotal: real, proteinG: real, fatG: real, netCarbsG: real)

  datatype ForecastPoint = ForecastPoint(week: int, weightKg: real)

  datatype DietaryPreferences = DietaryPreferences(kosher: bool, halal: bool, vegan: bool, vegetarian: bool)

  /** The default dietary preferences: no restriction at all. */
  function DefaultDietaryPreferences(): (d: DietaryPreferences)
    ensures !d.kosher && !d.halal && !d.vegan && !d.vegetarian
  {
    DietaryPreferences(false, false, false, false)
  }

  datatype MealPlanPreferences = MealPlanPreferences(mealsPerDay: int, days: int) {
    /** 1 meal (OMAD) to 6 meals a day, for 1 to 7 days. */
    predicate Valid() {
      1 <= mealsPerDay <= 6 && 1 <= days <= 7
    }
  }

  function DefaultMealPlanPreferences(): (m: MealPlanPreferences)
    ensures m.Valid() && m.mealsPerDay == 3 && m.days == 1
  {
    MealPlanPreferences(3, 1)
  }

  /** A field declared `float | None = Field(default=None, gt=0)`. */
  predicate PositiveIfPresent(x: Option<real>) {
    x.None? || x.value > 0.0
  }

  datatype UserInput = UserInput(
    unitSystem: UnitSystem,
    sex: Sex,
    ageYears: int,
    goal: Goal,
    heightCm: Option<real>,
    weightKg: Option<real>,
    heightIn: Option<real>,
    weightLb: Option<real>,
    activityLevel: ActivityLevel,
    netCarbsG: real,
    proteinGPerKg: real,
    dietary: DietaryPreferences,
    mealplan: MealPlanPreferences)
  {
    /** The field constraints checked when a request body is read into a UserInput. */
    predicate Valid() {
      && 10 <= ageYears <= 100
      && PositiveIfPresent(heightCm) && PositiveIfPresent(weightKg)
      && PositiveIfPresent(heightIn) && PositiveIfPresent(weightLb)
      && 0.0 <= netCarbsG <= 100.0
      && 0.5 <= proteinGPerKg <= 4.0
      && mealplan.Valid()
    }
  }

  /**
   * A UserInput given only its required fields (sex, age, activity level): every
   * other field takes its declared default.
   */
  function NewUserInput(sex: Sex, ageYears: int, activityLevel: ActivityLevel): (u: UserInput)
    ensures u.Valid() <==> 10 <= ageYears <= 100
    ensures u.sex == sex && u.ageYears == ageYears && u.activityLevel == activityLevel
    ensures u.unitSystem == Metric && u.goal == Maintain
    ensures u.heightCm.None? && u.weightKg.None? && u.heightIn.None? && u.weightLb.None?
    ensures u.netCarbsG == 25.0 && u.proteinGPerKg == 1.8
    ensures u.dietary == DefaultDietaryPreferences() && u.mealplan == DefaultMealPlanPreferences()
  {
    UserInput(Metric, sex, ageYears, Maintain, None, None, None, None, activityLevel,
              25.0, 1.8, DefaultDietaryPreferences(), DefaultMealPlanPreferences())
  }

  /** The schema accepts ages 10 to 17; the adult-only rule is not part of it. */
  lemma MinorIsAValidInput(sex: Sex, ageYears: int, activityLevel: ActivityLevel)
    requires 10 <= ageYears <= 17
    ensures NewUserInput(sex, ageYears, activityLevel).Valid()
    ensures !NewUserInput(sex, 9, activityLevel).Valid() && !NewUserInput(sex, 101, activityLevel).Valid()
  {
  }

  datatype CalcOutput = CalcOutput(
    bmi: real,
    bmr: real,
    tdee: real,
    bodyFatPercentEstimate: Option<real>,
    ffmi: Option<real>,
    macros: Macros,
    forecast: seq<ForecastPoint>)
}
