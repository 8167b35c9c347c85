/**
 * The meal-plan response records (backend/app/models_mealplan.py) and their field
 * constraints: item weights are positive, every macro figure of a meal and of a
 * day's totals is non-negative. Nothing else is constrained.
 */
module MealPlanModels {
  import opened Outcomes

  datatype MealItem = MealItem(name: string, grams: real, notes: Option<string>) {
    predicate Valid() {
      grams > 0.0
    }
  }

  datatype Meal = Meal(
    mealName: string,
    items: seq<MealItem>,
    proteinG: real,
    fatG: real,
    netCarbsG: real,
    calories: real)
  {
    predicate MacrosNonNegative() {
      proteinG >= 0.0 && fatG >= 0.0 && netCarbsG >= 0.0 && calories >= 0.0
    }

    predicate Valid() {
      MacrosNonNegative() && forall i :: 0 <= i < |items| ==> items[i].Valid()
    }
  }

  /** A day's plan; `totals` is itself a Meal, so the same constraints apply to it. */
  datatype DayPlan = DayPlan(day: int, meals: seq<Meal>, totals: Meal) {
    predicate Valid() {
      totals.Valid() && forall i :: 0 <= i < |meals| ==> meals[i].Valid()
    }
  }

  datatype MealPlanResponse = MealPlanResponse(
    days: seq<DayPlan>,
    shoppingList: seq<string>,
    assumptions: seq<string>)
  {
    predicate Valid() {
      forall i :: 0 <= i < |days| ==> days[i].Valid()
    }
  }

  /** Every Meal record of a day: its meals followed by its totals. */
  function DayMeals(d: DayPlan): seq<Meal> {
    d.meals + [d.totals]
  }

  /** Every Meal record of a plan, day by day. */
  function AllMeals(days: seq<DayPlan>): (r: seq<Meal>)
  {
    if days == [] then [] else DayMeals(days[0]) + AllMeals(days[1..])
  }

  /** Every item of every Meal record of a plan. */
  function AllItems(meals: seq<Meal>): seq<MealItem>
  {
    if meals == [] then [] else meals[0].items + AllItems(meals[1..])
  }

  lemma {:induction false} InAllMeals(days: seq<DayPlan>, m: Meal)
    ensures m in AllMeals(days) <==> exists i :: 0 <= i < |days| && m in DayMeals(days[i])
  {
    if days != [] {
      InAllMeals(days[1..], m);
      assert forall i :: 1 <= i < |days| ==> days[i] == days[1..][i - 1];
    }
  }

  lemma {:induction false} InAllItems(meals: seq<Meal>, it: MealItem)
    ensures it in AllItems(meals) <==> exists i :: 0 <= i < |meals| && it in meals[i].items
  {
    if meals != [] {
      InAllItems(meals[1..], it);
      assert forall i :: 1 <= i < |meals| ==> meals[i] == meals[1..][i - 1];
    }
  }

  /**
   * A plan is valid exactly when every Meal record in it (meals and totals alike) has
   * non-negative macros and every item anywhere in it has a positive weight.
   */
  lemma ValidIffAllRecordsValid(p: MealPlanResponse)
    ensures p.Valid() <==>
      (forall m :: m in AllMeals(p.days) ==> m.MacrosNonNegative()) &&
      (forall it :: it in AllItems(AllMeals(p.days)) ==> it.Valid())
  {
    var ms := AllMeals(p.days);
    forall m | m in ms
      ensures exists i :: 0 <= i < |p.days| && m in DayMeals(p.days[i])
    {
      InAllMeals(p.days, m);
    }
    forall it | it in AllItems(ms)
      ensures exists i :: 0 <= i < |ms| && it in ms[i].items
    {
      InAllItems(ms, it);
    }
    if p.Valid() {
      forall m | m in ms
        ensures m.Valid()
      {
        var i :| 0 <= i < |p.days| && m in DayMeals(p.days[i]);
        assert p.days[i].Valid();
      }
      forall it | it in AllItems(ms)
        ensures it.Valid()
      {
        var i :| 0 <= i < |ms| && it in ms[i].items;
        assert ms[i] in ms && ms[i].Valid();
        var k :| 0 <= k < |ms[i].items| && ms[i].items[k] == it;
      }
    } else {
      var i :| 0 <= i < |p.days| && !p.days[i].Valid();
      var d := p.days[i];
      var bad: Meal;
      if !d.totals.Valid() {
        bad := d.totals;
        assert DayMeals(d)[|d.meals|] == bad;
      } else {
        var j :| 0 <= j < |d.meals| && !d.meals[j].Valid();
        bad := d.meals[j];
        assert DayMeals(d)[j] == bad;
      }
      InAllMeals(p.days, bad);
      assert bad in ms;
      if bad.MacrosNonNegative() {
        assert !(forall k :: 0 <= k < |bad.items| ==> bad.items[k].Valid());
        var k :| 0 <= k < |bad.items| && !bad.items[k].Valid();
        var j :| 0 <= j < |ms| && ms[j] == bad;
        InAllItems(ms, bad.items[k]);
      }
    }
  }

  /** The totals of every day of a valid plan are non-negative. */
  lemma ValidPlanTotalsNonNegative(p: MealPlanResponse, i: int)
    requires p.Valid() && 0 <= i < |p.days|
    ensures p.days[i].totals.MacrosNonNegative()
  {
  }

  function SumCalories(meals: seq<Meal>): real {
    if meals == [] then 0.0 else meals[0].calories + SumCalories(meals[1..])
  }

  /** The example plan embedded in the generation prompt (SCHEMA_EXAMPLE), as a record. */
  function SchemaExamplePlan(): MealPlanResponse {
    MealPlanResponse(
      [DayPlan(1,
               [Meal("lunch", [MealItem("chicken breast", 200.0, Some("grilled"))], 0.0, 0.0, 0.0, 0.0)],
               Meal("totals", [], 0.0, 0.0, 0.0, 0.0))],
      ["..."],
      ["..."])
  }

  lemma SchemaExamplePlanIsValid()
    ensures SchemaExamplePlan().Valid()
  {
  }

  /**
   * The schema leaves day totals, day numbering, meals per day and the two lists
   * unconstrained: this plan is valid although its only day is numbered 0, has no
   * meal at all, and claims 2000 kcal of totals that no meal accounts for.
   */
  lemma SchemaDoesNotReconcile()
    ensures var p := MealPlanResponse([DayPlan(0, [], Meal("totals", [], 150.0, 150.0, 20.0, 2000.0))], [], []);
      p.Valid() && p.days[0].totals.calories != SumCalories(p.days[0].meals) &&
      p.days[0].day != 1 && |p.days[0].meals| == 0 && p.shoppingList == [] && p.assumptions == []
  {
  }
}
