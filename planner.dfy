/**
 * The offline plan generator of pages/ai-planner/index.tsx (`mockGeneratePlan`)
 * and the two gates that let the planner form advance.
 */
module Planner {
  import opened Wrappers
  import opened JsText

  /** The planner form; every field is the text the user typed or picked. */
  datatype PlannerForm = PlannerForm(
    name: string,
    age: string,
    gender: string,
    weight: string,
    height: string,
    goal: string,
    activityLevel: string,
    dietPreference: string,
    medicalConditions: string,
    equipment: string)

  datatype Meal = Meal(time: string, name: string, items: seq<string>, calories: int)
  datatype ExerciseItem = ExerciseItem(name: string, sets: string)
  datatype WorkoutDay = WorkoutDay(day: string, workout: string, exercises: seq<ExerciseItem>)
  datatype DietPlan = DietPlan(calories: int, protein: string, carbs: string, fats: string, meals: seq<Meal>)
  datatype WorkoutPlan = WorkoutPlan(daysPerWeek: int, duration: string, schedule: seq<WorkoutDay>)
  datatype GeneratedPlan = GeneratedPlan(diet: DietPlan, workout: WorkoutPlan, tips: seq<string>)

  // ---------------------------------------------------------------------------
  // Calories

  /** `parseInt(weight) || 70`: the weight in kg, 70 when it does not parse or parses to 0. */
  function PlanWeight(form: PlannerForm): (w: int)
    ensures w != 0
    ensures ParseInt(form.weight) == None || ParseInt(form.weight) == Some(0) ==> w == 70
    ensures forall n :: ParseInt(form.weight) == Some(n) && n != 0 ==> w == n
  {
    ParseIntOr(form.weight, 70)
  }

  function BaseCalories(goal: string): (c: int)
    ensures goal == "weight-loss" ==> c == 1600
    ensures goal == "muscle-gain" ==> c == 2500
    ensures goal != "weight-loss" && goal != "muscle-gain" ==> c == 2000
  {
    if goal == "weight-loss" then 1600 else if goal == "muscle-gain" then 2500 else 2000
  }

  /** `Math.round(baseCalories * (weight / 70))`: the base scaled from a 70 kg reference. */
  function AdjustedCalories(base: int, weight: int): (c: int)
    ensures base as real * (weight as real / 70.0) - 0.5 < c as real <= base as real * (weight as real / 70.0) + 0.5
  {
    Round(base as real * (weight as real / 70.0))
  }

  /** At the 70 kg reference weight the calories are exactly the base. */
  lemma ReferenceWeightKeepsBase(base: int)
    ensures AdjustedCalories(base, 70) == base
  {
  }

  /** A heavier user never gets fewer calories. */
  lemma CaloriesMonotone(base: nat, w1: int, w2: int)
    requires w1 <= w2
    ensures AdjustedCalories(base, w1) <= AdjustedCalories(base, w2)
  {
    var x1 := base as real * (w1 as real / 70.0);
    var x2 := base as real * (w2 as real / 70.0);
    assert x2 - x1 == base as real * ((w2 - w1) as real / 70.0);
  }

  /** `Math.round(adjustedCalories * share)`. */
  function MealCalories(adjusted: int, share: real): int {
    Round(adjusted as real * share)
  }

  const MealTimes: seq<string> := ["7:00 AM", "10:30 AM", "1:00 PM", "4:30 PM", "7:30 PM"]
  const MealNames: seq<string> := ["Breakfast", "Mid-Morning Snack", "Lunch", "Evening Snack", "Dinner"]
  /** The share of the day's calories each meal gets, in meal order. */
  const MealShares: seq<real> := [0.25, 0.1, 0.3, 0.1, 0.25]

  function SumMealCalories(meals: seq<Meal>): int {
    if meals == [] then 0 else SumMealCalories(meals[..|meals| - 1]) + meals[|meals| - 1].calories
  }

  // ---------------------------------------------------------------------------
  // Meals

  const VegBreakfast: seq<string> := ["Moong dal chilla (2 pcs)", "Mint chutney", "1 cup green tea", "5 soaked almonds"]
  const EggBreakfast: seq<string> := ["3 Egg white omelette", "2 whole wheat toast", "1 cup milk", "1 banana"]
  const SnackItems: seq<string> := ["1 medium apple", "10 roasted almonds", "Green tea"]
  const VegLunch: seq<string> :=
    ["2 Multigrain roti", "1 cup rajma/chole", "Mixed vegetable sabzi", "Cucumber raita", "Green salad"]
  const ChickenLunch: seq<string> := ["1 cup brown rice", "Grilled chicken (150g)", "Dal tadka", "Salad", "Buttermilk"]
  const VegEvening: seq<string> := ["Sprouts chaat", "Coconut water"]
  const EggEvening: seq<string> := ["Boiled egg (2)", "Green tea"]
  const VegDinner: seq<string> := ["1 Roti", "Palak paneer", "Mixed veg salad", "1 cup dal"]
  const FishDinner: seq<string> := ["2 Roti", "Fish curry", "Sauteed vegetables", "Curd"]

  function BreakfastItems(vegetarian: bool): seq<string> {
    if vegetarian then VegBreakfast else EggBreakfast
  }

  function LunchItems(vegetarian: bool): seq<string> {
    if vegetarian then VegLunch else ChickenLunch
  }

  function EveningItems(vegetarian: bool): seq<string> {
    if vegetarian then VegEvening else EggEvening
  }

  function DinnerItems(vegetarian: bool): seq<string> {
    if vegetarian then VegDinner else FishDinner
  }

  function Meals(adjusted: int, vegetarian: bool): (ms: seq<Meal>)
    ensures |ms| == 5
    ensures forall i :: 0 <= i < 5 ==>
      ms[i].time == MealTimes[i] && ms[i].name == MealNames[i] && ms[i].calories == Round(adjusted as real * MealShares[i])
    ensures ms[0].items == BreakfastItems(vegetarian) && ms[1].items == SnackItems && ms[2].items == LunchItems(vegetarian)
      && ms[3].items == EveningItems(vegetarian) && ms[4].items == DinnerItems(vegetarian)
  {
    [ Meal(MealTimes[0], MealNames[0], BreakfastItems(vegetarian), MealCalories(adjusted, MealShares[0])),
      Meal(MealTimes[1], MealNames[1], SnackItems, MealCalories(adjusted, MealShares[1])),
      Meal(MealTimes[2], MealNames[2], LunchItems(vegetarian), MealCalories(adjusted, MealShares[2])),
      Meal(MealTimes[3], MealNames[3], EveningItems(vegetarian), MealCalories(adjusted, MealShares[3])),
      Meal(MealTimes[4], MealNames[4], DinnerItems(vegetarian), MealCalories(adjusted, MealShares[4])) ]
  }

  /** The meals' calories add up to the day's total give or take the rounding of each meal. */
  lemma MealsAddUp(adjusted: int, vegetarian: bool)
    ensures adjusted - 2 <= SumMealCalories(Meals(adjusted, vegetarian)) <= adjusted + 2
  {
    var ms := Meals(adjusted, vegetarian);
    assert ms[..1][..0] == [];
    assert SumMealCalories(ms[..1]) == ms[0].calories;
    assert ms[..2][..1] == ms[..1];
    assert SumMealCalories(ms[..2]) == SumMealCalories(ms[..1]) + ms[1].calories;
    assert ms[..3][..2] == ms[..2];
    assert SumMealCalories(ms[..3]) == SumMealCalories(ms[..2]) + ms[2].calories;
    assert ms[..4][..3] == ms[..3];
    assert SumMealCalories(ms[..4]) == SumMealCalories(ms[..3]) + ms[3].calories;
    assert ms[..5] == ms && ms[..5][..4] == ms[..4];
    assert SumMealCalories(ms) == ms[0].calories + ms[1].calories + ms[2].calories + ms[3].calories + ms[4].calories;
    assert MealShares[0] + MealShares[1] + MealShares[2] + MealShares[3] + MealShares[4] == 1.0;
  }

  // ---------------------------------------------------------------------------
  // Workout

  /** 3 training days for "sedentary", 5 for "moderate", 6 for anything else. */
  function DaysPerWeek(activityLevel: string): (d: int)
    ensures activityLevel == "sedentary" ==> d == 3
    ensures activityLevel == "moderate" ==> d == 5
    ensures activityLevel != "sedentary" && activityLevel != "moderate" ==> d == 6
  {
    if activityLevel == "sedentary" then 3 else if activityLevel == "moderate" then 5 else 6
  }

  const WeekDays: seq<string> := ["Monday", "Tuesday", "Wednesday", "Thursday", "Friday", "Saturday", "Sunday"]

  const UpperBody: seq<ExerciseItem> :=
    [ ExerciseItem("Push-ups", "4 x 15"), ExerciseItem("Dumbbell Shoulder Press", "4 x 12"),
      ExerciseItem("Bent Over Rows", "4 x 12"), ExerciseItem("Bicep Curls", "3 x 15"),
      ExerciseItem("Tricep Dips", "3 x 12") ]
  const FullBody: seq<ExerciseItem> :=
    [ ExerciseItem("Jumping Jacks", "3 x 30 sec"), ExerciseItem("Squats", "3 x 15"),
      ExerciseItem("Push-ups", "3 x 10"), ExerciseItem("Lunges", "3 x 12 each"),
      ExerciseItem("Plank", "3 x 30 sec") ]
  const Yoga: seq<ExerciseItem> :=
    [ ExerciseItem("Surya Namaskar", "5 rounds"), ExerciseItem("Warrior Poses", "Hold 30 sec each"),
      ExerciseItem("Triangle Pose", "Hold 30 sec each side"), ExerciseItem("Seated Forward Bend", "Hold 1 min"),
      ExerciseItem("Savasana", "5 mins") ]
  const LowerBody: seq<ExerciseItem> :=
    [ ExerciseItem("Squats", "4 x 15"), ExerciseItem("Lunges", "4 x 12 each"),
      ExerciseItem("Romanian Deadlifts", "4 x 12"), ExerciseItem("Calf Raises", "4 x 20"),
      ExerciseItem("Glute Bridges", "3 x 15") ]
  const Hiit: seq<ExerciseItem> :=
    [ ExerciseItem("High Knees", "30 sec on, 15 sec off x 4"), ExerciseItem("Burpees", "30 sec on, 15 sec off x 4"),
      ExerciseItem("Mountain Climbers", "30 sec on, 15 sec off x 4"),
      ExerciseItem("Squat Jumps", "30 sec on, 15 sec off x 4") ]
  const Recovery: seq<ExerciseItem> :=
    [ ExerciseItem("Light Walking", "20 mins"), ExerciseItem("Stretching Routine", "15 mins"),
      ExerciseItem("Pranayama (Breathing)", "10 mins") ]
  const Strength: seq<ExerciseItem> :=
    [ ExerciseItem("Push-ups variations", "4 x 12"), ExerciseItem("Shoulder Press", "4 x 10"),
      ExerciseItem("Chest Flyes", "3 x 12"), ExerciseItem("Lateral Raises", "3 x 12"),
      ExerciseItem("Core Circuit", "3 rounds") ]
  const MixedCardio: seq<ExerciseItem> :=
    [ ExerciseItem("Brisk Walking/Jogging", "20 mins"), ExerciseItem("Cycling/Spot Jogging", "15 mins"),
      ExerciseItem("Cool Down Stretches", "10 mins") ]
  const Rest: seq<ExerciseItem> := [ExerciseItem("Complete rest or light stretching", "Optional")]

  /** The week: Monday, Wednesday and Friday's session names and Monday and Wednesday's exercises follow the goal. */
  function Schedule(muscleGain: bool): (days: seq<WorkoutDay>)
    ensures |days| == 7
    ensures forall i :: 0 <= i < 7 ==> days[i].day == WeekDays[i]
  {
    [ WorkoutDay(WeekDays[0], if muscleGain then "Upper Body Strength" else "Full Body + Cardio",
                 if muscleGain then UpperBody else FullBody),
      WorkoutDay(WeekDays[1], "Yoga & Flexibility", Yoga),
      WorkoutDay(WeekDays[2], if muscleGain then "Lower Body Strength" else "Cardio HIIT",
                 if muscleGain then LowerBody else Hiit),
      WorkoutDay(WeekDays[3], "Active Recovery", Recovery),
      WorkoutDay(WeekDays[4], if muscleGain then "Push Day" else "Strength Training", Strength),
      WorkoutDay(WeekDays[5], "Mixed Cardio", MixedCardio),
      WorkoutDay(WeekDays[6], "Rest Day", Rest) ]
  }

  // ---------------------------------------------------------------------------
  // Tips

  /** The water tip: `Math.round(weight * 0.033)` litres, as the template literal renders it. */
  function WaterTip(weight: int): string {
    "Drink at least " + IntToString(Round(weight as real * 0.033)) + " liters of water daily"
  }

  const DinnerTip := "Eat your dinner at least 2-3 hours before sleeping"
  const SleepTip := "Get 7-8 hours of quality sleep every night"
  const WeightLossTip := "Avoid sugary drinks and processed foods"
  const ProteinTip := "Include a protein source in every meal"
  const TrackTip := "Track your progress weekly - measurements and photos work better than just weight"
  const RestTip := "Listen to your body - rest when needed, push when you can"

  function Tips(weight: int, weightLoss: bool): (tips: seq<string>)
    ensures |tips| == 6 && tips[0] == WaterTip(weight)
  {
    [WaterTip(weight), DinnerTip, SleepTip, if weightLoss then WeightLossTip else ProteinTip, TrackTip, RestTip]
  }

  // ---------------------------------------------------------------------------
  // mockGeneratePlan

  /**
   * The `diet` part of the plan: the goal's base calories scaled to the
   * weight, five meals adding up to them give or take rounding, protein
   * raised exactly for muscle gain and carbs lowered exactly for weight loss.
   */
  function DietFor(data: PlannerForm): (d: DietPlan)
    ensures var exact := BaseCalories(data.goal) as real * (PlanWeight(data) as real / 70.0);
      exact - 0.5 < d.calories as real <= exact + 0.5
    ensures |d.meals| == 5
    ensures forall i :: 0 <= i < 5 ==> d.meals[i].time == MealTimes[i] && d.meals[i].name == MealNames[i]
    ensures d.calories - 2 <= SumMealCalories(d.meals) <= d.calories + 2
    ensures d.protein == "120-150g" <==> data.goal == "muscle-gain"
    ensures d.protein == "60-80g" <==> data.goal != "muscle-gain"
    ensures d.carbs == "150-180g" <==> data.goal == "weight-loss"
    ensures d.carbs == "200-250g" <==> data.goal != "weight-loss"
    ensures d.fats == "50-70g"
  {
    var adjusted := AdjustedCalories(BaseCalories(data.goal), PlanWeight(data));
    MealsAddUp(adjusted, data.dietPreference == "vegetarian");
    DietPlan(adjusted,
             if data.goal == "muscle-gain" then "120-150g" else "60-80g",
             if data.goal == "weight-loss" then "150-180g" else "200-250g",
             "50-70g",
             Meals(adjusted, data.dietPreference == "vegetarian"))
  }

  /**
   * The `workout` part of the plan: 3, 5 or 6 days a week by activity level,
   * a Monday-to-Sunday schedule whose Tuesday, Thursday, Saturday and Sunday
   * do not depend on the goal, and Sunday a rest day.
   */
  function WorkoutFor(data: PlannerForm): (w: WorkoutPlan)
    ensures w.daysPerWeek == 3 <==> data.activityLevel == "sedentary"
    ensures w.daysPerWeek == 5 <==> data.activityLevel == "moderate"
    ensures w.daysPerWeek == 6 <==> data.activityLevel != "sedentary" && data.activityLevel != "moderate"
    ensures w.duration == "45-60 minutes"
    ensures |w.schedule| == 7
    ensures forall i :: 0 <= i < 7 ==> w.schedule[i].day == WeekDays[i]
    ensures forall i :: 0 <= i < 7 && (i % 2 == 1 || i == 6) ==> w.schedule[i] == Schedule(true)[i] == Schedule(false)[i]
    ensures w.schedule[0].workout == "Upper Body Strength" <==> data.goal == "muscle-gain"
    ensures w.schedule[6].exercises == Rest
  {
    WorkoutPlan(DaysPerWeek(data.activityLevel), "45-60 minutes", Schedule(data.goal == "muscle-gain"))
  }

  function MockGeneratePlan(data: PlannerForm): (plan: GeneratedPlan)
    ensures plan.diet == DietFor(data) && plan.workout == WorkoutFor(data)
    ensures |plan.diet.meals| == 5
    ensures |plan.workout.schedule| == 7
    ensures |plan.tips| == 6
    ensures plan.tips[0] == WaterTip(PlanWeight(data))
  {
    GeneratedPlan(DietFor(data), WorkoutFor(data), Tips(PlanWeight(data), data.goal == "weight-loss"))
  }

  /** Protein is raised exactly for "muscle-gain" and carbs lowered exactly for "weight-loss". */
  lemma MacrosFollowGoal(data: PlannerForm)
    ensures MockGeneratePlan(data).diet.protein == "120-150g" <==> data.goal == "muscle-gain"
    ensures MockGeneratePlan(data).diet.carbs == "150-180g" <==> data.goal == "weight-loss"
  {
  }

  /** The vegetarian preference and only it selects the vegetarian lists of the four main meals. */
  lemma VegetarianMeals(data: PlannerForm)
    ensures var ms := MockGeneratePlan(data).diet.meals;
      (data.dietPreference == "vegetarian" <==> ms[0].items == BreakfastItems(true))
      && (data.dietPreference == "vegetarian" <==> ms[2].items == LunchItems(true))
      && (data.dietPreference == "vegetarian" <==> ms[3].items == EveningItems(true))
      && (data.dietPreference == "vegetarian" <==> ms[4].items == DinnerItems(true))
  {
    assert BreakfastItems(true)[0] != BreakfastItems(false)[0];
    assert LunchItems(true)[0] != LunchItems(false)[0];
    assert EveningItems(true)[0] != EveningItems(false)[0];
    assert DinnerItems(true)[0] != DinnerItems(false)[0];
  }

  /** An unusable weight plans as 70 kg: the calories are the goal's base and the water tip says 2 litres. */
  lemma DefaultWeightPlan(data: PlannerForm)
    requires ParseInt(data.weight) == None || ParseInt(data.weight) == Some(0)
    ensures MockGeneratePlan(data).diet.calories == BaseCalories(data.goal)
    ensures MockGeneratePlan(data).tips[0] == WaterTip(70)
  {
    ReferenceWeightKeepsBase(BaseCalories(data.goal));
  }

  /** 70 * 0.033 = 2.31 litres, rounded to 2. */
  lemma WaterTipAtReferenceWeight()
    ensures WaterTip(70) == "Drink at least 2 liters of water daily"
  {
    assert Round(70 as real * 0.033) == 2;
    assert IntToString(2) == "2";
  }

  /** "80" kg with "weight-loss": 1600 * 80 / 70 = 1828.57..., rounded to 1829. */
  lemma WeightLossExample(data: PlannerForm)
    requires data.weight == "80" && data.goal == "weight-loss"
    ensures MockGeneratePlan(data).diet.calories == 1829
  {
    EightyParses();
    WeightLossAt80();
  }

  /** The weight text "80" reads as 80 kg. */
  lemma EightyParses()
    ensures ParseIntOr("80", 70) == 80
  {
    assert NatDigits(8) == ['8'];
    assert NatDigits(80) == NatDigits(8) + [DigitChar(0)];
    assert IntToString(80) == "80";
    ParseIntOrRoundTrip(80, 70);
  }

  /** 1600 kcal scaled to 80 kg rounds to 1829. */
  lemma WeightLossAt80()
    ensures AdjustedCalories(1600, 80) == 1829
  {
    var x := 1600 as real * (80 as real / 70.0);
    assert 1828.5 < x < 1829.0;
  }

  // ---------------------------------------------------------------------------
  // Step gates

  /** Step 1 may proceed when name, age, gender, weight and height are all filled in. */
  predicate CanProceedStep1(form: PlannerForm) {
    form.name != "" && form.age != "" && form.gender != "" && form.weight != "" && form.height != ""
  }

  /** Step 2 may proceed when goal, activity level and diet preference are all filled in. */
  predicate CanProceedStep2(form: PlannerForm) {
    form.goal != "" && form.activityLevel != "" && form.dietPreference != ""
  }

  /** The gates look at disjoint fields and never at the two optional ones. */
  lemma GatesIgnoreOtherFields(form: PlannerForm, goal: string, activityLevel: string, dietPreference: string,
                               medicalConditions: string, equipment: string, name: string,
                               age: string, gender: string, weight: string, height: string)
    ensures CanProceedStep1(form.(goal := goal, activityLevel := activityLevel, dietPreference := dietPreference,
                                  medicalConditions := medicalConditions, equipment := equipment))
            == CanProceedStep1(form)
    ensures CanProceedStep2(form.(name := name, age := age, gender := gender, weight := weight, height := height,
                                  medicalConditions := medicalConditions, equipment := equipment))
            == CanProceedStep2(form)
  {
  }

  /** The empty form passes neither gate; filling the required fields opens both. */
  lemma GatesOnEmptyForm(form: PlannerForm)
    requires form == PlannerForm("", "", "", "", "", "", "", "", "", "")
    ensures !CanProceedStep1(form) && !CanProceedStep2(form)
    ensures CanProceedStep1(form.(name := "A", age := "30", gender := "male", weight := "70", height := "170"))
    ensures CanProceedStep2(form.(goal := "maintenance", activityLevel := "moderate", dietPreference := "vegetarian"))
  {
  }
}
