/**
 * The user store of lib/supabase.ts: the row written for a planner user (with
 * its coercions and the BMI guard) and the summary computed from the users
 * read back, newest first. The database calls themselves are parameters.
 */
module UserStore {
  import opened Wrappers
  import opened JsText
  import opened JsArray
  import opened Tally
  import opened Statistics

  /** The planner data handed to `saveUserToSupabase`; the two optional texts may be missing. */
  datatype UserInput = UserInput(
    name: string,
    age: string,
    gender: string,
    weight: string,
    height: string,
    goal: string,
    activityLevel: string,
    dietPreference: string,
    medicalConditions: Option<string>,
    equipment: Option<string>,
    planCalories: int,
    planWorkoutDays: int)

  /** One row of the `yoga_users` table as inserted. */
  datatype UserRow = UserRow(
    name: string,
    age: int,
    gender: string,
    weight: real,
    height: real,
    bmi: real,
    goal: string,
    activityLevel: string,
    dietPreference: string,
    medicalConditions: string,
    equipment: string,
    planCalories: int,
    planWorkoutDays: int)

  /** The body-mass index to one decimal place; 0 unless the height is positive. */
  function Bmi(weight: real, height: real): (r: real)
    ensures height <= 0.0 ==> r == 0.0
    ensures height > 0.0 ==>
      var exact := weight / ((height / 100.0) * (height / 100.0));
      exact - 0.05 < r <= exact + 0.05
    ensures OnTenths(r)
  {
    if height > 0.0 then RoundTenth(weight / ((height / 100.0) * (height / 100.0))) else 0.0
  }

  /** 70 kg at 175 cm: 70 / 1.75^2 is about 22.857, stored as 22.9. */
  lemma BmiExample()
    ensures Bmi(70.0, 175.0) == 22.9
  {
    assert 70.0 / ((175.0 / 100.0) * (175.0 / 100.0)) == 70.0 / 3.0625;
    assert 228.5 <= (70.0 / 3.0625) * 10.0 + 0.5 < 230.0;
    assert Round((70.0 / 3.0625) * 10.0) == 229;
  }

  /** `text || ""` on an optional text. */
  function TextOrEmpty(t: Option<string>): (r: string)
    ensures t == None ==> r == ""
    ensures t.Some? ==> r == t.value
  {
    t.GetOr("")
  }

  /** The row `saveUserToSupabase` inserts. */
  function BuildUserRow(input: UserInput): (row: UserRow)
    ensures row.age == ParseIntOr(input.age, 0)
    ensures ParseInt(input.age) == None ==> row.age == 0
    ensures row.weight == FloatOrZero(input.weight) && row.height == FloatOrZero(input.height)
    ensures row.height <= 0.0 ==> row.bmi == 0.0
    ensures row.bmi == Bmi(row.weight, row.height)
    ensures input.medicalConditions == None ==> row.medicalConditions == ""
    ensures input.equipment == None ==> row.equipment == ""
    ensures row.name == input.name && row.gender == input.gender && row.goal == input.goal
    ensures row.activityLevel == input.activityLevel && row.dietPreference == input.dietPreference
    ensures row.planCalories == input.planCalories && row.planWorkoutDays == input.planWorkoutDays
  {
    var weight := FloatOrZero(input.weight);
    var height := FloatOrZero(input.height);
    UserRow(
      name := input.name,
      age := ParseIntOr(input.age, 0),
      gender := input.gender,
      weight := weight,
      height := height,
      bmi := Bmi(weight, height),
      goal := input.goal,
      activityLevel := input.activityLevel,
      dietPreference := input.dietPreference,
      medicalConditions := TextOrEmpty(input.medicalConditions),
      equipment := TextOrEmpty(input.equipment),
      planCalories := input.planCalories,
      planWorkoutDays := input.planWorkoutDays)
  }

  /** What the database answers to an insert: the new row's id (if any) or an error message. */
  datatype InsertReply = Inserted(id: Option<string>) | Failed(message: string)

  /** `{ success, userId?, error? }`. */
  datatype SaveResult = SaveResult(success: bool, userId: Option<string>, error: Option<string>)

  /** `saveUserToSupabase`, with the database insert as the function `insert`. */
  function SaveUser(input: UserInput, insert: UserRow -> InsertReply): (r: SaveResult)
    ensures r.success <==> insert(BuildUserRow(input)).Inserted?
    ensures insert(BuildUserRow(input)).Failed? ==>
      r.userId == None && r.error == Some(insert(BuildUserRow(input)).message)
    ensures insert(BuildUserRow(input)).Inserted? ==>
      r.userId == insert(BuildUserRow(input)).id && r.error == None
  {
    match insert(BuildUserRow(input))
    case Failed(message) => SaveResult(false, None, Some(message))
    case Inserted(id) => SaveResult(true, id, None)
  }

  // ---------------------------------------------------------------------------
  // getUserStatsFromSupabase

  /** A row read back from `yoga_users`; the gender column may be null. */
  datatype StoredUser = StoredUser(
    name: string,
    age: int,
    gender: Option<string>,
    bmi: real,
    goal: string,
    dietPreference: string,
    planCalories: int,
    createdAt: string)

  datatype RecentUser = RecentUser(name: string, goal: string, createdAt: string)
  datatype GenderCount = GenderCount(male: nat, female: nat)
  datatype UserAggregates = UserAggregates(
    averageAge: real,
    averageBmi: real,
    averageCalories: real,
    goalDistribution: seq<Entry>,
    dietDistribution: seq<Entry>,
    genderSplit: GenderCount)

  /** The summary; `NoStats` is the `stats: null` answer. */
  datatype UserStats =
    | NoStats(totalUsers: int)
    | Stats(totalUsers: int, lastUser: string, stats: UserAggregates, recentUsers: seq<RecentUser>)

  function UserGoal(u: StoredUser): string { u.goal }
  function UserDiet(u: StoredUser): string { u.dietPreference }
  function UserAge(u: StoredUser): real { u.age as real }
  function UserBmi(u: StoredUser): real { u.bmi }
  function UserCalories(u: StoredUser): real { u.planCalories as real }

  /** `u.gender?.toLowerCase().startsWith(initial)`. */
  predicate GenderStartsWith(u: StoredUser, initial: char) {
    u.gender.Some? && StartsWith(ToLower(u.gender.value), [initial])
  }

  function IsMale(u: StoredUser): bool { GenderStartsWith(u, 'm') }
  function IsFemale(u: StoredUser): bool { GenderStartsWith(u, 'f') }

  function Recent(u: StoredUser): RecentUser { RecentUser(u.name, u.goal, u.createdAt) }

  /** `n || d` on an optional number. */
  function NumberOr(n: Option<int>, d: int): (r: int)
    ensures n == None || n == Some(0) ==> r == d
    ensures n.Some? && n.value != 0 ==> r == n.value
  {
    if n.Some? && n.value != 0 then n.value else d
  }

  /**
   * `getUserStatsFromSupabase`: `count` is the exact row count, `users` the
   * rows newest first (`None` for a null list) and `failed` whether the read
   * reported an error.
   */
  method GetUserStats(count: Option<int>, users: Option<seq<StoredUser>>, failed: bool) returns (result: UserStats)
    ensures failed || users == None || users.value == [] <==> result.NoStats?
    ensures result.NoStats? ==> result.totalUsers == NumberOr(count, 0)
    ensures result.Stats? ==>
      var us := users.value;
      && result.totalUsers == NumberOr(count, |us|)
      && result.lastUser == us[0].createdAt
      && result.stats.averageAge == Avg(Project(us, UserAge))
      && result.stats.averageBmi == Avg(Project(us, UserBmi))
      && result.stats.averageCalories == Avg(Project(us, UserCalories))
      && result.stats.goalDistribution == Tally.Tally(Project(us, UserGoal))
      && result.stats.dietDistribution == Tally.Tally(Project(us, UserDiet))
      && SumCounts(result.stats.goalDistribution) == |us|
      && SumCounts(result.stats.dietDistribution) == |us|
      && result.stats.genderSplit == GenderCount(|Filter(us, IsMale)|, |Filter(us, IsFemale)|)
      && result.stats.genderSplit.male + result.stats.genderSplit.female <= |us|
      && |result.recentUsers| == (if |us| < 5 then |us| else 5)
      && (forall i :: 0 <= i < |result.recentUsers| ==> result.recentUsers[i] == Recent(us[i]))
  {
    if failed || users == None || users.value == [] {
      return NoStats(NumberOr(count, 0));
    }
    var us := users.value;
    var goalCounts := CountBy(Project(us, UserGoal));
    var dietCounts := CountBy(Project(us, UserDiet));
    TallySum(Project(us, UserGoal));
    TallySum(Project(us, UserDiet));
    FilterDisjoint(us, IsMale, IsFemale);
    var stats := UserAggregates(
      Avg(Project(us, UserAge)), Avg(Project(us, UserBmi)), Avg(Project(us, UserCalories)),
      goalCounts, dietCounts,
      GenderCount(|Filter(us, IsMale)|, |Filter(us, IsFemale)|));
    result := Stats(NumberOr(count, |us|), us[0].createdAt, stats, Project(SliceTo(us, 5), Recent));
  }

  /** Every goal of the users is a key of the goal distribution and every key is some user's goal. */
  lemma DistributionKeys(us: seq<StoredUser>, g: string)
    ensures g in Keys(Tally.Tally(Project(us, UserGoal))) <==> exists i :: 0 <= i < |us| && us[i].goal == g
  {
    var gs := Project(us, UserGoal);
    var ks := Keys(Tally.Tally(gs));
    assert ks == Distinct(gs);
    if g in gs {
      var i :| 0 <= i < |gs| && gs[i] == g;
      assert us[i].goal == g;
    }
    if exists i :: 0 <= i < |us| && us[i].goal == g {
      var i :| 0 <= i < |us| && us[i].goal == g;
      assert gs[i] == g;
    }
  }
}
