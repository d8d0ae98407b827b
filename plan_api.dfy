/**
 * The plan endpoint of pages/api/generate-plan.ts: the method gate, the
 * context query built from the form, the clean-up of the model's reply before
 * it is parsed as JSON, and the row saved for the user with its plan figures.
 * The language model, the JSON parser, the dataset file and the database are
 * parameters.
 */
module PlanApi {
  import opened Wrappers
  import opened JsText
  import opened JsArray
  import opened Dataset
  import opened Statistics
  import Ranker
  import opened UserStore

  // ---------------------------------------------------------------------------
  // Cleaning the model's reply

  /** `s.startsWith(p) ? s.slice(|p|) : s`. */
  function DropPrefix(s: string, p: string): (r: string)
    ensures StartsWith(s, p) ==> s == p + r
    ensures !StartsWith(s, p) ==> r == s
    ensures IsSlice(r, s)
  {
    if StartsWith(s, p) then
      assert s == s[..|p|] + s[|p|..];
      assert s[|p|..] == s[|p|..|s|];
      s[|p|..]
    else
      assert s == s[0..|s|];
      s
  }

  /** `s.endsWith(p) ? s.slice(0, -|p|) : s`. */
  function DropSuffix(s: string, p: string): (r: string)
    ensures EndsWith(s, p) ==> s == r + p
    ensures !EndsWith(s, p) ==> r == s
    ensures IsSlice(r, s)
  {
    if EndsWith(s, p) then
      assert s == s[..|s| - |p|] + s[|s| - |p|..];
      assert s[..|s| - |p|] == s[0..|s| - |p|];
      s[..|s| - |p|]
    else
      assert s == s[0..|s|];
      s
  }

  const JsonFence: string := "```json"
  const Fence: string := "```"

  /** The text handed to `JSON.parse`: the trimmed reply without its code fences, trimmed again. */
  function Cleaned(reply: string): string {
    Trim(DropSuffix(DropPrefix(DropPrefix(Trim(reply), JsonFence), Fence), Fence))
  }

  /** The clean-up steps of the handler, one `if` per fence. */
  method CleanReply(responseText: string) returns (cleaned: string)
    ensures cleaned == Cleaned(responseText)
    ensures IsTrimmed(cleaned) && IsSlice(cleaned, Trim(responseText))
  {
    cleaned := Trim(responseText);
    ghost var t := cleaned;
    if StartsWith(cleaned, JsonFence) {
      cleaned := cleaned[7..];
    }
    assert cleaned == DropPrefix(t, JsonFence);
    ghost var a := cleaned;
    if StartsWith(cleaned, Fence) {
      cleaned := cleaned[3..];
    }
    assert cleaned == DropPrefix(a, Fence);
    ghost var b := cleaned;
    if EndsWith(cleaned, Fence) {
      cleaned := SliceTo(cleaned, -3);
    }
    assert cleaned == DropSuffix(b, Fence);
    cleaned := Trim(cleaned);
    CleanedIsPiece(responseText);
  }

  /** The cleaned text is a trimmed piece of the trimmed reply. */
  lemma CleanedIsPiece(reply: string)
    ensures IsTrimmed(Cleaned(reply))
    ensures IsSlice(Cleaned(reply), Trim(reply))
  {
    var t := Trim(reply);
    var a := DropPrefix(t, JsonFence);
    var b := DropPrefix(a, Fence);
    var c := DropSuffix(b, Fence);
    SliceOfSlice(b, a, t);
    SliceOfSlice(c, b, t);
    SliceOfSlice(Trim(c), c, t);
  }

  /** A reply with no fence at either end is only trimmed. */
  lemma UnfencedReply(reply: string)
    requires !StartsWith(Trim(reply), Fence) && !EndsWith(Trim(reply), Fence)
    ensures Cleaned(reply) == Trim(reply)
  {
    JsonFenceStartsWithFence(Trim(reply));
    TrimIdempotent(reply);
  }

  lemma JsonFenceStartsWithFence(s: string)
    ensures StartsWith(s, JsonFence) ==> StartsWith(s, Fence)
  {
    if StartsWith(s, JsonFence) {
      assert s[..3] == s[..7][..3];
    }
  }

  lemma DropPrefixOf(p: string, r: string)
    ensures DropPrefix(p + r, p) == r
  {
    assert (p + r)[..|p|] == p;
    assert (p + r)[|p|..] == r;
  }

  lemma DropSuffixOf(r: string, p: string)
    ensures DropSuffix(r + p, p) == r
  {
    assert (r + p)[|r|..] == p;
    assert (r + p)[..|r|] == r;
  }

  /** What is left once the opening fence is dropped: the framed body and the closing fence. */
  lemma ClosingFenceDropped(rest: string, body: string)
    requires rest == "\n" + body + "\n" && IsTrimmed(body)
    ensures !StartsWith(rest + Fence, Fence)
    ensures !StartsWith(Fence + (rest + Fence), JsonFence)
    ensures Trim(DropSuffix(rest + Fence, Fence)) == body
  {
    var tail := rest + Fence;
    assert tail[0] == '\n';
    MismatchAt(tail, Fence, 0);
    NewlineAfterFence(tail);
    DropSuffixOf(rest, Fence);
    TrimNewlineFrame(body);
  }

  /** A fenced reply has no white space at either end. */
  lemma FencedIsTrimmed(open: string, rest: string)
    requires |open| > 0 && open[0] == '`'
    ensures Trim(open + (rest + Fence)) == open + (rest + Fence)
  {
    var reply := open + (rest + Fence);
    assert reply[0] == '`' && reply[|reply| - 1] == '`';
    TrimTrimmed(reply);
  }

  lemma MismatchAt(s: string, p: string, i: nat)
    requires i < |p| && i < |s| && s[i] != p[i]
    ensures !StartsWith(s, p)
  {
    if |p| <= |s| {
      assert s[..|p|][i] != p[i];
    }
  }

  /** A bare fence followed by a newline is not a ```json fence. */
  lemma NewlineAfterFence(r: string)
    requires |r| > 0 && r[0] == '\n'
    ensures !StartsWith(Fence + r, JsonFence)
  {
    assert |Fence| == 3;
    assert (Fence + r)[3] == '\n';
    MismatchAt(Fence + r, JsonFence, 3);
  }

  /** The cleaned text of a reply `open + rest + Fence` once each step is known. */
  lemma FencedSteps(open: string, rest: string, body: string)
    requires open == JsonFence || open == Fence
    requires rest == "\n" + body + "\n" && IsTrimmed(body)
    ensures Cleaned(open + (rest + Fence)) == body
  {
    var tail := rest + Fence;
    var reply := open + tail;
    FencedIsTrimmed(open, rest);
    ClosingFenceDropped(rest, body);
    DropPrefixOf(open, tail);
    var t := Trim(reply);
    assert t == reply;
    var a := DropPrefix(t, JsonFence);
    var b := DropPrefix(a, Fence);
    if open == Fence {
      assert a == reply;
      assert b == tail;
    } else {
      assert a == tail;
      assert !StartsWith(a, Fence);
      assert b == tail;
    }
    assert Trim(DropSuffix(b, Fence)) == body;
  }

  /** A JSON body in a ```json fence is recovered exactly. */
  lemma JsonFencedReply(body: string)
    requires IsTrimmed(body)
    ensures Cleaned(JsonFence + "\n" + body + "\n" + Fence) == body
  {
    var rest := "\n" + body + "\n";
    assert JsonFence + "\n" + body + "\n" + Fence == JsonFence + (rest + Fence);
    FencedSteps(JsonFence, rest, body);
  }

  /** A JSON body in a bare ``` fence is recovered exactly. */
  lemma PlainFencedReply(body: string)
    requires IsTrimmed(body)
    ensures Cleaned(Fence + "\n" + body + "\n" + Fence) == body
  {
    var rest := "\n" + body + "\n";
    assert Fence + "\n" + body + "\n" + Fence == Fence + (rest + Fence);
    FencedSteps(Fence, rest, body);
  }

  // ---------------------------------------------------------------------------
  // The handler

  /** The request body; the two optional texts may be absent from it. */
  datatype PlanForm = PlanForm(
    name: string,
    age: string,
    gender: string,
    weight: string,
    height: string,
    goal: string,
    activityLevel: string,
    dietPreference: string,
    medicalConditions: Option<string>,
    equipment: Option<string>)

  /** What the chat completion gives back: the first choice's content, if any, or a thrown error. */
  datatype Completion = Completion(content: Option<string>) | CompletionError(message: string)

  /**
   * What `JSON.parse` produced, as far as the handler looks at it: `null`, or a
   * value whose `diet?.calories` and `workout?.daysPerWeek` are read.
   */
  datatype ParsedPlan = NullPlan | PlanValue(dietCalories: Option<int>, workoutDays: Option<int>)

  /** The JSON answers of the handler. */
  datatype PlanResponse =
    | MethodNotAllowed
    | UnparsableReply(raw: string)
    | GenerationFailed(details: string)
    | Planned(plan: ParsedPlan, totalProfiles: nat, matchedProfiles: nat, userId: Option<string>, totalUsersServed: int)

  function StatusCode(r: PlanResponse): (code: int)
    ensures r.MethodNotAllowed? <==> code == 405
    ensures r.Planned? <==> code == 200
    ensures code in {200, 405, 500}
  {
    match r
    case MethodNotAllowed => 405
    case UnparsableReply(_) => 500
    case GenerationFailed(_) => 500
    case Planned(_, _, _, _, _) => 200
  }

  /** The arguments of the dataset context: the age with its default of 25, and three form fields. */
  function ContextQuery(form: PlanForm): (q: Ranker.Query)
    ensures q.age == ParseIntOr(form.age, 25) && q.age != 0
    ensures ParseInt(form.age) == None ==> q.age == 25
    ensures q.gender == form.gender && q.goal == form.goal && q.diet == form.dietPreference
  {
    Ranker.Query(ParseIntOr(form.age, 25), form.gender, form.goal, form.dietPreference)
  }

  /** A non-zero age typed as a number is the context's age. */
  lemma ContextAgeOfNumber(form: PlanForm, n: int)
    requires n != 0 && form.age == IntToString(n)
    ensures ContextQuery(form).age == n
  {
    ParseIntOrRoundTrip(n, 25);
  }

  /** The data saved for the user: the form plus the plan's calories and workout days, 0 when missing. */
  function SavedInput(form: PlanForm, calories: Option<int>, workoutDays: Option<int>): (u: UserInput)
    ensures u.planCalories == NumberOr(calories, 0) && u.planWorkoutDays == NumberOr(workoutDays, 0)
    ensures calories.Some? && calories.value != 0 ==> u.planCalories == calories.value
    ensures u.name == form.name && u.age == form.age && u.gender == form.gender
    ensures u.weight == form.weight && u.height == form.height && u.goal == form.goal
    ensures u.activityLevel == form.activityLevel && u.dietPreference == form.dietPreference
    ensures u.medicalConditions == form.medicalConditions && u.equipment == form.equipment
  {
    UserInput(form.name, form.age, form.gender, form.weight, form.height, form.goal,
      form.activityLevel, form.dietPreference, form.medicalConditions, form.equipment,
      NumberOr(calories, 0), NumberOr(workoutDays, 0))
  }

  /** What the user table gives back when it is read after the insert. */
  datatype StoreRead = StoreRead(count: Option<int>, users: Option<seq<StoredUser>>, failed: bool)

  /**
   * `userStats?.totalUsers || 1`: the exact row count when it is non-zero,
   * otherwise the number of rows read, and 1 when that is 0 too.
   */
  function UsersServed(store: StoreRead): (r: int)
    ensures r != 0
    ensures store.count.Some? && store.count.value != 0 ==> r == store.count.value
    ensures (store.count == None || store.count == Some(0)) ==>
      if store.failed || store.users == None || store.users.value == [] then r == 1 else r == |store.users.value|
  {
    var read := if store.failed || store.users == None || store.users.value == [] then 0 else |store.users.value|;
    NumberOr(Some(NumberOr(store.count, read)), 1)
  }

  /**
   * The handler. `query` is what the dataset context is computed for and
   * `saved` what is written to the user table; both are `None` when the
   * handler never gets that far.
   */
  method Handle(
    httpMethod: string, form: PlanForm, completion: Completion, parse: string -> Option<ParsedPlan>,
    profiles: seq<FitnessProfile>, insert: UserRow -> InsertReply, store: StoreRead)
    returns (response: PlanResponse, query: Option<Ranker.Query>, saved: Option<UserInput>)
    ensures httpMethod != "POST" <==> response == MethodNotAllowed
    ensures httpMethod != "POST" ==> query == None && saved == None
    ensures httpMethod == "POST" ==> query == Some(ContextQuery(form))
    ensures httpMethod == "POST" && completion.CompletionError? ==>
      response == GenerationFailed(completion.message) && saved == None
    ensures httpMethod == "POST" && completion.Completion? ==>
      var text := completion.content.GetOr("");
      && (parse(Cleaned(text)) == None ==> response == UnparsableReply(text) && saved == None)
      && (parse(Cleaned(text)) == Some(NullPlan) ==> response.GenerationFailed? && saved == None)
      && (parse(Cleaned(text)).Some? && parse(Cleaned(text)).value.PlanValue? ==>
            var plan := parse(Cleaned(text)).value;
            && saved == Some(SavedInput(form, plan.dietCalories, plan.workoutDays))
            && response.Planned?
            && response.plan == plan
            && response.totalProfiles == |profiles|
            && response.matchedProfiles == 10
            && response.userId == SaveUser(saved.value, insert).userId
            && response.totalUsersServed == UsersServed(store))
    ensures response.Planned? <==> saved.Some?
  {
    saved := None;
    if httpMethod != "POST" {
      return MethodNotAllowed, None, None;
    }
    query := Some(ContextQuery(form));
    if completion.CompletionError? {
      return GenerationFailed(completion.message), query, None;
    }
    var responseText := completion.content.GetOr("");
    var cleaned := CleanReply(responseText);
    var parsed := parse(cleaned);
    if parsed == None {
      return UnparsableReply(responseText), query, None;
    }
    var plan := parsed.value;
    if plan.NullPlan? {
      // `plan.diet` on null throws; the outer catch answers 500.
      return GenerationFailed("Cannot read properties of null"), query, None;
    }
    var stats := ComputeStatistics(profiles);
    var input := SavedInput(form, plan.dietCalories, plan.workoutDays);
    var result := SaveUser(input, insert);
    var userStats := GetUserStats(store.count, store.users, store.failed);
    saved := Some(input);
    response := Planned(plan, stats.totalRecords, 10, result.userId, NumberOr(Some(userStats.totalUsers), 1));
  }
}
