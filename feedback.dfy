/**
 * The state of the feedback page of pages/feedback/index.tsx: the form's
 * initial values, the update of one field, and the toggling of a fitness goal
 * in the list of chosen goals.
 */
module Feedback {
  import opened Wrappers
  import opened JsArray

  /** The feedback form; `wouldRecommend` is `null` until the user answers. */
  datatype FeedbackData = FeedbackData(
    name: string,
    email: string,
    phone: string,
    ageGroup: string,
    city: string,
    occupation: string,
    currentFitnessLevel: string,
    fitnessGoals: seq<string>,
    dietType: string,
    howDidYouHear: string,
    rating: int,
    likedFeatures: string,
    improvements: string,
    wouldRecommend: Option<bool>,
    consentToResearch: bool,
    consentToContact: bool)

  /** The keys of `FeedbackData`. */
  datatype Field =
    | Name | Email | Phone | AgeGroup | City | Occupation | CurrentFitnessLevel
    | FitnessGoals | DietType | HowDidYouHear | Rating | LikedFeatures
    | Improvements | WouldRecommend | ConsentToResearch | ConsentToContact

  /**
   * A field's value: `updateForm` accepts a string, a boolean, a number or a
   * string array; `Null` is only ever read, from an unanswered `wouldRecommend`.
   */
  datatype Value = Text(text: string) | Flag(flag: bool) | Number(number: int) | Texts(texts: seq<string>) | Null

  predicate IsTextField(field: Field) {
    field in {Name, Email, Phone, AgeGroup, City, Occupation, CurrentFitnessLevel,
              DietType, HowDidYouHear, LikedFeatures, Improvements}
  }

  /** The value has the type the field is declared with. */
  predicate Fits(field: Field, value: Value) {
    if IsTextField(field) then value.Text?
    else if field == FitnessGoals then value.Texts?
    else if field == Rating then value.Number?
    else value.Flag?
  }

  /** What the form holds under `field`. */
  function Get(f: FeedbackData, field: Field): (v: Value)
    ensures Fits(field, v) || (field == WouldRecommend && f.wouldRecommend == None && v == Null)
  {
    match field
    case Name => Text(f.name)
    case Email => Text(f.email)
    case Phone => Text(f.phone)
    case AgeGroup => Text(f.ageGroup)
    case City => Text(f.city)
    case Occupation => Text(f.occupation)
    case CurrentFitnessLevel => Text(f.currentFitnessLevel)
    case FitnessGoals => Texts(f.fitnessGoals)
    case DietType => Text(f.dietType)
    case HowDidYouHear => Text(f.howDidYouHear)
    case Rating => Number(f.rating)
    case LikedFeatures => Text(f.likedFeatures)
    case Improvements => Text(f.improvements)
    case WouldRecommend => if f.wouldRecommend.Some? then Flag(f.wouldRecommend.value) else Null
    case ConsentToResearch => Flag(f.consentToResearch)
    case ConsentToContact => Flag(f.consentToContact)
  }

  /** The form as the page first shows it. */
  function InitialFeedback(): (f: FeedbackData)
    ensures forall field :: IsTextField(field) ==> Get(f, field) == Text("")
    ensures f.fitnessGoals == [] && f.rating == 0 && Get(f, WouldRecommend) == Null
    ensures !f.consentToResearch && !f.consentToContact
  {
    FeedbackData("", "", "", "", "", "", "", [], "", "", 0, "", "", None, false, false)
  }

  /** `updateForm`: `{ ...prev, [field]: value }`. */
  function UpdateForm(prev: FeedbackData, field: Field, value: Value): (next: FeedbackData)
    requires Fits(field, value)
    ensures Get(next, field) == value
    ensures forall other :: other != field ==> Get(next, other) == Get(prev, other)
  {
    match field
    case Name => prev.(name := value.text)
    case Email => prev.(email := value.text)
    case Phone => prev.(phone := value.text)
    case AgeGroup => prev.(ageGroup := value.text)
    case City => prev.(city := value.text)
    case Occupation => prev.(occupation := value.text)
    case CurrentFitnessLevel => prev.(currentFitnessLevel := value.text)
    case FitnessGoals => prev.(fitnessGoals := value.texts)
    case DietType => prev.(dietType := value.text)
    case HowDidYouHear => prev.(howDidYouHear := value.text)
    case Rating => prev.(rating := value.number)
    case LikedFeatures => prev.(likedFeatures := value.text)
    case Improvements => prev.(improvements := value.text)
    case WouldRecommend => prev.(wouldRecommend := Some(value.flag))
    case ConsentToResearch => prev.(consentToResearch := value.flag)
    case ConsentToContact => prev.(consentToContact := value.flag)
  }

  /** Setting a field to what it already holds changes nothing. */
  lemma UpdateSameValue(f: FeedbackData, field: Field)
    requires Fits(field, Get(f, field))
    ensures UpdateForm(f, field, Get(f, field)) == f
  {
  }

  /** Writing a field twice keeps only the second value. */
  lemma UpdateTwice(f: FeedbackData, field: Field, v1: Value, v2: Value)
    requires Fits(field, v1) && Fits(field, v2)
    ensures UpdateForm(UpdateForm(f, field, v1), field, v2) == UpdateForm(f, field, v2)
  {
  }

  /** The test `g !== goal` of the toggle's filter. */
  function Other(goal: string): string -> bool {
    g => g != goal
  }

  /** The goal list after `toggleGoal(goal)`: every copy removed if present, else appended. */
  function ToggledGoals(current: seq<string>, goal: string): (r: seq<string>)
    ensures goal in current ==> goal !in r && |r| < |current|
    ensures goal !in current ==> r == current + [goal]
    ensures forall g :: g != goal ==> (g in r <==> g in current)
  {
    if goal in current then
      FilterGone(current, goal);
      forall g | g != goal && g in current
        ensures g in Filter(current, Other(goal))
      {
        FilterKeeps(current, Other(goal), g);
      }
      Filter(current, Other(goal))
    else current + [goal]
  }

  lemma FilterGone(current: seq<string>, goal: string)
    requires goal in current
    ensures goal !in Filter(current, Other(goal))
    ensures |Filter(current, Other(goal))| < |current|
  {
    FilterCounts(current, Other(goal), goal);
    assert multiset(current)[goal] > 0;
    var r := Filter(current, Other(goal));
    assert |multiset(r)| == |r|;
    assert multiset(r) <= multiset(current) by {
      forall x ensures multiset(r)[x] <= multiset(current)[x] {
        FilterCounts(current, Other(goal), x);
      }
    }
    assert multiset(r) != multiset(current);
    assert multiset(r) < multiset(current);
  }

  /** `toggleGoal` on the form. */
  function ToggleGoal(f: FeedbackData, goal: string): (next: FeedbackData)
    ensures next.fitnessGoals == ToggledGoals(f.fitnessGoals, goal)
    ensures goal in next.fitnessGoals <==> goal !in f.fitnessGoals
    ensures forall other :: other != FitnessGoals ==> Get(next, other) == Get(f, other)
  {
    UpdateForm(f, FitnessGoals, Texts(ToggledGoals(f.fitnessGoals, goal)))
  }

  /** Removing a goal drops every copy of it and keeps every copy of the others. */
  lemma ToggleOffCounts(current: seq<string>, goal: string, g: string)
    requires goal in current
    ensures multiset(ToggledGoals(current, goal))[g] == if g == goal then 0 else multiset(current)[g]
  {
    FilterCounts(current, Other(goal), g);
  }

  /**
   * Removing a goal keeps the other goals in their original order: the new
   * list is the old one read at increasing positions, skipping exactly the
   * copies of the goal.
   */
  lemma ToggleOffOrder(current: seq<string>, goal: string)
    requires goal in current
    ensures var r, ks := ToggledGoals(current, goal), KeptIndices(current, Other(goal));
      && |ks| == |r|
      && (forall k :: 0 <= k < |ks| ==> 0 <= ks[k] < |current| && r[k] == current[ks[k]])
      && (forall k, l :: 0 <= k < l < |ks| ==> ks[k] < ks[l])
      && (forall i :: 0 <= i < |current| && current[i] != goal ==> i in ks)
  {
    FilterOrder(current, Other(goal));
    var ks := KeptIndices(current, Other(goal));
    forall i | 0 <= i < |current| && current[i] != goal
      ensures i in ks
    {
      assert Other(goal)(current[i]);
    }
  }

  /** Toggling a goal that is not chosen, and then toggling it again, restores the list. */
  lemma ToggleTwiceRestores(current: seq<string>, goal: string)
    requires goal !in current
    ensures ToggledGoals(ToggledGoals(current, goal), goal) == current
  {
    var added := current + [goal];
    assert goal in added;
    FilterAppend(current, goal, Other(goal));
    FilterAll(current, Other(goal));
  }
}
