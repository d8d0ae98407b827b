/**
 * `findSimilarProfiles` of lib/dataset.ts: each profile gets an additive
 * similarity score against the user's age, gender, goal and diet, and the
 * profiles are stably sorted by descending score and cut to `limit`.
 */
module Ranker {
  import opened Wrappers
  import opened JsText
  import opened JsArray
  import opened StableSort
  import opened Dataset

  /** The user's side of the comparison. */
  datatype Query = Query(age: int, gender: string, goal: string, diet: string)

  /** `goalMap`: a planner goal to the dataset goals it matches. */
  const GoalMap: map<string, seq<string>> := map[
    "weight-loss" := ["Fat Loss", "General Fitness"],
    "muscle-gain" := ["Muscle Gain"],
    "maintenance" := ["General Fitness", "Endurance"]]

  /** `dietMap`: a planner diet preference to the dataset diet types it matches. */
  const DietMap: map<string, seq<string>> := map[
    "vegetarian" := ["Vegetarian", "Vegan"],
    "non-vegetarian" := ["Non-Vegetarian"],
    "eggetarian" := ["Non-Vegetarian", "Vegetarian"]]

  /** `table[key]?.includes(value)` on the table's own keys: a key the table lacks matches nothing. */
  predicate TableHit(table: map<string, seq<string>>, key: string, value: string) {
    key in table && value in table[key]
  }

  function Abs(x: int): nat { if x < 0 then -x else x }

  function AgePoints(profileAge: int, userAge: int): (r: int)
    ensures r == 3 <==> Abs(profileAge - userAge) <= 5
    ensures r == 1 <==> 5 < Abs(profileAge - userAge) <= 10
    ensures r == 0 <==> Abs(profileAge - userAge) > 10
  {
    if Abs(profileAge - userAge) <= 5 then 3
    else if Abs(profileAge - userAge) <= 10 then 1
    else 0
  }

  /** The record's gender, lowercased, is the first character of the user's, lowercased. */
  predicate GenderMatches(profileGender: string, userGender: string) {
    ToLower(profileGender) == CharAt0(ToLower(userGender))
  }

  /** The score the accumulation in `findSimilarProfiles` arrives at. */
  function SimilarityScore(p: FitnessProfile, q: Query): (r: int)
    ensures 0 <= r <= 10
  {
    AgePoints(p.age, q.age)
    + (if GenderMatches(p.gender, q.gender) then 2 else 0)
    + (if TableHit(GoalMap, q.goal, p.goal) then 3 else 0)
    + (if TableHit(DietMap, q.diet, p.dietType) then 2 else 0)
  }

  /** The `let score` accumulation for one profile. */
  method ScoreProfile(p: FitnessProfile, q: Query) returns (score: int)
    ensures score == SimilarityScore(p, q)
    ensures 0 <= score <= 10
  {
    score := 0;
    if Abs(p.age - q.age) <= 5 {
      score := score + 3;
    } else if Abs(p.age - q.age) <= 10 {
      score := score + 1;
    }
    if ToLower(p.gender) == CharAt0(ToLower(q.gender)) {
      score := score + 2;
    }
    if q.goal in GoalMap && p.goal in GoalMap[q.goal] {
      score := score + 3;
    }
    if q.diet in DietMap && p.dietType in DietMap[q.diet] {
      score := score + 2;
    }
  }

  /** The top score is reached exactly when all four criteria hold with the close age band. */
  lemma FullScore(p: FitnessProfile, q: Query)
    ensures SimilarityScore(p, q) == 10 <==>
      Abs(p.age - q.age) <= 5 && GenderMatches(p.gender, q.gender)
      && TableHit(GoalMap, q.goal, p.goal) && TableHit(DietMap, q.diet, p.dietType)
  {
  }

  /** A goal or diet outside the tables never adds points. */
  lemma UnknownKeysAddNothing(p: FitnessProfile, q: Query)
    requires q.goal !in GoalMap && q.diet !in DietMap
    ensures SimilarityScore(p, q) == AgePoints(p.age, q.age) + (if GenderMatches(p.gender, q.gender) then 2 else 0)
    ensures SimilarityScore(p, q) <= 5
  {
  }

  /** A matching gender is at most one character long: the user's initial. */
  lemma GenderMatchIsInitial(profileGender: string, userGender: string)
    requires GenderMatches(profileGender, userGender)
    ensures |profileGender| <= 1
    ensures userGender == [] <==> profileGender == []
  {
    assert |ToLower(profileGender)| == |CharAt0(ToLower(userGender))|;
  }

  /** "M" matches a user who writes "male" or "Male". */
  lemma GenderInitialExample()
    ensures GenderMatches("M", "male") && GenderMatches("M", "Male") && GenderMatches("f", "Female")
    ensures !GenderMatches("Male", "male")
  {
    assert ToLower("M") == "m";
    assert ToLower("male")[..1] == "m";
    assert ToLower("Male")[..1] == "m";
    assert ToLower("f") == "f";
    assert ToLower("Female")[..1] == "f";
  }

  // ---------------------------------------------------------------------------
  // Ranking

  /** A profile with its score and its position in the input. */
  datatype Scored = Scored(profile: FitnessProfile, score: int, position: nat)

  function ScoreOf(s: Scored): int { s.score }
  function PositionOf(s: Scored): int { s.position }
  function ProfileOf(s: Scored): FitnessProfile { s.profile }

  /** `profiles.map(...)`: each profile with its score, in input order. */
  function ScoredAll(profiles: seq<FitnessProfile>, q: Query): (r: seq<Scored>)
    ensures |r| == |profiles|
  {
    seq(|profiles|, i requires 0 <= i < |profiles| => Scored(profiles[i], SimilarityScore(profiles[i], q), i))
  }

  /** The scored profiles, sorted by descending score and cut to `limit`. */
  ghost function Ranked(profiles: seq<FitnessProfile>, q: Query, limit: int): seq<Scored> {
    SliceTo(SortDesc(ScoredAll(profiles, q), ScoreOf), limit)
  }

  /** The input positions of the profiles `findSimilarProfiles` returns, in the order returned. */
  ghost function RankedPositions(profiles: seq<FitnessProfile>, q: Query, limit: int): seq<int> {
    Project(Ranked(profiles, q, limit), PositionOf)
  }

  function ResultLength(n: nat, limit: int): nat {
    if limit >= 0 then (if limit < n then limit else n)
    else if n + limit < 0 then 0 else n + limit
  }

  lemma SortedScoredItems(profiles: seq<FitnessProfile>, q: Query)
    ensures forall k :: 0 <= k < |SortDesc(ScoredAll(profiles, q), ScoreOf)| ==>
      SortDesc(ScoredAll(profiles, q), ScoreOf)[k].position < |profiles| &&
      SortDesc(ScoredAll(profiles, q), ScoreOf)[k] ==
        ScoredAll(profiles, q)[SortDesc(ScoredAll(profiles, q), ScoreOf)[k].position]
    ensures NoRepeats(SortDesc(ScoredAll(profiles, q), ScoreOf))
  {
    var l := ScoredAll(profiles, q);
    var sorted := SortDesc(l, ScoreOf);
    forall k | 0 <= k < |sorted|
      ensures sorted[k].position < |profiles| && sorted[k] == l[sorted[k].position]
    {
      assert sorted[k] in multiset(sorted);
      assert sorted[k] in l;
    }
    assert NoRepeats(l);
    NoRepeatsPermutation(sorted, l);
  }

  lemma SortedScoredCutoff(profiles: seq<FitnessProfile>, q: Query, k: nat)
    requires k <= |profiles|
    ensures forall j, i ::
      0 <= j < |profiles| && j !in Project(SortDesc(ScoredAll(profiles, q), ScoreOf)[..k], PositionOf) && 0 <= i < k
      ==> SimilarityScore(profiles[j], q) <= SortDesc(ScoredAll(profiles, q), ScoreOf)[i].score
  {
    var l := ScoredAll(profiles, q);
    var sorted := SortDesc(l, ScoreOf);
    var ps := Project(sorted[..k], PositionOf);
    SortedScoredItems(profiles, q);
    forall j, i | 0 <= j < |profiles| && j !in ps && 0 <= i < k
      ensures SimilarityScore(profiles[j], q) <= sorted[i].score
    {
      SortDescMembers(l, ScoreOf);
      assert l[j] in sorted;
      var p :| 0 <= p < |sorted| && sorted[p] == l[j];
      PastPrefix(sorted, k, p, j);
    }
  }

  /** A profile outside the first `k` sorted items that ties with one of them comes later in the input. */
  lemma SortedScoredCutoffTies(profiles: seq<FitnessProfile>, q: Query, k: nat)
    requires k <= |profiles|
    ensures forall j, i ::
      (0 <= j < |profiles| && j !in Project(SortDesc(ScoredAll(profiles, q), ScoreOf)[..k], PositionOf) && 0 <= i < k &&
       SimilarityScore(profiles[j], q) == SortDesc(ScoredAll(profiles, q), ScoreOf)[i].score)
      ==> SortDesc(ScoredAll(profiles, q), ScoreOf)[i].position < j
  {
    var l := ScoredAll(profiles, q);
    var sorted := SortDesc(l, ScoreOf);
    var ps := Project(sorted[..k], PositionOf);
    assert RankIncreasing(l, PositionOf);
    SortDescStable(l, ScoreOf, PositionOf);
    forall j, i | 0 <= j < |profiles| && j !in ps && 0 <= i < k && SimilarityScore(profiles[j], q) == sorted[i].score
      ensures sorted[i].position < j
    {
      SortDescMembers(l, ScoreOf);
      assert l[j] in sorted;
      var p :| 0 <= p < |sorted| && sorted[p] == l[j];
      PastPrefix(sorted, k, p, j);
      assert ScoreOf(sorted[i]) == ScoreOf(sorted[p]);
    }
  }

  /** An element whose position is missing from the first `k` positions lies at or after `k`. */
  lemma PastPrefix(sorted: seq<Scored>, k: nat, p: nat, j: int)
    requires k <= |sorted| && p < |sorted| && sorted[p].position == j
    requires j !in Project(sorted[..k], PositionOf)
    ensures p >= k
  {
  }

  /**
   * The ranking is a stable top-`limit`: each returned profile is the input
   * profile at its position with its score, no position twice, scores
   * non-increasing, equal scores in input order, no profile left out
   * scoring more than one returned, and a profile left out that ties with
   * a returned one coming after it in the input.
   */
  lemma RankedIsStableTop(profiles: seq<FitnessProfile>, q: Query, limit: int)
    ensures |Ranked(profiles, q, limit)| == ResultLength(|profiles|, limit)
    ensures forall k :: 0 <= k < |Ranked(profiles, q, limit)| ==>
      var s := Ranked(profiles, q, limit)[k];
      s.position < |profiles| && s.profile == profiles[s.position] && s.score == SimilarityScore(s.profile, q)
    ensures NoRepeats(RankedPositions(profiles, q, limit))
    ensures SortedDesc(Ranked(profiles, q, limit), ScoreOf)
    ensures StableBy(Ranked(profiles, q, limit), ScoreOf, PositionOf)
    ensures forall j, k ::
      0 <= j < |profiles| && j !in RankedPositions(profiles, q, limit) && 0 <= k < |Ranked(profiles, q, limit)|
      ==> SimilarityScore(profiles[j], q) <= Ranked(profiles, q, limit)[k].score
    ensures forall j, k ::
      (0 <= j < |profiles| && j !in RankedPositions(profiles, q, limit) && 0 <= k < |Ranked(profiles, q, limit)| &&
       SimilarityScore(profiles[j], q) == Ranked(profiles, q, limit)[k].score)
      ==> Ranked(profiles, q, limit)[k].position < j
  {
    RankedEntries(profiles, q, limit);
    RankedDistinct(profiles, q, limit);
    RankedOrder(profiles, q, limit);
    RankedCutoff(profiles, q, limit);
  }

  lemma RankedEntries(profiles: seq<FitnessProfile>, q: Query, limit: int)
    ensures |Ranked(profiles, q, limit)| == ResultLength(|profiles|, limit)
    ensures Ranked(profiles, q, limit) == SortDesc(ScoredAll(profiles, q), ScoreOf)[..|Ranked(profiles, q, limit)|]
    ensures forall k :: 0 <= k < |Ranked(profiles, q, limit)| ==>
      var s := Ranked(profiles, q, limit)[k];
      s.position < |profiles| && s.profile == profiles[s.position] && s.score == SimilarityScore(s.profile, q)
  {
    var sorted := SortDesc(ScoredAll(profiles, q), ScoreOf);
    var top := Ranked(profiles, q, limit);
    SortedScoredItems(profiles, q);
    forall k | 0 <= k < |top|
      ensures var s := top[k];
        s.position < |profiles| && s.profile == profiles[s.position] && s.score == SimilarityScore(s.profile, q)
    {
      assert top[k] == sorted[k];
    }
  }

  lemma RankedDistinct(profiles: seq<FitnessProfile>, q: Query, limit: int)
    ensures NoRepeats(RankedPositions(profiles, q, limit))
  {
    var sorted := SortDesc(ScoredAll(profiles, q), ScoreOf);
    var top := Ranked(profiles, q, limit);
    RankedEntries(profiles, q, limit);
    SortedScoredItems(profiles, q);
    var ps := RankedPositions(profiles, q, limit);
    forall i, j | 0 <= i < j < |ps|
      ensures ps[i] != ps[j]
    {
      assert top[i] == sorted[i] && top[j] == sorted[j];
    }
  }

  lemma RankedOrder(profiles: seq<FitnessProfile>, q: Query, limit: int)
    ensures SortedDesc(Ranked(profiles, q, limit), ScoreOf)
    ensures StableBy(Ranked(profiles, q, limit), ScoreOf, PositionOf)
  {
    var l := ScoredAll(profiles, q);
    RankedEntries(profiles, q, limit);
    assert RankIncreasing(l, PositionOf);
    SortDescStable(l, ScoreOf, PositionOf);
  }

  lemma RankedCutoff(profiles: seq<FitnessProfile>, q: Query, limit: int)
    ensures forall j, k ::
      0 <= j < |profiles| && j !in RankedPositions(profiles, q, limit) && 0 <= k < |Ranked(profiles, q, limit)|
      ==> SimilarityScore(profiles[j], q) <= Ranked(profiles, q, limit)[k].score
    ensures forall j, k ::
      (0 <= j < |profiles| && j !in RankedPositions(profiles, q, limit) && 0 <= k < |Ranked(profiles, q, limit)| &&
       SimilarityScore(profiles[j], q) == Ranked(profiles, q, limit)[k].score)
      ==> Ranked(profiles, q, limit)[k].position < j
  {
    var top := Ranked(profiles, q, limit);
    RankedEntries(profiles, q, limit);
    SortedScoredCutoff(profiles, q, |top|);
    SortedScoredCutoffTies(profiles, q, |top|);
  }

  /** `findSimilarProfiles(profiles, age, gender, goal, diet, limit)`. */
  method FindSimilarProfiles(profiles: seq<FitnessProfile>, q: Query, limit: int) returns (similar: seq<FitnessProfile>)
    ensures |similar| == |RankedPositions(profiles, q, limit)| == ResultLength(|profiles|, limit)
    ensures forall k :: 0 <= k < |similar| ==>
      0 <= RankedPositions(profiles, q, limit)[k] < |profiles| &&
      similar[k] == profiles[RankedPositions(profiles, q, limit)[k]]
    ensures forall k, m :: 0 <= k < m < |similar| ==> SimilarityScore(similar[k], q) >= SimilarityScore(similar[m], q)
    ensures forall k, m :: 0 <= k < m < |similar| && SimilarityScore(similar[k], q) == SimilarityScore(similar[m], q) ==>
      RankedPositions(profiles, q, limit)[k] < RankedPositions(profiles, q, limit)[m]
    ensures NoRepeats(RankedPositions(profiles, q, limit))
    ensures forall j, k :: 0 <= j < |profiles| && j !in RankedPositions(profiles, q, limit) && 0 <= k < |similar| ==>
      SimilarityScore(profiles[j], q) <= SimilarityScore(similar[k], q)
    ensures forall j, k ::
      (0 <= j < |profiles| && j !in RankedPositions(profiles, q, limit) && 0 <= k < |similar| &&
       SimilarityScore(profiles[j], q) == SimilarityScore(similar[k], q))
      ==> RankedPositions(profiles, q, limit)[k] < j
  {
    var scored: seq<Scored> := [];
    for i := 0 to |profiles|
      invariant scored == ScoredAll(profiles, q)[..i]
    {
      var score := ScoreProfile(profiles[i], q);
      scored := scored + [Scored(profiles[i], score, i)];
    }
    assert scored == ScoredAll(profiles, q);
    var top := SliceTo(SortDesc(scored, ScoreOf), limit);
    similar := Project(top, ProfileOf);
    RankedIsStableTop(profiles, q, limit);
  }

  // ---------------------------------------------------------------------------
  // Table lookups as written

  /** Names every object literal inherits from `Object.prototype`. */
  predicate InheritedName(k: string) {
    k in {"constructor", "hasOwnProperty", "isPrototypeOf", "propertyIsEnumerable",
          "toLocaleString", "toString", "valueOf", "__proto__",
          "__defineGetter__", "__defineSetter__", "__lookupGetter__", "__lookupSetter__"}
  }

  /**
   * `table[key]?.includes(value)` as written: a key the table lacks but the
   * object inherits finds a function or `Object.prototype`, neither of which
   * has an `includes` method, so the call throws (`None`).
   */
  function TableHitAsWritten(table: map<string, seq<string>>, key: string, value: string): (r: Option<bool>)
    ensures key in table ==> r == Some(value in table[key])
  {
    if key in table then Some(value in table[key])
    else if InheritedName(key) then None
    else Some(false)
  }

  /** Lookups agree with `TableHit` except on inherited names, where the code throws. */
  lemma TableHitAsWrittenAgrees(table: map<string, seq<string>>, key: string, value: string)
    requires forall k :: k in table ==> !InheritedName(k)
    ensures TableHitAsWritten(table, key, value) == None <==> InheritedName(key)
    ensures !InheritedName(key) ==> TableHitAsWritten(table, key, value) == Some(TableHit(table, key, value))
  {
  }

  /** A goal of "constructor" makes the goal lookup throw, where the table means "no match". */
  lemma ConstructorGoalThrows(p: FitnessProfile)
    ensures TableHitAsWritten(GoalMap, "constructor", p.goal) == None
    ensures !TableHit(GoalMap, "constructor", p.goal)
  {
  }
}
