/**
 * `computeStatistics` of lib/dataset.ts: ranges, rounded averages,
 * percentages and the category breakdowns of a list of profiles.
 */
module Statistics {
  import opened JsText
  import opened JsArray
  import opened Tally
  import opened StableSort
  import opened Dataset

  // ---------------------------------------------------------------------------
  // avg, percentage, Math.min and Math.max

  function Sum(xs: seq<real>): real {
    if xs == [] then 0.0 else Sum(xs[..|xs| - 1]) + xs[|xs| - 1]
  }

  /** The exact mean of a non-empty list. */
  function Mean(xs: seq<real>): real
    requires xs != []
  {
    Sum(xs) / |xs| as real
  }

  /** `avg`: the mean rounded to one decimal place, and 0 for an empty list. */
  function Avg(xs: seq<real>): (r: real)
    ensures xs == [] ==> r == 0.0
    ensures xs != [] ==> Mean(xs) - 0.05 < r <= Mean(xs) + 0.05
    ensures OnTenths(r)
  {
    if xs == [] then 0.0 else RoundTenth(Mean(xs))
  }

  lemma {:induction false} SumBounds(xs: seq<real>, lo: real, hi: real)
    requires forall i :: 0 <= i < |xs| ==> lo <= xs[i] <= hi
    ensures |xs| as real * lo <= Sum(xs) <= |xs| as real * hi
  {
    if xs != [] {
      SumBounds(xs[..|xs| - 1], lo, hi);
    }
  }

  /** The mean of values in `[lo, hi]` lies in `[lo, hi]`; `avg` is at most 0.05 outside it. */
  lemma AvgBounds(xs: seq<real>, lo: real, hi: real)
    requires xs != []
    requires forall i :: 0 <= i < |xs| ==> lo <= xs[i] <= hi
    ensures lo <= Mean(xs) <= hi
    ensures lo - 0.05 < Avg(xs) <= hi + 0.05
  {
    SumBounds(xs, lo, hi);
    var n := |xs| as real;
    assert (Mean(xs) - lo) * n == Sum(xs) - n * lo;
    assert (hi - Mean(xs)) * n == n * hi - Sum(xs);
  }

  /** `percentage(count)` of `total` records, rounded half up; 0 when there are no records. */
  function Percentage(count: int, total: int): (r: int)
    ensures total > 0 && 0 <= count <= total ==> 0 <= r <= 100
    ensures total > 0 && count == total ==> r == 100
    ensures count == 0 ==> r == 0
    ensures total > 0 ==>
      100.0 * (count as real) / (total as real) - 0.5 < r as real <= 100.0 * (count as real) / (total as real) + 0.5
  {
    if total == 0 then 0
    else
      PercentageQuotient(count, total);
      Round(count as real / total as real * 100.0)
  }

  lemma PercentageQuotient(count: int, total: int)
    requires total != 0
    ensures total > 0 && 0 <= count <= total ==> 0.0 <= count as real / total as real <= 1.0
    ensures count == total ==> count as real / total as real == 1.0
    ensures total > 0 ==> count as real / total as real * 100.0 == 100.0 * (count as real) / (total as real)
  {
    if total > 0 && 0 <= count <= total {
      QuotientBounds(count as real, total as real);
    }
    if total > 0 {
      ScaledQuotient(count as real, total as real);
    }
  }

  /** A larger count never gets a smaller percentage. */
  lemma PercentageMonotone(c1: int, c2: int, total: int)
    requires c1 <= c2 && total > 0
    ensures Percentage(c1, total) <= Percentage(c2, total)
  {
    QuotientMonotone(c1 as real, c2 as real, total as real);
  }

  lemma QuotientBounds(a: real, b: real)
    requires b > 0.0 && 0.0 <= a <= b
    ensures 0.0 <= a / b <= 1.0
  {
    var q := a / b;
    assert q * b == a;
    assert (1.0 - q) * b == b - a;
  }

  lemma ScaledQuotient(a: real, b: real)
    requires b > 0.0
    ensures (a / b) * 100.0 == 100.0 * a / b
  {
    assert (a / b) * b == a;
    assert (100.0 * a / b) * b == 100.0 * a;
    assert ((a / b) * 100.0) * b == 100.0 * a;
  }

  lemma QuotientMonotone(a: real, c: real, b: real)
    requires b > 0.0 && a <= c
    ensures a / b <= c / b
  {
    assert (c / b - a / b) * b == c - a;
  }

  /** `Math.min(...xs)`, and 0 for an empty list. */
  function MinOf(xs: seq<real>): (r: real)
    ensures xs == [] ==> r == 0.0
    ensures xs != [] ==> r in xs
    ensures forall i :: 0 <= i < |xs| ==> r <= xs[i]
  {
    if xs == [] then 0.0
    else if |xs| == 1 then xs[0]
    else
      var m := MinOf(xs[..|xs| - 1]);
      assert m in xs[..|xs| - 1] ==> m in xs;
      if xs[|xs| - 1] < m then xs[|xs| - 1] else m
  }

  /** `Math.max(...xs)`, and 0 for an empty list. */
  function MaxOf(xs: seq<real>): (r: real)
    ensures xs == [] ==> r == 0.0
    ensures xs != [] ==> r in xs
    ensures forall i :: 0 <= i < |xs| ==> xs[i] <= r
  {
    if xs == [] then 0.0
    else if |xs| == 1 then xs[0]
    else
      var m := MaxOf(xs[..|xs| - 1]);
      assert m in xs[..|xs| - 1] ==> m in xs;
      if xs[|xs| - 1] > m then xs[|xs| - 1] else m
  }

  /** The `{ min, max, avg }` triple of one numeric column. */
  datatype NumRange = NumRange(min: real, max: real, avg: real)

  function RangeOf(xs: seq<real>): (r: NumRange)
    ensures xs == [] ==> r == NumRange(0.0, 0.0, 0.0)
    ensures xs != [] ==> r.min in xs && r.max in xs
    ensures forall i :: 0 <= i < |xs| ==> r.min <= xs[i] <= r.max
    ensures r.min - 0.05 < r.avg <= r.max + 0.05
    ensures r.avg == Avg(xs)
  {
    if xs == [] then NumRange(0.0, 0.0, 0.0)
    else
      AvgBounds(xs, MinOf(xs), MaxOf(xs));
      NumRange(MinOf(xs), MaxOf(xs), Avg(xs))
  }

  // ---------------------------------------------------------------------------
  // The result object

  datatype GenderSplit = GenderSplit(male: int, female: int)
  datatype Demographics = Demographics(ageRange: NumRange, gender: GenderSplit, topCities: seq<string>)
  datatype BodyFat = BodyFat(maleAvg: real, femaleAvg: real)
  datatype BodyMetrics = BodyMetrics(weight: NumRange, height: NumRange, bmi: NumRange, bodyFat: BodyFat)
  datatype ExerciseStat = ExerciseStat(exerciseType: string, percentage: int, avgCalories: real, avgDuration: real)
  datatype ExerciseSummary = ExerciseSummary(types: seq<ExerciseStat>, avgDuration: real, avgCalories: real)
  datatype Lifestyle = Lifestyle(sleep: NumRange, water: NumRange, stepsAvg: int, stressAvg: real)
  /** One `{ goal | level | diet, percentage }` item of a breakdown. */
  datatype Share = Share(category: string, percentage: int)
  datatype DatasetStats = DatasetStats(
    totalRecords: nat,
    demographics: Demographics,
    bodyMetrics: BodyMetrics,
    exercise: ExerciseSummary,
    lifestyle: Lifestyle,
    goals: seq<Share>,
    fitnessLevels: seq<Share>,
    dietTypes: seq<Share>)

  // Columns of a profile, as used by the `map` and `filter` calls.
  function AgeOf(p: FitnessProfile): real { p.age as real }
  function WeightOf(p: FitnessProfile): real { p.weight }
  function HeightOf(p: FitnessProfile): real { p.height }
  function BmiOf(p: FitnessProfile): real { p.bmi }
  function BodyFatOf(p: FitnessProfile): real { p.bodyFatPercentage }
  function DurationOf(p: FitnessProfile): real { p.durationMinutes as real }
  function CaloriesOf(p: FitnessProfile): real { p.caloriesBurned as real }
  function SleepOf(p: FitnessProfile): real { p.sleepHours }
  function WaterOf(p: FitnessProfile): real { p.waterIntakeLiters }
  function StepsOf(p: FitnessProfile): real { p.stepsDaily as real }
  function StressOf(p: FitnessProfile): real { p.stressLevel as real }
  function GenderOf(p: FitnessProfile): string { p.gender }
  function CityOf(p: FitnessProfile): string { p.city }
  function ExerciseTypeOf(p: FitnessProfile): string { p.exerciseType }
  function GoalOf(p: FitnessProfile): string { p.goal }
  function LevelOf(p: FitnessProfile): string { p.fitnessLevel }
  function DietOf(p: FitnessProfile): string { p.dietType }

  // ---------------------------------------------------------------------------
  // Breakdowns

  function Same(s: string): string { s }
  function EntryKey(e: Entry): string { e.key }
  function EntryCount(e: Entry): int { e.count }
  function StatType(s: ExerciseStat): string { s.exerciseType }
  function StatPercentage(s: ExerciseStat): int { s.percentage }
  function ShareCategory(s: Share): string { s.category }
  function SharePercentage(s: Share): int { s.percentage }

  /** The number of occurrences of a value. */
  function CountIn(values: seq<string>): string -> int {
    v => multiset(values)[v]
  }

  /** The counts-object entry of a value. */
  function TallyEntry(values: seq<string>): string -> Entry {
    v => Entry(v, multiset(values)[v])
  }

  /** The breakdown item of a value: its share of `total` records. */
  function ShareMaker(values: seq<string>, total: int): string -> Share {
    c => Share(c, Percentage(multiset(values)[c], total))
  }

  /** The statistics of one exercise type, averaged over the records of that type only. */
  function ExerciseStatFor(ps: seq<FitnessProfile>, t: string): ExerciseStat {
    var typed := Where(ps, ExerciseTypeOf, t);
    ExerciseStat(t, Percentage(multiset(Project(ps, ExerciseTypeOf))[t], |ps|),
                 Avg(Project(typed, CaloriesOf)), Avg(Project(typed, DurationOf)))
  }

  function ExerciseStatMaker(ps: seq<FitnessProfile>): string -> ExerciseStat {
    t => ExerciseStatFor(ps, t)
  }

  /** Position of an item's category among the first occurrences in `values`. */
  function FirstRank<T>(values: seq<string>, cat: T -> string): T -> int {
    x => FirstIndex(values, cat(x))
  }

  function MinLen(n: nat, m: nat): nat { if n < m then n else m }

  /** `l` holds `mk(c)` for every distinct value `c` of `values`, in first-occurrence order. */
  ghost predicate PerCategory<T>(values: seq<string>, l: seq<T>, cat: T -> string, mk: string -> T) {
    |l| == |Distinct(values)| &&
    forall i :: 0 <= i < |l| ==> cat(l[i]) == Distinct(values)[i] && l[i] == mk(Distinct(values)[i])
  }

  /**
   * `xs` is a top-`n` breakdown of `values`: one item `mk(c)` per category `c`
   * for the first `n` categories (or all, when fewer), in non-increasing
   * `score`, ties in order of first occurrence, no category left out
   * scoring more than one kept, and a category left out that ties with a
   * kept one first occurring after it.
   */
  ghost predicate RankedTop<T>(values: seq<string>, xs: seq<T>, n: nat,
                               cat: T -> string, mk: string -> T, score: T -> int) {
    && |xs| == MinLen(n, |Distinct(values)|)
    && (forall i :: 0 <= i < |xs| ==> cat(xs[i]) in values && xs[i] == mk(cat(xs[i])))
    && (forall i, j :: 0 <= i < j < |xs| ==> cat(xs[i]) != cat(xs[j]))
    && SortedDesc(xs, score)
    && StableBy(xs, score, FirstRank(values, cat))
    && (forall v, i :: v in values && v !in Project(xs, cat) && 0 <= i < |xs| ==>
          score(mk(v)) <= score(xs[i]))
    && (forall v, i :: (v in values && v !in Project(xs, cat) && 0 <= i < |xs| &&
                        score(mk(v)) == score(xs[i])) ==>
          FirstIndex(values, cat(xs[i])) < FirstIndex(values, v))
  }

  /** Every item of the sorted list is the item of its own category, a category of `values`. */
  lemma SortedItems<T>(values: seq<string>, l: seq<T>, cat: T -> string, mk: string -> T, score: T -> int)
    requires PerCategory(values, l, cat, mk)
    ensures forall i :: 0 <= i < |SortDesc(l, score)| ==>
      cat(SortDesc(l, score)[i]) in values && SortDesc(l, score)[i] == mk(cat(SortDesc(l, score)[i]))
    ensures forall i, j :: 0 <= i < j < |SortDesc(l, score)| ==>
      cat(SortDesc(l, score)[i]) != cat(SortDesc(l, score)[j])
  {
    var d := Distinct(values);
    var sorted := SortDesc(l, score);
    forall i | 0 <= i < |sorted|
      ensures cat(sorted[i]) in values && sorted[i] == mk(cat(sorted[i]))
    {
      assert sorted[i] in multiset(sorted);
      assert sorted[i] in l;
      var m :| 0 <= m < |l| && sorted[i] == l[m];
      assert d[m] in d;
    }
    assert NoRepeats(l);
    NoRepeatsPermutation(sorted, l);
  }

  /** Ties in the sorted list are in order of first occurrence. */
  lemma SortedTies<T>(values: seq<string>, l: seq<T>, cat: T -> string, mk: string -> T, score: T -> int)
    requires PerCategory(values, l, cat, mk)
    ensures StableBy(SortDesc(l, score), score, FirstRank(values, cat))
  {
    DistinctOrder(values);
    assert RankIncreasing(l, FirstRank(values, cat));
    SortDescStable(l, score, FirstRank(values, cat));
  }

  /** A category outside the first `k` sorted items scores no more than any of them. */
  lemma SortedCutoff<T>(values: seq<string>, l: seq<T>, k: nat, cat: T -> string, mk: string -> T, score: T -> int)
    requires PerCategory(values, l, cat, mk)
    requires k <= |l|
    ensures forall v, i :: v in values && v !in Project(SortDesc(l, score)[..k], cat) && 0 <= i < k ==>
      score(mk(v)) <= score(SortDesc(l, score)[i])
  {
    var d := Distinct(values);
    var sorted := SortDesc(l, score);
    forall v, i | v in values && v !in Project(sorted[..k], cat) && 0 <= i < k
      ensures score(mk(v)) <= score(sorted[i])
    {
      var m :| 0 <= m < |d| && d[m] == v;
      assert l[m] in multiset(sorted);
      var p :| 0 <= p < |sorted| && sorted[p] == l[m];
      assert cat(sorted[p]) == v;
      assert p >= k by {
        assert forall q :: 0 <= q < k ==> Project(sorted[..k], cat)[q] == cat(sorted[q]);
      }
    }
  }

  /** A category outside the first `k` sorted items that ties with one of them first occurs after it. */
  lemma SortedCutoffTies<T>(values: seq<string>, l: seq<T>, k: nat, cat: T -> string, mk: string -> T, score: T -> int)
    requires PerCategory(values, l, cat, mk)
    requires k <= |l|
    ensures forall v, i :: (v in values && v !in Project(SortDesc(l, score)[..k], cat) && 0 <= i < k &&
                            score(mk(v)) == score(SortDesc(l, score)[i])) ==>
      FirstIndex(values, cat(SortDesc(l, score)[i])) < FirstIndex(values, v)
  {
    var d := Distinct(values);
    var sorted := SortDesc(l, score);
    SortedTies(values, l, cat, mk, score);
    forall v, i | v in values && v !in Project(sorted[..k], cat) && 0 <= i < k && score(mk(v)) == score(sorted[i])
      ensures FirstIndex(values, cat(sorted[i])) < FirstIndex(values, v)
    {
      var m :| 0 <= m < |d| && d[m] == v;
      assert l[m] in multiset(sorted);
      var p :| 0 <= p < |sorted| && sorted[p] == l[m];
      assert sorted[p] == mk(v) && cat(sorted[p]) == v;
      assert p >= k by {
        assert forall q :: 0 <= q < k ==> Project(sorted[..k], cat)[q] == cat(sorted[q]);
      }
      assert FirstRank(values, cat)(sorted[i]) < FirstRank(values, cat)(sorted[p]);
    }
  }

  /** `Object.entries(...).sort(...).slice(0, n)` over a per-category list is a top-`n` breakdown. */
  lemma RankedTopOfSorted<T>(values: seq<string>, l: seq<T>, n: nat,
                             cat: T -> string, mk: string -> T, score: T -> int)
    requires PerCategory(values, l, cat, mk)
    ensures RankedTop(values, SliceTo(SortDesc(l, score), n), n, cat, mk, score)
  {
    var sorted := SortDesc(l, score);
    var xs := SliceTo(sorted, n);
    SortedItems(values, l, cat, mk, score);
    SortedTies(values, l, cat, mk, score);
    SortedCutoff(values, l, |xs|, cat, mk, score);
    SortedCutoffTies(values, l, |xs|, cat, mk, score);
    assert xs == sorted[..|xs|];
  }

  /** The keys of a top-`n` list of counts-object entries are a top-`n` list of values by count. */
  lemma RankedTopKeys(values: seq<string>, es: seq<Entry>, n: nat)
    requires RankedTop(values, es, n, EntryKey, TallyEntry(values), EntryCount)
    ensures RankedTop(values, Keys(es), n, Same, Same, CountIn(values))
  {
    KeysMatchEntries(values, es, n);
    KeysOrder(values, es, n);
    KeysCutoff(values, es, n);
  }

  lemma KeysMatchEntries(values: seq<string>, es: seq<Entry>, n: nat)
    requires RankedTop(values, es, n, EntryKey, TallyEntry(values), EntryCount)
    ensures forall i :: 0 <= i < |es| ==>
      Keys(es)[i] in values && CountIn(values)(Keys(es)[i]) == EntryCount(es[i])
      && FirstRank(values, Same)(Keys(es)[i]) == FirstRank(values, EntryKey)(es[i])
  {
    var ks := Keys(es);
    forall i | 0 <= i < |es|
      ensures ks[i] in values && CountIn(values)(ks[i]) == EntryCount(es[i])
      ensures FirstRank(values, Same)(ks[i]) == FirstRank(values, EntryKey)(es[i])
    {
      assert es[i] == TallyEntry(values)(EntryKey(es[i]));
      assert Same(ks[i]) == EntryKey(es[i]);
    }
  }

  lemma KeysOrder(values: seq<string>, es: seq<Entry>, n: nat)
    requires RankedTop(values, es, n, EntryKey, TallyEntry(values), EntryCount)
    ensures SortedDesc(Keys(es), CountIn(values))
    ensures StableBy(Keys(es), CountIn(values), FirstRank(values, Same))
  {
    KeysMatchEntries(values, es, n);
  }

  lemma KeysCutoff(values: seq<string>, es: seq<Entry>, n: nat)
    requires RankedTop(values, es, n, EntryKey, TallyEntry(values), EntryCount)
    ensures forall v, i :: v in values && v !in Project(Keys(es), Same) && 0 <= i < |es| ==>
      CountIn(values)(Same(v)) <= CountIn(values)(Keys(es)[i])
    ensures forall v, i :: (v in values && v !in Project(Keys(es), Same) && 0 <= i < |es| &&
                            CountIn(values)(Same(v)) == CountIn(values)(Keys(es)[i])) ==>
      FirstIndex(values, Same(Keys(es)[i])) < FirstIndex(values, v)
  {
    KeysMatchEntries(values, es, n);
    assert Project(Keys(es), Same) == Project(es, EntryKey);
    forall v | v in values
      ensures CountIn(values)(Same(v)) == EntryCount(TallyEntry(values)(v))
    {
    }
  }

  /** The breakdown items of a counts object, `{ category, percentage(count) }` in entry order. */
  function SharesOf(es: seq<Entry>, total: int): (r: seq<Share>)
    ensures |r| == |es|
  {
    seq(|es|, i requires 0 <= i < |es| => Share(es[i].key, Percentage(es[i].count, total)))
  }

  lemma SharesPerCategory(values: seq<string>, total: int)
    ensures PerCategory(values, SharesOf(Tally.Tally(values), total), ShareCategory, ShareMaker(values, total))
  {
  }

  lemma {:induction false} CountAtMostLength(s: seq<string>, x: string)
    ensures multiset(s)[x] <= |s|
  {
    if s != [] {
      assert s == s[..|s| - 1] + [s[|s| - 1]];
      CountAtMostLength(s[..|s| - 1], x);
    }
  }

  /** Every share of a category of the records is a percentage between 0 and 100. */
  lemma SharesBounded<T>(values: seq<string>, xs: seq<T>, cat: T -> string, pct: T -> int, mk: string -> T)
    requires forall i :: 0 <= i < |xs| ==> cat(xs[i]) in values && xs[i] == mk(cat(xs[i]))
    requires forall c :: pct(mk(c)) == Percentage(multiset(values)[c], |values|)
    ensures forall i :: 0 <= i < |xs| ==> 0 <= pct(xs[i]) <= 100
  {
    forall i | 0 <= i < |xs|
      ensures 0 <= pct(xs[i]) <= 100
    {
      CountAtMostLength(values, cat(xs[i]));
    }
  }

  /** The sum of the percentages of a breakdown. */
  function SumPercentages(xs: seq<Share>): int {
    if xs == [] then 0 else SumPercentages(xs[..|xs| - 1]) + xs[|xs| - 1].percentage
  }

  lemma {:induction false} SumPercentagesCons(x: Share, s: seq<Share>)
    ensures SumPercentages([x] + s) == x.percentage + SumPercentages(s)
  {
    var t := [x] + s;
    if s == [] {
      assert t[..0] == [];
    } else {
      assert t[..|t| - 1] == [x] + s[..|s| - 1];
      SumPercentagesCons(x, s[..|s| - 1]);
    }
  }

  lemma {:induction false} InsertSum(x: Share, s: seq<Share>, key: Share -> int)
    ensures SumPercentages(Insert(x, s, key)) == x.percentage + SumPercentages(s)
  {
    if s == [] || key(x) >= key(s[0]) {
      SumPercentagesCons(x, s);
    } else {
      assert s == [s[0]] + s[1..];
      InsertSum(x, s[1..], key);
      SumPercentagesCons(s[0], Insert(x, s[1..], key));
      SumPercentagesCons(s[0], s[1..]);
    }
  }

  /** Sorting a breakdown keeps the sum of its percentages. */
  lemma {:induction false} SortSum(s: seq<Share>, key: Share -> int)
    ensures SumPercentages(SortDesc(s, key)) == SumPercentages(s)
  {
    if s != [] {
      assert s == [s[0]] + s[1..];
      SortSum(s[1..], key);
      InsertSum(s[0], SortDesc(s[1..], key), key);
      SumPercentagesCons(s[0], s[1..]);
    }
  }

  /** `Percentage` scaled by `2 * total`: the rounding moves it by at most half a point. */
  lemma PercentageScaled(count: int, total: int)
    requires total > 0
    ensures 200 * count - total < 2 * total * Percentage(count, total) <= 200 * count + total
  {
    var t := total as real;
    var c := count as real;
    var p := Percentage(count, total) as real;
    var x := 100.0 * c / t;
    assert x - 0.5 < p <= x + 0.5;
    RealScaled(p, x, t, 100.0 * c);
    IntScaled(total, Percentage(count, total));
  }

  /** A value within half of `a / t`, times `t`, is within half a `t` of `a`. */
  lemma RealScaled(p: real, x: real, t: real, a: real)
    requires t > 0.0 && x == a / t && x - 0.5 < p <= x + 0.5
    ensures a - 0.5 * t < p * t <= a + 0.5 * t
  {
    var pt := p * t;
    var xt := x * t;
    assert xt == a;
    var d := p - x;
    ScaleError(d, t);
    assert d * t == pt - xt;
  }

  lemma ScaleError(e: real, t: real)
    requires -0.5 < e <= 0.5 && t > 0.0
    ensures -0.5 * t < e * t <= 0.5 * t
  {
    ProductSigns(e + 0.5, 0.5 - e, t);
    assert (e + 0.5) * t == e * t + 0.5 * t;
    assert (0.5 - e) * t == 0.5 * t - e * t;
  }

  lemma ProductSigns(u: real, v: real, t: real)
    requires u > 0.0 && v >= 0.0 && t > 0.0
    ensures u * t > 0.0 && v * t >= 0.0
  {
  }

  lemma IntScaled(total: int, r: int)
    ensures (2 * total * r) as real == 2.0 * ((r as real) * (total as real))
  {
  }

  /** The rounded shares of entries add up to their exact shares, give or take half a point each. */
  lemma {:induction false} SharesSum(es: seq<Entry>, total: int)
    requires total > 0
    ensures 200 * SumCounts(es) - |es| * total <= 2 * total * SumPercentages(SharesOf(es, total))
      <= 200 * SumCounts(es) + |es| * total
    ensures es != [] ==> 200 * SumCounts(es) - |es| * total < 2 * total * SumPercentages(SharesOf(es, total))
  {
    if es != [] {
      var n := |es|;
      var xs := SharesOf(es, total);
      var init := es[..n - 1];
      SharesSum(init, total);
      assert xs[..n - 1] == SharesOf(init, total);
      var c := es[n - 1].count;
      PercentageScaled(c, total);
      var before := SumPercentages(SharesOf(init, total));
      var last := Percentage(c, total);
      assert SumCounts(es) == SumCounts(init) + c;
      assert xs[n - 1].percentage == last;
      assert SumPercentages(xs) == before + last;
      MulAdd(2 * total, before, last);
      MulAdd(total, n - 1, 1);
      assert |init| * total + total == n * total;
    }
  }

  lemma MulAdd(k: int, a: int, b: int)
    ensures k * (a + b) == k * a + k * b
    ensures (a + b) * k == a * k + b * k
  {
  }

  /** Dividing the scaled bounds by the positive `t`. */
  lemma CancelBounds(t: int, n: int, sum: int)
    requires t > 0
    requires 200 * t - n * t < 2 * t * sum <= 200 * t + n * t
    ensures 200 - n < 2 * sum <= 200 + n
  {
    if 2 * sum <= 200 - n {
      ScaleAtMost(2 * sum, 200 - n, t);
    }
    if 2 * sum > 200 + n {
      ScaleAtMost(200 + n + 1, 2 * sum, t);
    }
  }

  lemma ScaleAtMost(a: int, b: int, t: int)
    requires a <= b && t > 0
    ensures a * t <= b * t
  {
    assert b * t - a * t == (b - a) * t;
  }

  /**
   * The percentages of a breakdown of non-empty `values` add up to 100, give
   * or take half a point per category.
   */
  lemma BreakdownSum(values: seq<string>)
    requires values != []
    ensures 200 - |Tally.Tally(values)| < 2 * SumPercentages(SharesOf(Tally.Tally(values), |values|))
      <= 200 + |Tally.Tally(values)|
  {
    var es := Tally.Tally(values);
    assert values[0] in Distinct(values);
    TallySum(values);
    SharesSum(es, |values|);
    CancelBounds(|values|, |es|, SumPercentages(SharesOf(es, |values|)));
  }

  // ---------------------------------------------------------------------------
  // computeStatistics

  /** `topCities`: the ten most frequent cities, by count. */
  method TopCities(profiles: seq<FitnessProfile>) returns (top: seq<string>)
    ensures RankedTop(Project(profiles, CityOf), top, 10, Same, Same, CountIn(Project(profiles, CityOf)))
  {
    var cities := Project(profiles, CityOf);
    var cityCounts := CountBy(cities);
    var topEntries := SliceTo(SortDesc(cityCounts, EntryCount), 10);
    RankedTopOfSorted(cities, cityCounts, 10, EntryKey, TallyEntry(cities), EntryCount);
    RankedTopKeys(cities, topEntries, 10);
    top := Keys(topEntries);
  }

  /** `exerciseStats.slice(0, 10)`: the ten most frequent exercise types with their averages. */
  method ExerciseTypes(profiles: seq<FitnessProfile>) returns (stats: seq<ExerciseStat>)
    ensures RankedTop(Project(profiles, ExerciseTypeOf), stats, 10,
                      StatType, ExerciseStatMaker(profiles), StatPercentage)
    ensures forall i :: 0 <= i < |stats| ==> 0 <= stats[i].percentage <= 100
  {
    var total := |profiles|;
    var types := Project(profiles, ExerciseTypeOf);
    var exerciseCounts := CountBy(types);
    var perType := seq(|exerciseCounts|, i requires 0 <= i < |exerciseCounts| =>
      var t := exerciseCounts[i].key;
      var typed := Where(profiles, ExerciseTypeOf, t);
      ExerciseStat(t, Percentage(exerciseCounts[i].count, total),
                   Avg(Project(typed, CaloriesOf)), Avg(Project(typed, DurationOf))));
    assert PerCategory(types, perType, StatType, ExerciseStatMaker(profiles));
    stats := SliceTo(SortDesc(perType, StatPercentage), 10);
    RankedTopOfSorted(types, perType, 10, StatType, ExerciseStatMaker(profiles), StatPercentage);
    SharesBounded(types, stats, StatType, StatPercentage, ExerciseStatMaker(profiles));
  }

  /** `goals` and `dietTypes`: every category with its percentage, most frequent first. */
  method RankedShares(values: seq<string>) returns (shares: seq<Share>)
    ensures RankedTop(values, shares, |Distinct(values)|, ShareCategory, ShareMaker(values, |values|), SharePercentage)
    ensures forall i :: 0 <= i < |shares| ==> 0 <= shares[i].percentage <= 100
    ensures values != [] ==> 200 - |shares| < 2 * SumPercentages(shares) <= 200 + |shares|
  {
    var counts := CountBy(values);
    var unsorted := SharesOf(counts, |values|);
    shares := SortDesc(unsorted, SharePercentage);
    SortSum(unsorted, SharePercentage);
    if values != [] {
      BreakdownSum(values);
    }
    SharesPerCategory(values, |values|);
    RankedTopOfSorted(values, unsorted, |counts|, ShareCategory, ShareMaker(values, |values|), SharePercentage);
    assert SliceTo(shares, |counts|) == shares;
    SharesBounded(values, shares, ShareCategory, SharePercentage, ShareMaker(values, |values|));
  }

  /** `fitnessLevels`: every category with its percentage, in order of first occurrence. */
  method FirstOccurrenceShares(values: seq<string>) returns (shares: seq<Share>)
    ensures PerCategory(values, shares, ShareCategory, ShareMaker(values, |values|))
    ensures forall i :: 0 <= i < |shares| ==> 0 <= shares[i].percentage <= 100
    ensures values != [] ==> 200 - |shares| < 2 * SumPercentages(shares) <= 200 + |shares|
  {
    var counts := CountBy(values);
    shares := SharesOf(counts, |values|);
    if values != [] {
      BreakdownSum(values);
    }
    SharesPerCategory(values, |values|);
    assert forall i :: 0 <= i < |shares| ==> shares[i].category == Distinct(values)[i];
    SharesBounded(values, shares, ShareCategory, SharePercentage, ShareMaker(values, |values|));
  }

  /** The demographics part: age range, gender percentages and top cities. */
  ghost predicate DemographicsOf(profiles: seq<FitnessProfile>, d: Demographics) {
    && d.ageRange == RangeOf(Project(profiles, AgeOf))
    && d.gender == GenderSplit(Percentage(|Where(profiles, GenderOf, "M")|, |profiles|),
                               Percentage(|Where(profiles, GenderOf, "F")|, |profiles|))
    && 0 <= d.gender.male <= 100 && 0 <= d.gender.female <= 100
    && RankedTop(Project(profiles, CityOf), d.topCities, 10, Same, Same, CountIn(Project(profiles, CityOf)))
  }

  method ComputeDemographics(profiles: seq<FitnessProfile>) returns (d: Demographics)
    ensures DemographicsOf(profiles, d)
  {
    var total := |profiles|;
    var males := |Where(profiles, GenderOf, "M")|;
    var females := |Where(profiles, GenderOf, "F")|;
    WhereCount(profiles, GenderOf, "M");
    WhereCount(profiles, GenderOf, "F");
    CountAtMostLength(Project(profiles, GenderOf), "M");
    CountAtMostLength(Project(profiles, GenderOf), "F");
    var topCities := TopCities(profiles);
    d := Demographics(RangeOf(Project(profiles, AgeOf)),
                      GenderSplit(Percentage(males, total), Percentage(females, total)),
                      topCities);
  }

  /** The range of a column bounds the column's value in every profile. */
  lemma RangeCovers(profiles: seq<FitnessProfile>, f: FitnessProfile -> real)
    ensures forall i :: 0 <= i < |profiles| ==>
      RangeOf(Project(profiles, f)).min <= f(profiles[i]) <= RangeOf(Project(profiles, f)).max
  {
    var xs := Project(profiles, f);
    forall i | 0 <= i < |profiles|
      ensures RangeOf(xs).min <= f(profiles[i]) <= RangeOf(xs).max
    {
      assert xs[i] == f(profiles[i]);
    }
  }

  /**
   * The body-metrics part: the weight, height and BMI ranges of all
   * profiles, which bound every profile, and the body-fat averages of the
   * "M" and "F" records, 0 when there are none, to one decimal place.
   */
  function BodyMetricsOf(profiles: seq<FitnessProfile>): (r: BodyMetrics)
    ensures forall i :: 0 <= i < |profiles| ==>
      && r.weight.min <= profiles[i].weight <= r.weight.max
      && r.height.min <= profiles[i].height <= r.height.max
      && r.bmi.min <= profiles[i].bmi <= r.bmi.max
    ensures Where(profiles, GenderOf, "M") == [] ==> r.bodyFat.maleAvg == 0.0
    ensures Where(profiles, GenderOf, "F") == [] ==> r.bodyFat.femaleAvg == 0.0
    ensures OnTenths(r.bodyFat.maleAvg)
    ensures OnTenths(r.bodyFat.femaleAvg)
    ensures r.weight == RangeOf(Project(profiles, WeightOf))
    ensures r.height == RangeOf(Project(profiles, HeightOf))
    ensures r.bmi == RangeOf(Project(profiles, BmiOf))
    ensures r.bodyFat.maleAvg == Avg(Project(Where(profiles, GenderOf, "M"), BodyFatOf))
    ensures r.bodyFat.femaleAvg == Avg(Project(Where(profiles, GenderOf, "F"), BodyFatOf))
  {
    RangeCovers(profiles, WeightOf);
    RangeCovers(profiles, HeightOf);
    RangeCovers(profiles, BmiOf);
    var male := Avg(Project(Where(profiles, GenderOf, "M"), BodyFatOf));
    var female := Avg(Project(Where(profiles, GenderOf, "F"), BodyFatOf));
    BodyMetrics(
      RangeOf(Project(profiles, WeightOf)), RangeOf(Project(profiles, HeightOf)), RangeOf(Project(profiles, BmiOf)),
      BodyFat(male, female))
  }

  /**
   * The lifestyle part: the sleep and water ranges of all profiles, which
   * bound every profile, the steps average rounded again to a whole number
   * (so within 0.55 of the mean), the stress average, and 0 for the
   * averages of no records.
   */
  function LifestyleOf(profiles: seq<FitnessProfile>): (r: Lifestyle)
    ensures forall i :: 0 <= i < |profiles| ==>
      && r.sleep.min <= profiles[i].sleepHours <= r.sleep.max
      && r.water.min <= profiles[i].waterIntakeLiters <= r.water.max
    ensures profiles != [] ==>
      Mean(Project(profiles, StepsOf)) - 0.55 < r.stepsAvg as real <= Mean(Project(profiles, StepsOf)) + 0.55
    ensures profiles == [] ==> r.stepsAvg == 0 && r.stressAvg == 0.0
    ensures r.sleep == RangeOf(Project(profiles, SleepOf))
    ensures r.water == RangeOf(Project(profiles, WaterOf))
    ensures r.stepsAvg == Round(Avg(Project(profiles, StepsOf)))
    ensures r.stressAvg == Avg(Project(profiles, StressOf))
  {
    RangeCovers(profiles, SleepOf);
    RangeCovers(profiles, WaterOf);
    Lifestyle(RangeOf(Project(profiles, SleepOf)), RangeOf(Project(profiles, WaterOf)),
              Round(Avg(Project(profiles, StepsOf))), Avg(Project(profiles, StressOf)))
  }

  /** The exercise part: the top ten types and the overall averages. */
  ghost predicate ExerciseOf(profiles: seq<FitnessProfile>, e: ExerciseSummary) {
    && RankedTop(Project(profiles, ExerciseTypeOf), e.types, 10, StatType, ExerciseStatMaker(profiles), StatPercentage)
    && (forall i :: 0 <= i < |e.types| ==> 0 <= e.types[i].percentage <= 100)
    && e.avgDuration == Avg(Project(profiles, DurationOf))
    && e.avgCalories == Avg(Project(profiles, CaloriesOf))
  }

  /** The goal, fitness level and diet breakdowns. */
  ghost predicate BreakdownsOf(profiles: seq<FitnessProfile>, goals: seq<Share>, levels: seq<Share>, diets: seq<Share>) {
    var g, l, d := Project(profiles, GoalOf), Project(profiles, LevelOf), Project(profiles, DietOf);
    && RankedTop(g, goals, |Distinct(g)|, ShareCategory, ShareMaker(g, |profiles|), SharePercentage)
    && (forall i :: 0 <= i < |goals| ==> 0 <= goals[i].percentage <= 100)
    && PerCategory(l, levels, ShareCategory, ShareMaker(l, |profiles|))
    && (forall i :: 0 <= i < |levels| ==> 0 <= levels[i].percentage <= 100)
    && RankedTop(d, diets, |Distinct(d)|, ShareCategory, ShareMaker(d, |profiles|), SharePercentage)
    && (forall i :: 0 <= i < |diets| ==> 0 <= diets[i].percentage <= 100)
    && (profiles != [] ==>
          && 200 - |goals| < 2 * SumPercentages(goals) <= 200 + |goals|
          && 200 - |levels| < 2 * SumPercentages(levels) <= 200 + |levels|
          && 200 - |diets| < 2 * SumPercentages(diets) <= 200 + |diets|)
  }

  method ComputeBreakdowns(profiles: seq<FitnessProfile>) returns (goals: seq<Share>, levels: seq<Share>, diets: seq<Share>)
    ensures BreakdownsOf(profiles, goals, levels, diets)
  {
    goals := RankedShares(Project(profiles, GoalOf));
    levels := FirstOccurrenceShares(Project(profiles, LevelOf));
    diets := RankedShares(Project(profiles, DietOf));
  }

  method ComputeExercise(profiles: seq<FitnessProfile>) returns (e: ExerciseSummary)
    ensures ExerciseOf(profiles, e)
  {
    var types := ExerciseTypes(profiles);
    e := ExerciseSummary(types, Avg(Project(profiles, DurationOf)), Avg(Project(profiles, CaloriesOf)));
  }

  method ComputeStatistics(profiles: seq<FitnessProfile>) returns (stats: DatasetStats)
    ensures stats.totalRecords == |profiles|
    ensures DemographicsOf(profiles, stats.demographics)
    ensures stats.bodyMetrics == BodyMetricsOf(profiles)
    ensures ExerciseOf(profiles, stats.exercise)
    ensures stats.lifestyle == LifestyleOf(profiles)
    ensures BreakdownsOf(profiles, stats.goals, stats.fitnessLevels, stats.dietTypes)
  {
    var demographics := ComputeDemographics(profiles);
    var exercise := ComputeExercise(profiles);
    var goals, fitnessLevels, dietTypes := ComputeBreakdowns(profiles);
    stats := DatasetStats(
      totalRecords := |profiles|,
      demographics := demographics,
      bodyMetrics := BodyMetricsOf(profiles),
      exercise := exercise,
      lifestyle := LifestyleOf(profiles),
      goals := goals,
      fitnessLevels := fitnessLevels,
      dietTypes := dietTypes);
  }
}
