/**
 * The record loader of lib/dataset.ts: CSV text is trimmed and split into
 * lines, the header line fixes the minimum number of fields per row, and each
 * wide-enough data line becomes a `FitnessProfile` read column by column.
 */
module Dataset {
  import opened Wrappers
  import opened JsText

  /** One historical profile; fields in column order 0-25 of the CSV. */
  datatype FitnessProfile = FitnessProfile(
    id: int,
    name: string,
    age: int,
    gender: string,
    city: string,
    occupation: string,
    dietType: string,
    gymMembership: bool,
    weight: real,
    height: real,
    bmi: real,
    bodyFatPercentage: real,
    exerciseType: string,
    durationMinutes: int,
    caloriesBurned: int,
    heartRateAvg: int,
    restingHeartRate: int,
    stepsDaily: int,
    sleepHours: real,
    waterIntakeLiters: real,
    workoutFrequencyWeekly: int,
    fitnessLevel: string,
    goal: string,
    stressLevel: int,
    weeklyCheatMeals: int,
    healthScore: int)

  /** Column `k` of a row; a column past the end of the row reads as "". */
  function Column(values: seq<string>, k: nat): string {
    if k < |values| then values[k] else ""
  }

  /**
   * The profile built from the fields of data line `i` (1-based among data
   * lines). Its id is never 0 for a data line, and the membership flag is set
   * exactly for the text "Yes".
   */
  function RowToProfile(values: seq<string>, i: int): (p: FitnessProfile)
    ensures i != 0 ==> p.id != 0
    ensures ParseInt(Column(values, 0)) == None || ParseInt(Column(values, 0)) == Some(0) ==> p.id == i
    ensures p.gymMembership <==> Column(values, 7) == "Yes"
  {
    FitnessProfile(
      id := ParseIntOr(Column(values, 0), i),
      name := Column(values, 1),
      age := ParseIntOr(Column(values, 2), 0),
      gender := Column(values, 3),
      city := Column(values, 4),
      occupation := Column(values, 5),
      dietType := Column(values, 6),
      gymMembership := Column(values, 7) == "Yes",
      weight := FloatOrZero(Column(values, 8)),
      height := FloatOrZero(Column(values, 9)),
      bmi := FloatOrZero(Column(values, 10)),
      bodyFatPercentage := FloatOrZero(Column(values, 11)),
      exerciseType := Column(values, 12),
      durationMinutes := ParseIntOr(Column(values, 13), 0),
      caloriesBurned := ParseIntOr(Column(values, 14), 0),
      heartRateAvg := ParseIntOr(Column(values, 15), 0),
      restingHeartRate := ParseIntOr(Column(values, 16), 0),
      stepsDaily := ParseIntOr(Column(values, 17), 0),
      sleepHours := FloatOrZero(Column(values, 18)),
      waterIntakeLiters := FloatOrZero(Column(values, 19)),
      workoutFrequencyWeekly := ParseIntOr(Column(values, 20), 0),
      fitnessLevel := Column(values, 21),
      goal := Column(values, 22),
      stressLevel := ParseIntOr(Column(values, 23), 0),
      weeklyCheatMeals := ParseIntOr(Column(values, 24), 0),
      healthScore := ParseIntOr(Column(values, 25), 0))
  }

  /** The lines of the file: `content.trim().split("\n")`. */
  function Lines(content: string): (lines: seq<string>)
    ensures |lines| >= 1
    ensures forall k :: 0 <= k < |lines| ==> '\n' !in lines[k]
    ensures Join(lines, '\n') == Trim(content)
  {
    SplitJoin(Trim(content), '\n');
    Split(Trim(content), '\n')
  }

  function Fields(line: string): seq<string> {
    Split(line, ',')
  }

  /** The number of header fields, the minimum a data line needs. */
  function HeaderWidth(lines: seq<string>): nat
    requires |lines| >= 1
  {
    |Fields(lines[0])|
  }

  /** Data line `j` has at least `width` fields. */
  predicate Wide(lines: seq<string>, width: nat, j: nat)
    requires j < |lines|
  {
    |Fields(lines[j])| >= width
  }

  /** The profiles of the data lines before line `n`, in line order. */
  function ParsedRows(lines: seq<string>, width: nat, n: nat): seq<FitnessProfile>
    requires n <= |lines|
  {
    if n <= 1 then []
    else
      ParsedRows(lines, width, n - 1) +
      (if Wide(lines, width, n - 1) then [RowToProfile(Fields(lines[n - 1]), n - 1)] else [])
  }

  /** `loadDataset`, reading the file's contents from `csvContent`. */
  method LoadDataset(csvContent: string) returns (profiles: seq<FitnessProfile>)
    ensures profiles == ParsedRows(Lines(csvContent), HeaderWidth(Lines(csvContent)), |Lines(csvContent)|)
    ensures |profiles| <= |Lines(csvContent)| - 1
  {
    var lines := Split(Trim(csvContent), '\n');
    var headers := Split(lines[0], ',');
    profiles := [];
    for i := 1 to |lines|
      invariant profiles == ParsedRows(lines, |headers|, i)
    {
      var values := Split(lines[i], ',');
      ParsedRowsStep(lines, |headers|, i);
      if |values| < |headers| {
        continue;
      }
      profiles := profiles + [RowToProfile(values, i)];
    }
    ParsedRowsLength(lines, |headers|, |lines|);
  }

  /** One more line read: its profile is appended when the line is wide enough. */
  lemma ParsedRowsStep(lines: seq<string>, width: nat, i: nat)
    requires 1 <= i < |lines|
    ensures Wide(lines, width, i) ==>
      ParsedRows(lines, width, i + 1) == ParsedRows(lines, width, i) + [RowToProfile(Fields(lines[i]), i)]
    ensures !Wide(lines, width, i) ==> ParsedRows(lines, width, i + 1) == ParsedRows(lines, width, i)
  {
  }

  /** At most one profile per data line. */
  lemma {:induction false} ParsedRowsLength(lines: seq<string>, width: nat, n: nat)
    requires 1 <= n <= |lines|
    ensures |ParsedRows(lines, width, n)| <= n - 1
  {
    if n > 1 {
      ParsedRowsLength(lines, width, n - 1);
    }
  }

  /** The indices of the data lines before line `n` that are wide enough. */
  ghost function KeptLines(lines: seq<string>, width: nat, n: nat): seq<nat>
    requires n <= |lines|
  {
    if n <= 1 then []
    else KeptLines(lines, width, n - 1) + (if Wide(lines, width, n - 1) then [n - 1] else [])
  }

  /** The kept line indices are increasing data-line indices and are exactly the wide lines. */
  lemma KeptLinesAreWideLines(lines: seq<string>, width: nat, n: nat)
    requires n <= |lines|
    ensures forall k :: 0 <= k < |KeptLines(lines, width, n)| ==>
      1 <= KeptLines(lines, width, n)[k] < n && Wide(lines, width, KeptLines(lines, width, n)[k])
    ensures forall k, l :: 0 <= k < l < |KeptLines(lines, width, n)| ==>
      KeptLines(lines, width, n)[k] < KeptLines(lines, width, n)[l]
    ensures forall j :: 1 <= j < n && Wide(lines, width, j) ==> j in KeptLines(lines, width, n)
  {
    KeptLinesWide(lines, width, n);
    KeptLinesIncreasing(lines, width, n);
  }

  lemma {:induction false} KeptLinesWide(lines: seq<string>, width: nat, n: nat)
    requires n <= |lines|
    ensures forall k :: 0 <= k < |KeptLines(lines, width, n)| ==>
      1 <= KeptLines(lines, width, n)[k] < n && Wide(lines, width, KeptLines(lines, width, n)[k])
    ensures forall j :: 1 <= j < n && Wide(lines, width, j) ==> j in KeptLines(lines, width, n)
  {
    if n > 1 {
      KeptLinesWide(lines, width, n - 1);
      var ks0 := KeptLines(lines, width, n - 1);
      var ks := KeptLines(lines, width, n);
      if Wide(lines, width, n - 1) {
        assert ks == ks0 + [n - 1];
      } else {
        assert ks == ks0;
      }
    }
  }

  lemma {:induction false} KeptLinesIncreasing(lines: seq<string>, width: nat, n: nat)
    requires n <= |lines|
    ensures forall k, l :: 0 <= k < l < |KeptLines(lines, width, n)| ==>
      KeptLines(lines, width, n)[k] < KeptLines(lines, width, n)[l]
  {
    if n > 1 {
      KeptLinesIncreasing(lines, width, n - 1);
      KeptLinesWide(lines, width, n - 1);
      var ks0 := KeptLines(lines, width, n - 1);
      var ks := KeptLines(lines, width, n);
      if Wide(lines, width, n - 1) {
        assert ks == ks0 + [n - 1];
        forall k, l | 0 <= k < l < |ks|
          ensures ks[k] < ks[l]
        {
          assert ks[k] == ks0[k];
          if l < |ks0| {
            assert ks[l] == ks0[l];
          }
        }
      } else {
        assert ks == ks0;
      }
    }
  }

  /** The k-th profile is the k-th kept line read at its own line index. */
  lemma {:induction false} RowsFromKeptLines(lines: seq<string>, width: nat, n: nat)
    requires n <= |lines|
    ensures |KeptLines(lines, width, n)| == |ParsedRows(lines, width, n)|
    ensures forall k :: 0 <= k < |KeptLines(lines, width, n)| ==>
      KeptLines(lines, width, n)[k] < |lines| &&
      ParsedRows(lines, width, n)[k] ==
        RowToProfile(Fields(lines[KeptLines(lines, width, n)[k]]), KeptLines(lines, width, n)[k])
  {
    if n > 1 {
      RowsFromKeptLines(lines, width, n - 1);
      var ks0, ps0 := KeptLines(lines, width, n - 1), ParsedRows(lines, width, n - 1);
      var ks, ps := KeptLines(lines, width, n), ParsedRows(lines, width, n);
      if Wide(lines, width, n - 1) {
        var last := RowToProfile(Fields(lines[n - 1]), n - 1);
        assert ks == ks0 + [n - 1];
        assert ps == ps0 + [last];
        forall k | 0 <= k < |ks|
          ensures ks[k] < |lines| && ps[k] == RowToProfile(Fields(lines[ks[k]]), ks[k])
        {
          if k < |ks0| {
            assert ks[k] == ks0[k] && ps[k] == ps0[k];
          } else {
            assert ks[k] == n - 1 && ps[k] == last;
          }
        }
      } else {
        assert ks == ks0 && ps == ps0;
      }
    }
  }

  /** A data line narrower than the header yields no profile. */
  lemma NarrowLinesDropped(lines: seq<string>, width: nat, n: nat, j: nat)
    requires 1 <= j < n <= |lines|
    requires !Wide(lines, width, j)
    ensures j !in KeptLines(lines, width, n)
  {
    KeptLinesAreWideLines(lines, width, n);
  }

  /**
   * A row written as comma-free columns is read back column by column: the
   * text fields are the columns at their fixed positions and the membership
   * flag is set exactly for the text "Yes" in column 7.
   */
  lemma RowColumns(cols: seq<string>, i: int)
    requires |cols| == 26
    requires forall k :: 0 <= k < |cols| ==> ',' !in cols[k]
    ensures var p := RowToProfile(Fields(Join(cols, ',')), i);
      && p.name == cols[1] && p.gender == cols[3] && p.city == cols[4]
      && p.occupation == cols[5] && p.dietType == cols[6]
      && (p.gymMembership <==> cols[7] == "Yes")
      && p.exerciseType == cols[12] && p.fitnessLevel == cols[21] && p.goal == cols[22]
  {
    JoinSplit(cols, ',');
  }

  /** The id of a data row is never 0: an unparsable or zero id becomes the line index. */
  lemma IdFallback(values: seq<string>, i: int)
    requires i >= 1
    ensures RowToProfile(values, i).id != 0
    ensures ParseInt(Column(values, 0)) in {None, Some(0)} ==> RowToProfile(values, i).id == i
  {
  }

  /** The columns `loadDataset` reads as numbers: with `parseInt` or, for 8-11, 18 and 19, `parseFloat`. */
  const NumericIndices: set<nat> := {0, 2, 8, 9, 10, 11, 13, 14, 15, 16, 17, 18, 19, 20, 23, 24, 25}

  /** An integer written in an integer column reads back as itself, 0 included. */
  lemma IntColumn(values: seq<string>, k: nat, n: int)
    requires k < |values| && values[k] == IntToString(n)
    ensures ParseIntOr(Column(values, k), 0) == n
  {
    ParseIntRoundTrip(n);
  }

  /** An integer written in a decimal column reads back as that number. */
  lemma FloatColumn(values: seq<string>, k: nat, n: int)
    requires k < |values| && values[k] == IntToString(n)
    ensures FloatOrZero(Column(values, k)) == n as real
  {
    ParseFloatOfInt(n);
  }

  /**
   * Numbers written in the numeric columns are read back column by column,
   * each independently of the others; a zero id still becomes the line index.
   */
  lemma NumericColumns(values: seq<string>, i: int, ns: seq<int>)
    requires |values| == 26 && |ns| == 26
    requires forall k :: k in NumericIndices ==> values[k] == IntToString(ns[k])
    ensures var p := RowToProfile(values, i);
      && p.id == (if ns[0] != 0 then ns[0] else i)
      && p.age == ns[2]
      && p.weight == ns[8] as real && p.height == ns[9] as real
      && p.bmi == ns[10] as real && p.bodyFatPercentage == ns[11] as real
      && p.durationMinutes == ns[13] && p.caloriesBurned == ns[14]
      && p.heartRateAvg == ns[15] && p.restingHeartRate == ns[16] && p.stepsDaily == ns[17]
      && p.sleepHours == ns[18] as real && p.waterIntakeLiters == ns[19] as real
      && p.workoutFrequencyWeekly == ns[20]
      && p.stressLevel == ns[23] && p.weeklyCheatMeals == ns[24] && p.healthScore == ns[25]
  {
    ParseIntRoundTrip(ns[0]);
    IntColumn(values, 2, ns[2]);
    FloatColumn(values, 8, ns[8]);
    FloatColumn(values, 9, ns[9]);
    FloatColumn(values, 10, ns[10]);
    FloatColumn(values, 11, ns[11]);
    IntColumn(values, 13, ns[13]);
    IntColumn(values, 14, ns[14]);
    IntColumn(values, 15, ns[15]);
    IntColumn(values, 16, ns[16]);
    IntColumn(values, 17, ns[17]);
    FloatColumn(values, 18, ns[18]);
    FloatColumn(values, 19, ns[19]);
    IntColumn(values, 20, ns[20]);
    IntColumn(values, 23, ns[23]);
    IntColumn(values, 24, ns[24]);
    IntColumn(values, 25, ns[25]);
  }
}
