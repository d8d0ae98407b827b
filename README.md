# Yoga AI fitness planner — a Dafny model of its logic

The application is a Next.js site that gives Indian users a diet and workout plan. Its logic sits in five places, and each becomes one module here:

- **`lib/dataset.ts`** — the analytics over a CSV file of 1000 fitness profiles:
  - the loader turns CSV text into `FitnessProfile` records (`Dataset`);
  - `computeStatistics` reduces them to averages, ranges, percentages and top-N breakdowns (`Statistics`, with `Tally` for `countBy`);
  - `findSimilarProfiles` scores every profile against the user (0–10 points) and keeps the best ones, using a stable sort (`Ranker`, `StableSort`).
- **`pages/ai-planner/index.tsx`** — the offline plan generator `mockGeneratePlan` and the two gates that decide when the form may move on (`Planner`).
- **`pages/api/generate-plan.ts`** — the plan endpoint (`PlanApi`). It:
  - answers only POST;
  - builds the dataset context query (the age defaults to 25);
  - strips markdown fences from the language model's reply before `JSON.parse`;
  - saves the user together with the plan's calories and workout days (each defaults to 0).
- **`lib/supabase.ts`** — the row written for a user, with its coercions and the BMI guard, and the summary computed from the stored users: goal and diet distributions, gender split, averages and the five most recent users (`UserStore`).
- **`pages/feedback/index.tsx`** — the feedback form's initial state, the single-field update and the goal toggle (`Feedback`).

Two modules stand in for JavaScript built-ins:

- `JsText` models `trim`, `split`, `startsWith`/`endsWith`, ASCII `toLowerCase`, `charAt(0)`, `parseInt`, `parseFloat`, `Math.round` and integer rendering.
- `JsArray` models `filter`, `map` and `slice(0, end)`.

Integers are unbounded `int`. Values read with `parseFloat` are exact rationals (`real`). `Math.round(x)` is `floor(x + 1/2)`.

Each loop in the source is a `method`, proved against a specification function:

- the CSV loop in `loadDataset`;
- the `countBy` and `forEach` counting loops;
- the score accumulation of `findSimilarProfiles`;
- the fence clean-up's chain of reassignments;
- the request handler.

The other operations are functions. Lemmas relate them to each other and to reference definitions.

## Model

| member | source | states |
|---|---|---|
| JsText.Trim | lib/dataset.ts:43 | the result has no white space at either end and is the piece of the input left after cutting only white space from its start and its end |
| JsText.TrimIdempotent | pages/api/generate-plan.ts:163 | trimming an already trimmed text changes nothing |
| JsText.Split | lib/dataset.ts:43-44 | `split` on one character gives one more piece than there are separators, and no piece contains the separator |
| JsText.SplitJoin | lib/dataset.ts:43-44 | joining the pieces with the separator gives the input back |
| JsText.JoinSplit | lib/dataset.ts:49 | splitting comma-free columns joined by commas gives the columns back |
| JsText.ParseIntOr | lib/dataset.ts:53-78 | `parseInt(s) \|\| d` is never 0 when `d` is not 0 |
| JsText.ParseIntOrDefault | lib/dataset.ts:53-78 | `parseInt(s) \|\| d` is the parsed number when it is non-zero, and `d` when parsing fails or gives 0 |
| JsText.ParseIntOrRoundTrip | lib/dataset.ts:53 | a non-zero integer written in decimal parses back to itself |
| JsText.ParseIntRoundTrip | lib/dataset.ts:53 | `parseInt` reads back every integer written in decimal, 0 and negative numbers included |
| JsText.ParseFloatOfInt | lib/dataset.ts:61 | `parseFloat` of a written integer is that integer |
| JsText.Round | lib/dataset.ts:100 | `Math.round(x)` lies within one half of `x`, rounding halves up |
| JsText.RoundTenth | lib/dataset.ts:91 | `Math.round(x * 10) / 10` lies within 0.05 of `x` and is a whole number of tenths |
| JsText.ToLower | lib/dataset.ts:199 | lower-casing keeps the length and maps A–Z to a–z, leaving every other character alone |
| JsText.CharAt0 | lib/dataset.ts:199 | `charAt(0)` is the first character, or "" for "" |
| JsArray.Filter | lib/supabase.ts:120-121 | the kept elements satisfy the test and come from the input; there are no more of them than input elements |
| JsArray.FilterOrder | pages/feedback/index.tsx:57 | the filter reads the input at increasing positions, and every element passing the test is read |
| JsArray.FilterCounts | pages/feedback/index.tsx:57 | every copy of an element that passes is kept, and no copy of one that fails |
| JsArray.FilterDisjoint | lib/supabase.ts:120-121 | two filters with tests that never both hold keep at most `n` elements between them |
| JsArray.WhereCount | lib/dataset.ts:104-105 | filtering on a key value keeps as many records as take that value |
| JsArray.SliceTo | lib/supabase.ts:124 | `slice(0, end)` is the prefix of length `min(end, n)`; a negative end counts back from the end |
| Tally.CountBy | lib/dataset.ts:92-99 | the counting loop returns one entry per distinct value, in first-occurrence order, each carrying that value's number of occurrences |
| Tally.Tally | lib/dataset.ts:92-99 | the entries' keys are exactly the distinct values and each count is the value's multiplicity (at least 1) |
| Tally.TallySum | lib/dataset.ts:92-99 | the counts sum to the number of records |
| Tally.DistinctOrder | lib/dataset.ts:107 | the keys come in the order of each value's first occurrence |
| StableSort.SortDesc | lib/dataset.ts:108 | the result is a permutation of the input sorted by non-increasing key |
| StableSort.SortDescStable | lib/dataset.ts:220 | equal keys keep their input order |
| StableSort.SortDescMembers | lib/dataset.ts:220 | sorting neither adds nor loses elements |
| StableSort.NoRepeatsPermutation | lib/dataset.ts:220 | a permutation of a list without repeats has none |
| Dataset.Lines | lib/dataset.ts:43 | the trimmed text splits into at least one line, no line holds a newline, and joining the lines with newlines gives the trimmed text back |
| Dataset.LoadDataset | lib/dataset.ts:43-82 | the loop returns, in line order, one profile for each data line at least as wide as the header; there are at most as many profiles as data lines |
| Dataset.ParsedRowsLength | lib/dataset.ts:48-50 | at most one profile per data line |
| Dataset.KeptLinesAreWideLines | lib/dataset.ts:48-50 | the kept lines are increasing data-line indices, and are exactly the lines with at least as many fields as the header |
| Dataset.RowToProfile | lib/dataset.ts:52-79 | the id of a data line is never 0 and falls back to the line index when column 0 does not parse or parses to 0; the membership flag holds exactly for "Yes" |
| Dataset.RowsFromKeptLines | lib/dataset.ts:52-79 | the k-th profile is read from the k-th kept line, with that line's index |
| Dataset.NarrowLinesDropped | lib/dataset.ts:50 | a line with fewer fields than the header yields no profile |
| Dataset.RowColumns | lib/dataset.ts:54-75 | text fields come from their fixed columns; `gymMembership` holds exactly when column 7 is "Yes" |
| Dataset.IdFallback | lib/dataset.ts:53 | an id that does not parse, or parses to 0, becomes the 1-based line index, so ids are never 0 |
| Dataset.NumericColumns | lib/dataset.ts:53-78 | numbers written in the 17 numeric columns are read back column by column, each independently, with `parseInt` or `parseFloat` as the column requires; a zero id becomes the line index |
| Statistics.Avg | lib/dataset.ts:90-91 | 0 for an empty list, else within 0.05 of the arithmetic mean; always a whole number of tenths |
| Statistics.AvgBounds | lib/dataset.ts:90-91 | the mean of values within [lo, hi] lies in [lo, hi] |
| Statistics.Percentage | lib/dataset.ts:100 | within one half of 100 · count / total when total > 0; lies in [0, 100] when 0 ≤ count ≤ total; is 100 for the whole and 0 for none |
| Statistics.PercentageMonotone | lib/dataset.ts:100 | more records never give a smaller percentage |
| Statistics.RangeOf | lib/dataset.ts:157 | min and max are elements bounding all values (0 for an empty list); the average is `avg` of the values and lies within 0.05 of the range |
| Statistics.TopCities | lib/dataset.ts:106-110 | min(10, number of cities) distinct cities of the data, in non-increasing count; ties in first-occurrence order; no city left out has a higher count than one kept, and one left out with an equal count first occurs later |
| Statistics.ExerciseTypes | lib/dataset.ts:120-129 | one entry per exercise type, min(10, number of types) of them: non-increasing percentage, stable ties, a type left out scoring no more than one kept and, on a tie, first occurring later; percentages in [0,100]; averages over that type's records only |
| Statistics.RankedShares | lib/dataset.ts:132-146 | one share per distinct value, sorted by non-increasing percentage with stable ties, each in [0,100]; for records present the percentages sum to 100 within half a point per category |
| Statistics.FirstOccurrenceShares | lib/dataset.ts:138-140 | one share per fitness level in first-occurrence order, unsorted, each in [0,100]; for records present the percentages sum to 100 within half a point per level |
| Statistics.PercentageScaled | lib/dataset.ts:100 | a percentage times 2 · total is within total of 200 · count |
| Statistics.SharesSum | lib/dataset.ts:133-146 | the rounded shares of a list of counts add up to their exact total share, within half a point per entry |
| Statistics.SortSum | lib/dataset.ts:135 | sorting a breakdown keeps the sum of its percentages |
| Statistics.BreakdownSum | lib/dataset.ts:132-146 | the percentages of the categories of a non-empty list sum to 100 within half a point per category |
| Statistics.ComputeDemographics | lib/dataset.ts:103-110 | the age range, the gender percentages of "M" and "F" (each in [0,100]) and the top cities as `TopCities` states them |
| Statistics.BodyMetricsOf | lib/dataset.ts:161-166 | the weight, height and BMI parts are the min, max and average of those columns over all profiles (so they bound every profile's value); the body-fat averages are `Avg` over the "M" and the "F" records, whole tenths, 0 when there are none |
| Statistics.ComputeExercise | lib/dataset.ts:119-129 | the exercise types as `ExerciseTypes` states them, and the averages of duration and calories over all records |
| Statistics.LifestyleOf | lib/dataset.ts:172-177 | the sleep and water parts are the min, max and average of those columns (so they bound every profile's value); the steps average is `Round` of the tenths average, a whole number within 0.55 of the mean; the stress average is `Avg` of the stress levels; both averages are 0 for no records |
| Statistics.ComputeBreakdowns | lib/dataset.ts:131-146 | goals and diet types ranked by percentage; fitness levels in first-occurrence order; each breakdown sums to 100 within half a point per category |
| Statistics.ComputeStatistics | lib/dataset.ts:86-182 | `totalRecords` is the number of profiles; the demographics, body metrics, exercise, lifestyle and breakdown parts are as the rows above state them |
| Ranker.AgePoints | lib/dataset.ts:196-197 | 3 points within 5 years, 1 within 10, otherwise 0 |
| Ranker.SimilarityScore | lib/dataset.ts:194-215 | the score lies between 0 and 10 |
| Ranker.ScoreProfile | lib/dataset.ts:195-215 | the step-by-step accumulation ends at the score, which lies in [0, 10] |
| Ranker.FullScore | lib/dataset.ts:196-213 | 10 points exactly when the age is within 5 and gender, goal and diet all match |
| Ranker.UnknownKeysAddNothing | lib/dataset.ts:200-213 | a goal or diet outside the tables adds no points, so the score is at most 5 |
| Ranker.GenderMatchIsInitial | lib/dataset.ts:199 | only a gender of at most one character can match the user's initial |
| Ranker.GenderInitialExample | lib/dataset.ts:199 | worked example: "M" matches "male" and "Male", "f" matches "Female", and "Male" matches nothing |
| Ranker.RankedIsStableTop | lib/dataset.ts:219-222 | the kept positions are distinct and valid, ordered by non-increasing score, ties in input order; nothing left out scores higher, and a profile left out with an equal score comes later in the input |
| Ranker.FindSimilarProfiles | lib/dataset.ts:185-223 | returns min(limit, n) input profiles in non-increasing score order, stable on ties, none twice; none left out scores more than one returned, and one left out with an equal score comes later in the input |
| Ranker.TableHitAsWritten | lib/dataset.ts:200-213 | a lookup of a key the table holds answers whether the value is listed |
| Ranker.TableHitAsWrittenAgrees | lib/dataset.ts:200-213 | the lookup throws exactly on the names inherited from `Object.prototype`, and elsewhere agrees with the table |
| Ranker.ConstructorGoalThrows | lib/dataset.ts:206 | the goal "constructor" makes the lookup throw, where the table has no match |
| Planner.PlanWeight | pages/ai-planner/index.tsx:48 | `parseInt(weight)`, or 70 when that is NaN or 0 |
| Planner.BaseCalories | pages/ai-planner/index.tsx:49-53 | 1600 for weight loss, 2500 for muscle gain, 2000 otherwise |
| Planner.AdjustedCalories | pages/ai-planner/index.tsx:54 | `base * weight / 70`, rounded to the nearest integer |
| Planner.ReferenceWeightKeepsBase | pages/ai-planner/index.tsx:54 | at 70 kg the calories are exactly the base |
| Planner.CaloriesMonotone | pages/ai-planner/index.tsx:54 | more weight never gives fewer calories |
| Planner.Meals | pages/ai-planner/index.tsx:62-122 | five meals at fixed times and names with 25/10/30/10/25 % of the calories; the vegetarian item lists when chosen |
| Planner.MealsAddUp | pages/ai-planner/index.tsx:79-121 | the meals' calories add up to the day's total within 2 |
| Planner.DaysPerWeek | pages/ai-planner/index.tsx:126-131 | 3 days when sedentary, 5 when moderate, 6 otherwise |
| Planner.Schedule | pages/ai-planner/index.tsx:133-221 | seven days, Monday to Sunday in order |
| Planner.Tips | pages/ai-planner/index.tsx:223-232 | six tips; the first names the litres of water for the weight |
| Planner.DietFor | pages/ai-planner/index.tsx:57-124 | the calories are the goal's base scaled to the weight, within one half; five meals at the fixed times whose calories add up to the total within 2; protein raised exactly for muscle gain, carbs lowered exactly for weight loss |
| Planner.WorkoutFor | pages/ai-planner/index.tsx:125-222 | 3, 5 or 6 days a week exactly for sedentary, moderate and any other level; a Monday-to-Sunday schedule whose Tuesday, Thursday, Saturday and Sunday do not depend on the goal, Monday upper body exactly for muscle gain, Sunday rest |
| Planner.MockGeneratePlan | pages/ai-planner/index.tsx:47-234 | the plan is the diet and the workout for the form, with 5 meals, 7 days and 6 tips, the first tip on water |
| Planner.MacrosFollowGoal | pages/ai-planner/index.tsx:59-60 | protein is "120-150g" exactly for muscle gain; carbs are "150-180g" exactly for weight loss |
| Planner.VegetarianMeals | pages/ai-planner/index.tsx:66-120 | the vegetarian preference selects the vegetarian breakfast, lunch, evening snack and dinner |
| Planner.DefaultWeightPlan | pages/ai-planner/index.tsx:48-54 | without a usable weight the calories are the base and the water tip is for 70 kg |
| Planner.WaterTipAtReferenceWeight | pages/ai-planner/index.tsx:224 | worked example: at 70 kg the tip reads 2 litres |
| Planner.WeightLossExample | pages/ai-planner/index.tsx:53-54 | worked example: 80 kg aiming at weight loss gives 1829 calories |
| Planner.GatesIgnoreOtherFields | pages/ai-planner/index.tsx:271-278 | step 1 ignores goal, activity level, diet and the two optional fields; step 2 ignores name, age, gender, weight, height and the two optional fields |
| Planner.GatesOnEmptyForm | pages/ai-planner/index.tsx:271-278 | worked example: the empty form passes neither gate, and filling each gate's fields opens it |
| PlanApi.DropPrefix | pages/api/generate-plan.ts:154-159 | removes a leading fence when present; the result is a piece of the input |
| PlanApi.DropSuffix | pages/api/generate-plan.ts:160-162 | removes a trailing fence when present; the result is a piece of the input |
| PlanApi.CleanReply | pages/api/generate-plan.ts:152-163 | the reassignment chain yields the cleaned text, which is trimmed and a contiguous piece of the trimmed reply |
| PlanApi.CleanedIsPiece | pages/api/generate-plan.ts:152-163 | the cleaned text is trimmed and a contiguous piece of the trimmed reply |
| PlanApi.UnfencedReply | pages/api/generate-plan.ts:152-163 | a reply with no fence at either end is only trimmed |
| PlanApi.JsonFenceStartsWithFence | pages/api/generate-plan.ts:154-159 | a reply opening with ```json also opens with ```, so both prefix rules are checked in turn |
| PlanApi.JsonFencedReply | pages/api/generate-plan.ts:152-163 | a trimmed body inside a ```json fence is recovered exactly |
| PlanApi.PlainFencedReply | pages/api/generate-plan.ts:152-163 | a trimmed body inside a bare ``` fence is recovered exactly |
| PlanApi.StatusCode | pages/api/generate-plan.ts:48-216 | 405 for a wrong method, 200 for a plan, 500 for every failure |
| PlanApi.ContextQuery | pages/api/generate-plan.ts:56-61 | the context age is `parseInt(age)`, or 25 when that is NaN or 0; gender, goal and diet are passed through |
| PlanApi.ContextAgeOfNumber | pages/api/generate-plan.ts:57 | a non-zero age typed as a number is used as is |
| PlanApi.SavedInput | pages/api/generate-plan.ts:178-191 | the form fields are saved unchanged; the plan's calories and workout days default to 0 |
| PlanApi.Handle | pages/api/generate-plan.ts:44-221 | a non-POST request gets 405 and nothing else happens; an unparsable reply gets 500 with the raw text and nothing is saved; otherwise the user is saved with the plan defaults and answered 200, reporting 10 matched profiles and `userStats?.totalUsers \|\| 1` users served |
| PlanApi.UsersServed | pages/api/generate-plan.ts:209 | the exact row count when non-zero, else the number of rows read, else 1; never 0 |
| UserStore.Bmi | lib/supabase.ts:44 | 0 unless the height is positive; otherwise within 0.05 of weight / (height/100)²; always a whole number of tenths |
| UserStore.BmiExample | lib/supabase.ts:44 | worked example: 70 kg at 175 cm is stored as 22.9 |
| UserStore.TextOrEmpty | lib/supabase.ts:58-59 | a missing text becomes "" and a present one is kept |
| UserStore.BuildUserRow | lib/supabase.ts:42-62 | the age defaults to 0; weight and height are parsed or 0; BMI is 0 without a positive height; missing conditions and equipment become "" |
| UserStore.SaveUser | lib/supabase.ts:66-71 | succeeds exactly when the insert does; a failure carries the error message and no user id |
| UserStore.NumberOr | lib/supabase.ts:89-111 | `n \|\| d`: `n` when it is a non-zero number, else `d` |
| UserStore.GetUserStats | lib/supabase.ts:87-129 | no stats and `count \|\| 0` for an error or an empty list; otherwise the points below |
| UserStore.DistributionKeys | lib/supabase.ts:99-102 | a goal is a key of the distribution exactly when some user has it |
| Feedback.Get | pages/feedback/index.tsx:9-26 | each field holds a value of its declared type, except an unanswered `wouldRecommend`, which holds null |
| Feedback.InitialFeedback | pages/feedback/index.tsx:31-48 | text fields "", no goals, rating 0, `wouldRecommend` null, both consents false |
| Feedback.UpdateForm | pages/feedback/index.tsx:50-52 | the named field takes the value; every other field is unchanged |
| Feedback.UpdateSameValue | pages/feedback/index.tsx:50-52 | writing a field's own value changes nothing |
| Feedback.UpdateTwice | pages/feedback/index.tsx:50-52 | a second write to a field overrides the first |
| Feedback.ToggledGoals | pages/feedback/index.tsx:54-61 | a present goal leaves the list and the list shrinks; an absent one is appended; other goals keep their membership |
| Feedback.ToggleGoal | pages/feedback/index.tsx:54-61 | flips the goal's membership, sets the goal list, and leaves every other field alone |
| Feedback.ToggleOffCounts | pages/feedback/index.tsx:56-57 | removing a goal drops every copy of it and keeps every copy of the other goals |
| Feedback.ToggleOffOrder | pages/feedback/index.tsx:56-57 | removing a goal keeps the other goals in their original order |
| Feedback.ToggleTwiceRestores | pages/feedback/index.tsx:58-59 | adding an absent goal and toggling it again restores the list |

When the user list is non-empty, `UserStore.GetUserStats` states:

- `totalUsers` is `count || users.length`;
- `lastUser` is the first user's `created_at`;
- the goal and diet distributions are the counts of each value, and each sums to `users.length`;
- the gender split counts the genders that start with "m" and with "f" once lowercased, and the two together are at most `users.length`;
- `recentUsers` is the first min(5, n) users, projected to name, goal and creation time;
- the averages are `avg` of age, BMI and plan calories.

## Findings

| source | as written | input that shows it | evidently intended | confidence | as-written member | corrected member |
|---|---|---|---|---|---|---|
| lib/dataset.ts:206-213 | `goalMap[userGoal]?.includes(p.goal)`: a goal or diet the table lacks but every object inherits (`constructor`, `toString`, `__proto__`, …) finds a function or `Object.prototype`. Neither has `includes`, so the call throws a TypeError. | the goal "constructor" on any dataset | a key outside the table adds no points (the `?.` shows the authors expected a missing key to be harmless) | medium, not executed | Ranker.ConstructorGoalThrows | Ranker.UnknownKeysAddNothing |

`Ranker.TableHitAsWritten` and `Ranker.TableHitAsWrittenAgrees` model the lookup as written and pin down where it throws. The scores and the ranking use `Ranker.TableHit`, which looks only at the table's own keys.

## Left out

- File access: the dataset file path and `fs.readFileSync` are not modelled. `Dataset.LoadDataset` takes the file's text.
- CSV quoting (section 2 of RFC 4180) is not modelled. The source splits each line on every comma, and so does the model.
- `generateDatasetContext` (lib/dataset.ts:226-279) is prose templating and is not part of this model. `PlanApi.ContextQuery` gives the arguments the handler passes to it.
- External services are parameters of the model:
  - the Groq completion is a `Completion` value, and `JSON.parse` is a function parameter returning `None` where it throws;
  - the Supabase insert is a function `UserRow -> InsertReply`;
  - the Supabase read is a `StoreRead` value, with the users already in newest-first order;
  - the Next.js request and response become a method string, a form and a `PlanResponse`.
- `PlanApi.Handle`: it does not model the full JSON payloads of the answers, only the fields that carry logic:
  - the error kind and the raw reply;
  - the plan;
  - `totalProfiles` and `matchedProfiles`;
  - the user id;
  - `totalUsersServed`.
- `PlanApi.Handle`: an exception thrown by the file read, the completion call or a database call becomes `CompletionError` or is left out. Dereferencing a `null` plan is modelled, as `GenerationFailed`.
- PlanApi.Handle: it uses the corrected table lookup of the finding above. As written, a goal or diet named like an `Object.prototype` member ("constructor", "toString", …) makes `generateDatasetContext` throw when the dataset is non-empty, and the handler then answers 500 and saves nothing; the model's `Handle` does not promise that answer.
- Tally.CountBy: the counts object of the source is a plain `{}`. A value named like an `Object.prototype` member reads an inherited function as its starting count, and "__proto__" does not become a key at all. The model counts every value as its own key. This affects `Tally.TallySum`, `UserStore.DistributionKeys` and `UserStore.GetUserStats` in the same way. The data's categories are ordinary words.
- The parsed plan (`ParsedPlan`) reads `diet.calories` and `workout.daysPerWeek` as optional integers. A non-numeric value there (which `|| 0` would pass through when truthy) is not modelled.
- Statistics.RangeOf: `Math.min`/`Math.max` of an empty list give ±Infinity in JavaScript; the model gives 0.
- Statistics.Percentage: a percentage of 0 records, which JavaScript gives as NaN, is 0 in the model.
- Dataset.RowToProfile: a column past the end of a row (possible only when the header has fewer than 26 fields) reads as "" instead of `undefined`. Numeric and flag fields come out the same either way. Text fields differ: `countBy` would key a missing city, goal or other category as "undefined" where the model keys "", and `findSimilarProfiles` would throw on `p.gender.toLowerCase()` where the model compares "".
- JsText.ParseFloat: exponents, "Infinity" and IEEE-754 rounding are not modelled; values are exact rationals, so `0.1`, `0.3` and `0.033` are exact.
- JsText.ToLower: only ASCII letters are lowercased.
- Object key order: `Object.entries` lists integer-like keys first. The model keeps first-occurrence order for every key, because the categories are non-numeric text.
- Feedback.UpdateForm: requires the value to have the field's declared type. Every call in the page passes such a value, and TypeScript's types promise it.
- UI code is not modelled: React state hooks, `setTimeout`, the PDF/print export, navigation and rendering. The planner page's own `updateForm` (a one-line record update of the same shape as the feedback one) is not modelled either.
- `pages/api/feedback.ts` and `pages/api/user-stats.ts` are not part of this model. They pass data through to the database.
