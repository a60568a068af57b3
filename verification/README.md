# Nutrition tracker core, modelled in Dafny

This project models the computational core of a nutrition tracker that
exists in two front ends: a Streamlit app (Python) and a React app
(TypeScript). The model covers:

- **Daily goals** (`NutritionCalculator`, nutrition_calculator.dfy). The
  revised Harris-Benedict BMR is chosen by `gender.lower() == 'male'`. It is
  multiplied by a five-entry activity table whose lookup is lower-cased and
  defaults to 1.2. Calories and the 30/45/25 protein/carbs/fat split are each
  rounded with Python's `round` (ties to even). `calculate_meal_nutrients` is
  a loop that adds four fields.
- **The Python meal log** (`DataManager`, data_manager.dfy). There is a
  read-only catalogue of food rows, looked up by name. `log_meal` scales a
  row by a portion count and appends it to the session log, creating the log
  first. `get_daily_totals` sums the entries dated today, or returns zeros
  when there is no log.
- **The weekly buckets of the progress charts** (`ProgressCharts`,
  progress_charts.dfy). These are the seven dates ending today, oldest first,
  and one nutrient total per date.
- **The React food list** (`App`, app.dfy). It covers add (append),
  delete-by-id (filter), detected-food lookup in a fixed nine-entry table,
  and the `reduce` that totals the list.
- **The food pick of the camera panel** (`CameraFoodDetection`,
  camera_food_detection.dfy). The detector's class names are filtered
  against a nine-name whitelist, the first match is shown, and confirming
  it changes the panel state.

Shared pieces live in `Common` (Option/Result, ASCII lower-casing,
timestamps, reversal) and `NutrientTotals`. The latter holds the four-field
nutrient record and its left-to-right `Total`. It also holds the proofs that
`Total` is field-wise, additive over concatenation and independent of order.

Every constant in the source is a decimal literal, so arithmetic is exact
over `real`. Evaluated exactly, the profile 70 kg, 170 cm, 30 years, "Male",
"Moderate" gives BMR 1671.672 and daily calories 2591.0916. The goals are
2591 kcal, 194 g protein, 291 g carbs (from 291.497805) and 72 g fat
(`NutritionCalculator.WorkedExample`).

Points of the code worth noting:
- The top activity key is `very active`, with a space.
- Any gender string other than "male" (in any case) takes the female formula.
- `log_meal` creates the empty log before the lookup that may fail.
- `stopCamera` acts only while the `<video>` element is mounted, which is
  while the camera is active and no image has been captured, and only if
  that element has a stream. A consequence, visible in
  `CameraFoodDetection.DetectionPanel.HandleConfirmFood`'s contract: after
  an image has been captured, confirming a food clears the detection and
  the captured image but leaves `isActive` as it was.

## Model

| member | source | states |
|---|---|---|
| Common.Lower | src/components/CameraFoodDetection.tsx:92 | lower-casing keeps the length and maps each character through ASCII case folding |
| Common.Reversed | nutrition_tracker/components/progress_charts.py:10 | `list.reverse()`: same length, element k is the k-th from the end |
| NutrientTotals.Scale | nutrition_tracker/utils/data_manager.py:33-36 | each field of a catalogue row multiplied by the portion count: one portion gives the row back, and a non-negative row scaled by a non-negative count stays non-negative |
| NutrientTotals.Total | nutrition_tracker/utils/nutrition_calculator.py:30-36 | definition without a contract: the accumulation from zeros, one record at a time in list order; TotalIsFieldwiseSum, TotalConcat and TotalPermutation state what it computes |
| NutrientTotals.TotalOfSingleton | nutrition_tracker/utils/nutrition_calculator.py:30-36 | totalling one record gives that record |
| NutrientTotals.TotalConcat | nutrition_tracker/utils/nutrition_calculator.py:30-36 | the total of a concatenation is the sum of the two totals |
| NutrientTotals.TotalCons | nutrition_tracker/utils/nutrition_calculator.py:30-36 | totalling from the front agrees with the left-to-right accumulation |
| NutrientTotals.TotalIsFieldwiseSum | nutrition_tracker/utils/nutrition_calculator.py:32-36 | each field of the total is the sum of exactly that field over the records |
| NutrientTotals.TotalRemoveAt | nutrition_tracker/utils/nutrition_calculator.py:30-36 | removing one record from anywhere subtracts exactly that record |
| NutrientTotals.TotalPermutation | nutrition_tracker/utils/nutrition_calculator.py:30-36 | any two orderings of the same records have the same total |
| NutrientTotals.TotalOfZeros | nutrition_tracker/components/progress_charts.py:24-29 | a total of all-zero records is zero |
| NutrientTotals.TotalNonNegative | nutrition_tracker/utils/nutrition_calculator.py:30-36 | non-negative records give a non-negative total |
| NutritionCalculator.Round | nutrition_tracker/utils/nutrition_calculator.py:20-25 | Python `round`: within 0.5 of the argument, and even on a tie |
| NutritionCalculator.RoundIsUnique | nutrition_tracker/utils/nutrition_calculator.py:20-25 | those two properties determine the rounded value uniquely |
| NutritionCalculator.RoundMonotone | nutrition_tracker/utils/nutrition_calculator.py:20-25 | rounding preserves order |
| NutritionCalculator.IsMale | nutrition_tracker/utils/nutrition_calculator.py:5 | definition without a contract: the lower-cased gender equals "male"; GenderLabels, MaleFormula and NonMaleUsesFemaleFormula state its consequences |
| NutritionCalculator.Bmr | nutrition_tracker/utils/nutrition_calculator.py:5-8 | definition without a contract: the male or the female Harris-Benedict formula, chosen by IsMale; MaleFormula, NonMaleUsesFemaleFormula and BmrOnFormRanges state its properties |
| NutritionCalculator.ActivityMultiplier | nutrition_tracker/utils/nutrition_calculator.py:10-18 | the multiplier lies in [1.2, 1.9] |
| NutritionCalculator.DefaultMultiplierExactly | nutrition_tracker/utils/nutrition_calculator.py:10-18 | the multiplier is 1.2 exactly when the lower-cased level is absent from the table or is "sedentary" |
| NutritionCalculator.DailyCalories | nutrition_tracker/utils/nutrition_calculator.py:18 | definition without a contract: BMR times the activity multiplier, unrounded; SameBmrSameCalories, SameMultiplierSameCalories and DailyCaloriesMonotone state its properties |
| NutritionCalculator.SplitGoals | nutrition_tracker/utils/nutrition_calculator.py:20-25 | each goal is `round` of its share of the unrounded calories (all of them, 30%/4, 45%/4 and 25%/9): within 0.5 of it, and even on a tie |
| NutritionCalculator.CalculateDailyNeeds | nutrition_tracker/utils/nutrition_calculator.py:3-25 | the four goals are each `round` of their share of BMR × multiplier (within 0.5, even on a tie); nothing is rounded earlier |
| NutritionCalculator.SameBmrSameCalories | nutrition_tracker/utils/nutrition_calculator.py:5-18 | gender affects the result only through the BMR it selects |
| NutritionCalculator.SameMultiplierSameCalories | nutrition_tracker/utils/nutrition_calculator.py:10-18 | the activity level affects the result only through its multiplier |
| NutritionCalculator.MacroSharesAddUp | nutrition_tracker/utils/nutrition_calculator.py:22-24 | the three macro shares, converted back to kcal, add up exactly to the daily calories |
| NutritionCalculator.MacroEnergyMatchesCalories | nutrition_tracker/utils/nutrition_calculator.py:20-25 | after independent rounding, the macro energy is within 8.5 kcal of the unrounded calories and within 9 kcal of the calorie goal |
| NutritionCalculator.GenderLabels | nutrition_tracker/utils/nutrition_calculator.py:5 | "Male" and "male" select the male formula; "Female" and "female" do not |
| NutritionCalculator.NonMaleUsesFemaleFormula | nutrition_tracker/utils/nutrition_calculator.py:5-8 | any gender that does not lower-case to "male" gets the female BMR, and any two such strings give equal goals |
| NutritionCalculator.MaleFormula | nutrition_tracker/utils/nutrition_calculator.py:5-6 | a gender that lower-cases to "male" gets 88.362 + 13.397w + 4.799h − 5.677a |
| NutritionCalculator.UnmappedActivityIsSedentary | nutrition_tracker/utils/nutrition_calculator.py:18 | a level missing from the table gives exactly the goals of "sedentary" |
| NutritionCalculator.ActivityLevelIgnoresCase | nutrition_tracker/utils/nutrition_calculator.py:18 | levels equal up to case give equal goals |
| NutritionCalculator.SplitGoalsMonotone | nutrition_tracker/utils/nutrition_calculator.py:20-25 | higher daily calories never lower any goal |
| NutritionCalculator.DailyCaloriesMonotone | nutrition_tracker/utils/nutrition_calculator.py:5-18 | unrounded calories rise strictly with weight and height and fall with age |
| NutritionCalculator.NeedsRiseWithWeightAndHeightFallWithAge | nutrition_tracker/utils/nutrition_calculator.py:3-25 | more weight or height, or fewer years, never lowers any goal |
| NutritionCalculator.NeedsPositiveOnFormRanges | app.py:42-63 | on the form's ranges (30-200 kg, 100-250 cm, 15-100 years) all four goals are positive, for any gender and level |
| NutritionCalculator.BmrOnFormRanges | nutrition_tracker/utils/nutrition_calculator.py:5-8 | on the form's ranges either formula gives at least 402 kcal |
| NutritionCalculator.GoalsPositiveFrom | nutrition_tracker/utils/nutrition_calculator.py:20-25 | daily calories of at least 482.4 give four positive goals |
| NutritionCalculator.WorkedExample | nutrition_tracker/utils/nutrition_calculator.py:3-25 | 70 kg, 170 cm, 30 y, "Male", "Moderate" gives BMR 1671.672, calories 2591.0916 and goals (2591, 194, 291, 72) |
| NutritionCalculator.ModerateMultiplier | nutrition_tracker/utils/nutrition_calculator.py:13-18 | "Moderate" is looked up in lower case and gets 1.55 |
| NutritionCalculator.WorkedExampleGoals | nutrition_tracker/utils/nutrition_calculator.py:20-25 | 2591.0916 kcal splits into the goals (2591, 194, 291, 72) |
| NutritionCalculator.CalculateMealNutrients | nutrition_tracker/utils/nutrition_calculator.py:27-38 | the loop returns the field-wise total of the items, and zeros for no items |
| DataManager.EntriesOn | nutrition_tracker/utils/data_manager.py:47-51 | the date filter never returns more entries than the log has |
| DataManager.EntriesOnMembers | nutrition_tracker/utils/data_manager.py:47-51 | the date filter keeps exactly the entries dated on that day |
| DataManager.NutrientsOf | nutrition_tracker/utils/data_manager.py:53-58 | one nutrient record per entry |
| DataManager.DayTotal | nutrition_tracker/utils/data_manager.py:47-60 | definition without a contract: the total of the entries dated on the given day; DayTotalConcat, DayTotalAppend, DayTotalRemoveAt and DayTotalPermutation state its properties |
| DataManager.DailyTotals | nutrition_tracker/utils/data_manager.py:42-60 | definition without a contract: zeros when the session has no log, else the day total of today; DataManager.GetDailyTotals is proved to return it |
| DataManager.FirstRowNamed | nutrition_tracker/utils/data_manager.py:15 | finds the first catalogue row with the name, or reports that no row has it |
| DataManager.SumEntries | nutrition_tracker/utils/data_manager.py:53-58 | the accumulation loop returns the field-wise total of the entries |
| DataManager.Session.constructor | nutrition_tracker/utils/data_manager.py:26 | a fresh session has no daily log |
| DataManager.DataManager.constructor | nutrition_tracker/utils/data_manager.py:6-7 | the catalogue is the rows given |
| DataManager.DataManager.GetFoodItems | nutrition_tracker/utils/data_manager.py:9-11 | one name per catalogue row, in row order |
| DataManager.DataManager.GetFoodInfo | nutrition_tracker/utils/data_manager.py:13-22 | succeeds exactly when the name is a catalogue item, returning the first matching row's serving size and nutrients; otherwise fails naming the food |
| DataManager.DataManager.LogMeal | nutrition_tracker/utils/data_manager.py:24-40 | raises exactly for unknown foods, and then leaves an (empty if new) log; otherwise the new log is the old one plus one entry with the row's nutrients times the portions and the given time |
| DataManager.DataManager.GetDailyTotals | nutrition_tracker/utils/data_manager.py:42-60 | zeros without a log, otherwise the total of exactly today's entries |
| DataManager.EntriesOnConcat | nutrition_tracker/utils/data_manager.py:47-51 | the date filter distributes over concatenation |
| DataManager.DayTotalConcat | nutrition_tracker/utils/data_manager.py:42-60 | a day's total over two logs joined together is the sum of the two |
| DataManager.DayTotalAppend | nutrition_tracker/utils/data_manager.py:40 | appending an entry adds its nutrients to its own day's total and changes no other day |
| DataManager.LoggedMealMovesOnlyItsOwnDay | nutrition_tracker/utils/data_manager.py:24-60 | after `log_meal` appends an entry, the daily totals of its date grow by exactly its nutrients, and every other date's totals are unchanged, even when the log was just created |
| DataManager.DayTotalRemoveAt | nutrition_tracker/utils/data_manager.py:42-60 | removing one entry from the log removes exactly its contribution |
| DataManager.DayTotalPermutation | nutrition_tracker/utils/data_manager.py:42-60 | daily totals do not depend on the order of the log |
| ProgressCharts.WeekWindow | nutrition_tracker/components/progress_charts.py:9-10 | seven dates, strictly ascending, from six days ago to today |
| ProgressCharts.WeekWindowCoversWeek | nutrition_tracker/components/progress_charts.py:9-10 | every day from six days ago to today is in the window |
| ProgressCharts.DailyTotalsForWeek | nutrition_tracker/components/progress_charts.py:9-31 | returns the window dates and, for each date, zeros without a log or the total of that date's entries; the last bucket equals `get_daily_totals` for today; with a log, the buckets are `WeekBuckets` of it, which the bucket lemmas are about |
| ProgressCharts.WeekBuckets | nutrition_tracker/components/progress_charts.py:13-31 | one bucket per window date |
| ProgressCharts.EntriesInWeekMembers | nutrition_tracker/components/progress_charts.py:19-22 | the window's entries are exactly the logged entries dated inside the window |
| ProgressCharts.EntriesInWeekAppend | nutrition_tracker/components/progress_charts.py:19-22 | logging an entry dated inside the window adds it to the window's total; one dated outside does not |
| ProgressCharts.TotalBumpAt | nutrition_tracker/components/progress_charts.py:24-29 | adding a record to one bucket adds it to the sum of the buckets |
| ProgressCharts.BucketAppend | nutrition_tracker/components/progress_charts.py:19-31 | one bucket grows by a logged entry's nutrients exactly when the entry falls on its date |
| ProgressCharts.WeekBucketsOfEmptyLog | nutrition_tracker/components/progress_charts.py:19-31 | with an empty log the buckets sum to zero |
| ProgressCharts.WeekBucketsAppend | nutrition_tracker/components/progress_charts.py:13-31 | logging an entry changes only the bucket of its date, and only inside the window |
| ProgressCharts.WeekBucketsCountWindowEntriesOnce | nutrition_tracker/components/progress_charts.py:13-31 | the seven buckets together count each in-window entry exactly once and nothing else |
| ProgressCharts.EntryOutsideWindowChangesNoBucket | nutrition_tracker/components/progress_charts.py:13-31 | an entry dated outside the window changes no bucket |
| App.HandleAddFood | src/App.tsx:25-27 | the new list is the old list with the food at the end |
| App.HandleDeleteFood | src/App.tsx:29-31 | deleting never lengthens the list |
| App.ItemsWithId | src/App.tsx:30 | definition without a contract: the items the filter drops, those whose id equals the deleted id, in list order; DeletePartitionsSummary states that the kept and the dropped items together make up the summary |
| App.DeleteKeepsExactlyOtherIds | src/App.tsx:29-31 | after a delete, exactly the items with another id remain |
| App.DeleteDistributes | src/App.tsx:29-31 | delete works piecewise over any split, so the kept items keep their order |
| App.DeleteAbsentIdIsIdentity | src/App.tsx:29-31 | deleting an id no item carries leaves the list unchanged |
| App.HandleFoodDetected | src/App.tsx:33-47 | a name whose lower case is a table key appends one item with that id, the name as given, the time and the table's nutrients; any other name changes nothing (the table holds only its nine own keys; see Left out) |
| App.NutrientsOfItems | src/App.tsx:49-57 | one nutrient record per item |
| App.NutritionSummary | src/App.tsx:49-57 | the summary of the empty list is all zeros |
| App.SummaryConcat | src/App.tsx:49-57 | the summary of two lists joined together is the sum of their summaries |
| App.SummaryIsFieldwiseSum | src/App.tsx:49-57 | each summary field is the sum of exactly that field |
| App.SummaryOfSingleton | src/App.tsx:49-57 | the summary of one item is its nutrients |
| App.SummaryAfterAdd | src/App.tsx:25-27 | adding a food adds exactly its nutrients to the summary |
| App.DeletePartitionsSummary | src/App.tsx:29-31 | the kept items and the deleted items together account for the whole summary |
| App.SummaryAfterDelete | src/App.tsx:29-31 | after a delete, the summary is the old one minus the items with that id |
| App.SummaryAfterFoodDetected | src/App.tsx:33-57 | a detected known food grows the summary by its table entry; an unknown one leaves it unchanged |
| CameraFoodDetection.KeepListed | src/components/CameraFoodDetection.tsx:90-93 | the filter never returns more predictions than it was given |
| CameraFoodDetection.FoodItems | src/components/CameraFoodDetection.tsx:90-115 | the nine-name filter that both detection paths share; never longer than its input |
| CameraFoodDetection.Listed | src/components/CameraFoodDetection.tsx:90-93 | definition without a contract: a class name is kept when its lower case is in the whitelist; KeepListedMembers states the filter keeps exactly those |
| CameraFoodDetection.IsFoodClass | src/components/CameraFoodDetection.tsx:90-93 | definition without a contract: Listed against the nine food class names; WhitelistedNamesAreInDatabase states every such name is a key of the App food table |
| CameraFoodDetection.KeepListedMembers | src/components/CameraFoodDetection.tsx:90-93 | keeps exactly the predictions whose lower-cased class is listed |
| CameraFoodDetection.KeepListedEmpty | src/components/CameraFoodDetection.tsx:90-95 | the filter is empty exactly when no prediction is listed |
| CameraFoodDetection.KeepListedHead | src/components/CameraFoodDetection.tsx:90-96 | a non-empty filter starts with the first listed prediction |
| CameraFoodDetection.SelectFood | src/components/CameraFoodDetection.tsx:90-96 | no pick exactly when no prediction is food; otherwise the pick is whitelisted and is the first food prediction, with its casing kept |
| CameraFoodDetection.KeepListedConcat | src/components/CameraFoodDetection.tsx:90-93 | the filter distributes over concatenation |
| CameraFoodDetection.SelectFoodConcat | src/components/CameraFoodDetection.tsx:90-96 | earlier non-food predictions do not matter, and an earlier food prediction wins |
| CameraFoodDetection.SelectionIsTruthy | src/components/CameraFoodDetection.tsx:96 | a pick is never the empty string |
| CameraFoodDetection.Truthy | src/components/CameraFoodDetection.tsx:128 | definition without a contract: `if (detectedFood)` holds for a non-empty string and fails for null and ""; SelectionIsTruthy states every selected food passes it |
| CameraFoodDetection.WhitelistedNamesAreInDatabase | src/components/CameraFoodDetection.tsx:91 | every whitelisted class is a key of the app's nutrient table |
| CameraFoodDetection.ConfirmedDetectionAddsFood | src/components/CameraFoodDetection.tsx:90-96 | confirming a pick always appends an item with the pick's name and table nutrients, and grows the summary by them |
| CameraFoodDetection.PizzaBeforeApple | src/components/CameraFoodDetection.tsx:90-96 | ["person", "Pizza", "apple"] picks "Pizza" |
| CameraFoodDetection.DetectionPanel.constructor | src/components/CameraFoodDetection.tsx:14-18 | the initial state: inactive, no model, no detection, no captured image |
| CameraFoodDetection.DetectionPanel.VideoMounted | src/components/CameraFoodDetection.tsx:190 | definition without a contract: the `<video>` element exists while the camera is active and no image is captured; StopCamera and HandleConfirmFood state their effects in terms of it |
| CameraFoodDetection.DetectionPanel.Valid | src/components/CameraFoodDetection.tsx:90-98 | definition without a contract: a stream is attached only to a mounted video element (line 190), and the shown food is always one of the nine food classes, since it is only set to the first food prediction (lines 96, 118) or cleared (lines 61, 131); the constructor establishes it and every handler preserves it |
| CameraFoodDetection.DetectionPanel.StopCamera | src/components/CameraFoodDetection.tsx:55-64 | with a mounted video that has a stream, stops it and clears the camera state; otherwise nothing changes |
| CameraFoodDetection.DetectionPanel.ShowDetections | src/components/CameraFoodDetection.tsx:90-98 | shows the pick, or leaves the shown food unchanged and raises the given alert |
| CameraFoodDetection.DetectionPanel.HandleImageUpload | src/components/CameraFoodDetection.tsx:80-105 | without a file or model, or if detection throws, nothing happens; otherwise the shared pick rule with the upload alert text |
| CameraFoodDetection.DetectionPanel.DetectFoodInImage | src/components/CameraFoodDetection.tsx:107-125 | without a model, or if detection throws, nothing happens; otherwise the same pick rule with the capture alert text |
| CameraFoodDetection.DetectionPanel.HandleConfirmFood | src/components/CameraFoodDetection.tsx:127-137 | with a non-empty detection: reports it once, and the reported name is a food class whose lower case is a key of the App food table, so `handleFoodDetected` appends an item for it; clears the detection and the captured image, stops the camera if its video is mounted, and clears the file input if it is rendered; otherwise nothing changes |

## Left out

- CSV loading (`pd.read_csv`): the catalogue is a constructor parameter.
- Streamlit session state beyond the 'daily_log' key, widgets and the plotting of the charts.
- Clocks and ids (`datetime.now()`, `Date.now()`, `new Date()`): these are parameters. Dates are integer day numbers.
- ProgressCharts.WeekWindow and ProgressCharts.DailyTotalsForWeek: the seven `datetime.now()` calls that build the dates (nutrition_tracker/components/progress_charts.py:9) are taken as one reading, `today`. If those calls straddle midnight, the source's window holds a date twice, leaves out the new day, and is not strictly ascending. The model does not capture that.
- IEEE floating point: arithmetic is exact over `real`. The worked example is far from a rounding tie, so its float result agrees.
- Common.Lower: folds only the ASCII letters A-Z, not full Unicode case mapping.
- The camera stream, `startCamera`, `captureImage` and its canvas, loading the detection model, and `model.detect`. The detector's output is a parameter: a sequence of class names, or `None` when `detect` throws. Scores and bounding boxes are not modelled.
- Object URLs created and revoked for uploaded images, `console.error` and the `alert` dialog itself: the alert text is returned instead.
- App.HandleFoodDetected: the food table is modelled as a map holding only its nine own keys. A JavaScript object literal also answers for keys it inherits from `Object.prototype` (such as "constructor" or "__proto__", reached by any casing of those names). For such a name the source would append an item whose nutrients are undefined, and the summary would become NaN. That path is not modelled. The only caller, the camera panel (src/components/CameraFoodDetection.tsx:129), passes whitelisted names, all of which are own keys (CameraFoodDetection.WhitelistedNamesAreInDatabase).
- CameraFoodDetection.DetectionPanel.HandleImageUpload and CameraFoodDetection.DetectionPanel.DetectFoodInImage: the `img.onload` callback and the `await model.detect` (src/components/CameraFoodDetection.tsx:87-89, 111) are taken as one atomic step with the handler that starts them. Other handlers that run while detection is pending, such as a confirm or a stop in between, are not modelled.
- `onFoodDetected` is returned by `HandleConfirmFood` as its reported name rather than called.
- React state batching: each handler's updates are applied in order to one state object.
- nutrition_tracker/utils/food_recognition.py (network calls to a recipe API) is not part of this model.
- Rendering code is not part of this model: app.py, components/food_logger.py, the camera scanner, the dashboard, AddFoodForm.tsx, FoodList.tsx and NutritionSummary.tsx.
