# Track'n'Thrive core, modelled in Dafny

Track'n'Thrive is a fitness-coaching web app: clients log workouts, plan
meals, tick off supplements, and see a summary when a workout ends; a coach
keeps a registry of clients. This project models the app's core logic and
proves properties of it:

- **Shopping list** (`shopping_list_utils.dfy`, module `ShoppingListUtils`):
  `generateShoppingList` folds every ingredient line of every selected meal,
  scaled by the meal's quantity, into an insertion-ordered `Map` keyed by
  `name-unit`, and returns the map's values. The nested loops are methods
  proved equal to a fold (`Fold`, by `Step`); the fold is then proved equal
  to an independent reference (`ExpectedItem`: per key, the first use's name
  and unit, the sum of the amounts and the list of meal names of all uses).
- **Workout logger** (`workout_logger.dfy`, module `WorkoutLogging`): the
  exercise list editor. Each handler replaces the list by a `map`/`filter`,
  modelled as functions; the class `WorkoutLogger` holds the state and keeps
  the invariant that every exercise has a set.
- **Meal planner** (`meal_planner.dfy`, module `MealPlanning`): the planned
  food list, its form, and the `groupedMeals` reduce by meal type, which is a
  loop proved to build the fold `GroupFold`, itself proved to be a partition
  of the plan in first-occurrence key order.
- **Workout summary** (`workout_summary.dfy`, module `WorkoutStatistics`):
  `calculateStats` as nested loops proved against recursive sums, the
  best-set `reduce`, the strength percentage (which can be `Infinity`), and
  the completed-exercise count.
- **Supplement tracker** (`supplement_tracker.dfy`, module
  `SupplementTracking`): toggling an entry, the taken count and progress
  bar, and the category badge texts and colours.
- **Admin panel** (`admin_panel.dfy`, module `Admin`): adding clients, the
  `x/3` activity status, and the dashboard counts.
- `sequences.dfy` (module `Sequences`) holds the shared `Filter` (JavaScript
  `filter`) and `Dedup` (the key order of an insertion-ordered map), with
  their lemmas.

JavaScript numbers are modelled as `real` (exact arithmetic); the two places
where a division by zero can happen are modelled explicitly (a previous
volume of `+0` gives `PosInfinity`; one of `-0`, the product of a zero and a
negative factor, gives `-Infinity`, which `Math.max` clamps to 0; an empty
supplement list gives a 0% bar).
Identifiers made from `Date.now()` are parameters.

## Model

| member | source | states |
|---|---|---|
| ShoppingListUtils.GenerateShoppingList | src/services/utils/shoppingListUtils.ts:4-28 | the returned list is the values, in insertion order, of the map obtained by folding `Step` over all ingredient uses of the selection (`Aggregate`) |
| ShoppingListUtils.AddMeal | src/services/utils/shoppingListUtils.ts:7-25 | after the outer callback for one selected meal, the map is the fold extended by that meal's ingredient uses, each amount scaled by the quantity |
| ShoppingListUtils.VisitIngredient | src/services/utils/shoppingListUtils.ts:8-24 | one inner callback: an existing key gets the amount added and the meal name appended; a new key is inserted last with its first use's name, amount, unit and meal |
| ShoppingListUtils.StepExistingKey | src/services/utils/shoppingListUtils.ts:12-15 | for a key already seen, the reference item over the longer list of uses is the old one with the amount added and the meal appended, name and unit unchanged |
| ShoppingListUtils.StepNewKey | src/services/utils/shoppingListUtils.ts:16-22 | for a key seen for the first time, the reference item is built from that use alone |
| ShoppingListUtils.StepOtherKey | src/services/utils/shoppingListUtils.ts:12-22 | a use leaves the reference item of every other key unchanged |
| ShoppingListUtils.StepEntry | src/services/utils/shoppingListUtils.ts:12-22 | after one use, every key in the map holds the reference item over the longer list of uses |
| ShoppingListUtils.StepPreservesExpected | src/services/utils/shoppingListUtils.ts:12-22 | one has/update-or-set step keeps the map equal to the reference items and its keys equal to the keys used so far |
| ShoppingListUtils.FoldWellFormed | src/services/utils/shoppingListUtils.ts:5-25 | the map's key order lists each key once and exactly the keys in the map |
| ShoppingListUtils.ExpectedItemKey | src/services/utils/shoppingListUtils.ts:9 | the item stored under a key has that key as its `name-unit` |
| ShoppingListUtils.FoldIsExpected | src/services/utils/shoppingListUtils.ts:5-27 | the filled map's key order is the first-occurrence order of the keys used, its keys are exactly those used, and each entry is the reference item |
| ShoppingListUtils.EmptySelection | src/services/utils/shoppingListUtils.ts:4-28 | an empty selection yields an empty list |
| ShoppingListUtils.ItemKeysAreFirstOccurrences | src/services/utils/shoppingListUtils.ts:9-27 | the keys of the returned items are the distinct `name-unit` keys of all uses, in order of first occurrence |
| ShoppingListUtils.ItemKeysUnique | src/services/utils/shoppingListUtils.ts:9-27 | no two items share a key, and there is an item for exactly the keys that occur |
| ShoppingListUtils.ItemsInFirstOccurrenceOrder | src/services/utils/shoppingListUtils.ts:12-27 | an earlier item's key first occurs before a later item's key |
| ShoppingListUtils.ItemsSumEveryUse | src/services/utils/shoppingListUtils.ts:10-22 | each item's total is the sum of `amount × quantity` over all uses of its key, its meals list has one name per use in visiting order, and its ingredient name and unit come from the first use |
| ShoppingListUtils.UsesOfKeyCount | src/services/utils/shoppingListUtils.ts:9 | the uses with a given key are as many as the occurrences of that key |
| ShoppingListUtils.MealCountIsSumOccurrences | src/services/utils/shoppingListUtils.ts:15-21 | when each key's meal list has one entry per occurrence, the listed items' meal lists together count the occurrences of their keys |
| ShoppingListUtils.MealNamesCountUses | src/services/utils/shoppingListUtils.ts:15-21 | the meal lists of all items together have exactly one entry per ingredient use |
| ShoppingListUtils.AtMostOneItemPerUse | src/services/utils/shoppingListUtils.ts:7-23 | there are never more items than ingredient uses |
| ShoppingListUtils.KeyCollisionMergesIngredients | src/services/utils/shoppingListUtils.ts:9-20 | name "a-b" with unit "c" and name "a" with unit "b-c" share one key and are merged into one item named after the first, with both amounts and both meal names |
| WorkoutLogging.NewExercise | src/components/WorkoutLogger.tsx:35-39 | a new exercise has the given id and name and a single zero set |
| WorkoutLogging.AddSetTo | src/components/WorkoutLogger.tsx:45-51 | the list keeps its length; each exercise with the id gets one zero set appended, id and name unchanged; every other exercise is unchanged |
| WorkoutLogging.WithField | src/components/WorkoutLogger.tsx:59 | the named field takes the value and the other field keeps its value |
| WorkoutLogging.UpdateAt | src/components/WorkoutLogger.tsx:58-60 | the sets keep their count; only the set at the index is changed, by `WithField` |
| WorkoutLogging.UpdateSetIn | src/components/WorkoutLogger.tsx:53-64 | only exercises with the id change, and in them only the set at the index, in the named field |
| WorkoutLogging.DropIndex | src/components/WorkoutLogger.tsx:69 | an index in range removes exactly that set, the others keep their order; any other index changes nothing |
| WorkoutLogging.RemoveSetFrom | src/components/WorkoutLogger.tsx:66-72 | only exercises with the id change, each losing the set at the index |
| WorkoutLogging.RemoveExerciseFrom | src/components/WorkoutLogger.tsx:74-76 | the result holds exactly the exercises whose id differs, and is no longer than before |
| WorkoutLogging.UpdateOutOfRangeChangesNothing | src/components/WorkoutLogger.tsx:53-64 | an index outside every matching exercise's sets leaves the list unchanged |
| WorkoutLogging.RemoveOutOfRangeChangesNothing | src/components/WorkoutLogger.tsx:66-72 | removing at an index outside every matching exercise's sets leaves the list unchanged |
| WorkoutLogging.RemoveExerciseKeepsOrder | src/components/WorkoutLogger.tsx:75 | removal distributes over concatenation and keeps or drops each exercise by its id alone, so the rest keep their order |
| WorkoutLogging.RemoveAbsentExercise | src/components/WorkoutLogger.tsx:75 | removing an id that no exercise has changes nothing |
| WorkoutLogging.AddSetKeepsASet | src/components/WorkoutLogger.tsx:48 | adding a set keeps every exercise non-empty |
| WorkoutLogging.UpdateSetKeepsASet | src/components/WorkoutLogger.tsx:53-64 | updating a set keeps every exercise non-empty |
| WorkoutLogging.RemoveExerciseKeepsASet | src/components/WorkoutLogger.tsx:74-76 | removing exercises keeps every remaining exercise non-empty |
| WorkoutLogging.RemoveSetKeepsASet | src/components/WorkoutLogger.tsx:66-72 | removing a set keeps every exercise non-empty when each matching exercise had more than one set |
| WorkoutLogging.RemoveSetButtonIsSafe | src/components/WorkoutLogger.tsx:150 | with unique ids, the remove button shown for an exercise with more than one set meets the condition above |
| WorkoutLogging.WorkoutLogger.constructor | src/components/WorkoutLogger.tsx:22-29 | the log starts with one "Guggolás" exercise holding one zero set, and an empty name input |
| WorkoutLogging.WorkoutLogger.SetNewExerciseName | src/components/WorkoutLogger.tsx:100 | the input takes the typed text; the exercises are unchanged |
| WorkoutLogging.WorkoutLogger.AddExercise | src/components/WorkoutLogger.tsx:32-43 | a name that is blank after trimming changes nothing; otherwise exactly one exercise named as typed is appended and the input is cleared; every exercise keeps a set |
| WorkoutLogging.WorkoutLogger.AddSet | src/components/WorkoutLogger.tsx:45-51 | the list becomes `AddSetTo` of the old list; the input is unchanged; every exercise keeps a set |
| WorkoutLogging.WorkoutLogger.UpdateSet | src/components/WorkoutLogger.tsx:53-64 | the list becomes `UpdateSetIn` of the old list; every exercise keeps a set |
| WorkoutLogging.WorkoutLogger.RemoveSet | src/components/WorkoutLogger.tsx:66-72 | the list becomes `RemoveSetFrom` of the old list; every exercise keeps a set if each matching one had more than one |
| WorkoutLogging.WorkoutLogger.RemoveExercise | src/components/WorkoutLogger.tsx:74-76 | the list becomes `RemoveExerciseFrom` of the old list; every exercise keeps a set |
| MealPlanning.FoodFrom | src/components/MealPlanner.tsx:43-46 | the planned item carries the id and the form's name, amount and meal type |
| MealPlanning.RemoveFoodFrom | src/components/MealPlanner.tsx:52-54 | the result holds exactly the items whose id differs |
| MealPlanning.RemoveFoodKeepsOrder | src/components/MealPlanner.tsx:53 | removal distributes over concatenation and keeps or drops each item by its id alone |
| MealPlanning.GroupStep | src/components/MealPlanner.tsx:81-84 | one step of the reduce (create the group if missing, push the item) keeps the record equal to the grouping of the items seen so far |
| MealPlanning.PushFilters | src/components/MealPlanner.tsx:81-84 | pushing an item onto its type's group (created if missing) keeps each group equal to the items of its type, in order |
| MealPlanning.GroupFoldGroups | src/components/MealPlanner.tsx:80-86 | the reduce yields the meal types in first-occurrence order, and for each type exactly the items of that type in plan order |
| MealPlanning.GroupByMealType | src/components/MealPlanner.tsx:80-86 | the loop returns the key order and record of the reduce: keys are the distinct meal types in first-occurrence order, and each group is the plan filtered by its type |
| MealPlanning.GroupSizesAreCounts | src/components/MealPlanner.tsx:80-86 | the sizes of the groups sum to the occurrences of their meal types in the plan |
| MealPlanning.GroupSizesSumToPlanLength | src/components/MealPlanner.tsx:80-86 | the group sizes sum to the number of planned items |
| MealPlanning.EveryItemInItsOwnGroup | src/components/MealPlanner.tsx:80-86 | every planned item is in the group of its meal type, and a group holds only planned items of its type |
| MealPlanning.NoEmptyGroup | src/components/MealPlanner.tsx:81-84 | no group is empty |
| MealPlanning.GroupKeysInFirstOccurrenceOrder | src/components/MealPlanner.tsx:80-86 | group keys come in the order in which their meal type first occurs in the plan |
| MealPlanning.MealPlanner.constructor | src/components/MealPlanner.tsx:20-25 | the plan starts empty and the form empty with meal type "breakfast" |
| MealPlanning.MealPlanner.SetName | src/components/MealPlanner.tsx:104 | only the form's name changes |
| MealPlanning.MealPlanner.SetAmount | src/components/MealPlanner.tsx:119 | only the form's amount changes |
| MealPlanning.MealPlanner.SetMealType | src/components/MealPlanner.tsx:125 | only the form's meal type changes |
| MealPlanning.MealPlanner.AddFood | src/components/MealPlanner.tsx:33-50 | an empty name or amount changes nothing; otherwise one item with the form's fields is appended and the form reset to empty with "breakfast" |
| MealPlanning.MealPlanner.RemoveFood | src/components/MealPlanner.tsx:52-54 | the plan becomes `RemoveFoodFrom` of the old plan; the form is unchanged |
| MealPlanning.MealPlanner.SaveMealPlan | src/components/MealPlanner.tsx:56-71 | saving succeeds exactly when the plan is not empty |
| MealPlanning.MealPlanner.GroupedMeals | src/components/MealPlanner.tsx:80-86 | the groups of the current plan, as `GroupByMealType` states |
| WorkoutStatistics.AccumulateSets | src/components/WorkoutSummary.tsx:23-38 | the inner loop adds one exercise's counting-set weight, improved-set count and volume gain to the running sums |
| WorkoutStatistics.SumIncreases | src/components/WorkoutSummary.tsx:44-56 | the loop sums the per-exercise strength increases of the exercises with a previous best |
| WorkoutStatistics.CalculateStats | src/components/WorkoutSummary.tsx:16-66 | the four statistics (before rounding) equal the recursive sums `TotalWeight`, `ImprovementCount`, `TotalVolumeIncrease` and the average `StrengthPercentage` |
| WorkoutStatistics.SetsWeightNonNegative | src/components/WorkoutSummary.tsx:24-25 | one exercise's counted weight is never negative |
| WorkoutStatistics.SetsGainMatchesImproved | src/components/WorkoutSummary.tsx:27-35 | one exercise's volume gain is never negative, positive exactly when some set improved, improved sets are at most its counting sets, and none improve without a previous best |
| WorkoutStatistics.BestSetIsMaximal | src/components/WorkoutSummary.tsx:46-48 | the best set's volume is at least every set's volume and at least 0 |
| WorkoutStatistics.BestSetIsEarliest | src/components/WorkoutSummary.tsx:46-48 | unless it is the `{0,0}` seed, the best set is a set of positive volume that every earlier set falls strictly short of |
| WorkoutStatistics.BestSetIsSeed | src/components/WorkoutSummary.tsx:46-48 | the result is the seed exactly when no set has positive volume |
| WorkoutStatistics.StrengthIncreaseBounds | src/components/WorkoutSummary.tsx:50-55 | an exercise's contribution is at least 0; it is `Infinity` exactly when the best set has positive weight and the previous best's volume is `+0` (zero, with no negative factor); a best set of positive weight has positive volume, so `0 / 0` never arises; it is 0 when no set has positive volume |
| WorkoutStatistics.NegativeZeroPreviousAddsNothing | src/components/WorkoutSummary.tsx:50-54 | a previous best of weight 0 and reps -1 (volume `-0`) makes a positive current volume add 0, while reps 1 (volume `+0`) makes it add `Infinity` |
| WorkoutStatistics.TotalWeightNonNegative | src/components/WorkoutSummary.tsx:22-26 | the total weight is never negative |
| WorkoutStatistics.ImprovementsAreGains | src/components/WorkoutSummary.tsx:27-35 | the volume increase is never negative, it is positive exactly when some set improved, and the improved sets are at most the counting sets |
| WorkoutStatistics.NoPreviousNoImprovement | src/components/WorkoutSummary.tsx:42-58 | without any previous best there are no improvements, no volume increase, and the strength percentage stays 0 |
| WorkoutStatistics.IncreaseTotalNonNegative | src/components/WorkoutSummary.tsx:44-56 | the summed strength increases are never negative |
| WorkoutStatistics.StrengthPercentageNonNegative | src/components/WorkoutSummary.tsx:54-57 | the average strength increase is never negative |
| WorkoutStatistics.CompletedExercises | src/components/WorkoutSummary.tsx:69 | the count is at most the number of exercises, equal to it exactly when all are completed, and 0 exactly when none is |
| SupplementTracking.Toggled | src/components/SupplementTracker.tsx:28-30 | the list keeps its length |
| SupplementTracking.ToggleChangesOnlyIndex | src/components/SupplementTracker.tsx:28-30 | only the entry at the index changes, and only in its `taken` flag; an index out of range changes nothing |
| SupplementTracking.ToggleTwice | src/components/SupplementTracker.tsx:28-30 | toggling the same index twice restores the list |
| SupplementTracking.ToastMatchesNewState | src/components/SupplementTracker.tsx:32-36 | the title says "removed" exactly when the toggle cleared the flag and "added" exactly when it set it |
| SupplementTracking.TakenToday | src/components/SupplementTracker.tsx:79 | the count is at most the list length, equal to it exactly when all are taken, 0 exactly when none is |
| SupplementTracking.ToggleChangesTakenCountByOne | src/components/SupplementTracker.tsx:27-37 | a toggle lowers the taken count by one if the entry was taken and raises it by one otherwise |
| SupplementTracking.ProgressBounds | src/components/SupplementTracker.tsx:119 | the bar is 0% for an empty list, always within 0-100%, 100% exactly when the list is non-empty and all taken, 0% exactly when none is taken |
| SupplementTracking.CategoryColor | src/components/SupplementTracker.tsx:55-65 | the grey default is returned exactly for strings that are not one of the six categories |
| SupplementTracking.CategoryText | src/components/SupplementTracker.tsx:67-77 | "Egyéb" is returned exactly for strings that are not one of the six categories |
| SupplementTracking.CategoriesAreDistinguished | src/components/SupplementTracker.tsx:55-77 | two different categories never share a label or a colour |
| SupplementTracking.SupplementTracker.constructor | src/components/SupplementTracker.tsx:12 | the list starts empty |
| SupplementTracking.SupplementTracker.Loaded | src/components/SupplementTracker.tsx:16-25 | the list becomes the loaded data |
| SupplementTracking.SupplementTracker.Toggle | src/components/SupplementTracker.tsx:27-37 | the list becomes `Toggled` of the old list, and the toast is worded from the entry as it was before the toggle |
| Admin.NewClient | src/components/AdminPanel.tsx:68-75 | a new client carries the id and the form's name, email and links as typed, "Még nincs aktivitás" as last activity, and all three flags false |
| Admin.CompletedFlags | src/components/AdminPanel.tsx:87 | the count is at most 3, 3 exactly when all flags are set, 0 exactly when none is |
| Admin.ActivityStatusReadsBack | src/components/AdminPanel.tsx:86-89 | the status is a digit 0-3 that reads back as the number of set flags, followed by "/3" |
| Admin.ActivityStatusDistinguishesCounts | src/components/AdminPanel.tsx:86-89 | two clients show the same status exactly when they have the same number of set flags |
| Admin.NewClientStatus | src/components/AdminPanel.tsx:68-89 | a client just added shows "0/3" |
| Admin.NoActivityIsNotToday | src/components/AdminPanel.tsx:71 | the last-activity text of a new client does not contain "2024-01-21" |
| Admin.ActiveTodayCount | src/components/AdminPanel.tsx:138 | the count is at most the number of clients, and 0 exactly when no last activity contains "2024-01-21" |
| Admin.WorkoutCompletedCount | src/components/AdminPanel.tsx:152 | the count is at most the number of clients, and 0 exactly when no workout is completed |
| Admin.AddedClientChangesOnlyTotal | src/components/AdminPanel.tsx:125-152 | after an add the client total is one higher and the active-today and workout-completed counts are unchanged |
| Admin.InitialCounts | src/components/AdminPanel.tsx:24-47 | the initial dashboard shows 2 clients, 2 active today and 1 with the workout done |
| Admin.InitialStatuses | src/components/AdminPanel.tsx:24-47 | the initial clients show "3/3" and "1/3" |
| Admin.AdminPanel.constructor | src/components/AdminPanel.tsx:24-54 | the registry starts with the two sample clients and an empty form |
| Admin.AdminPanel.SetName | src/components/AdminPanel.tsx:291 | only the form's name changes |
| Admin.AdminPanel.SetEmail | src/components/AdminPanel.tsx:301 | only the form's email changes |
| Admin.AdminPanel.SetSheetsUrl | src/components/AdminPanel.tsx:311 | only the form's sheets link changes |
| Admin.AdminPanel.SetDocsUrl | src/components/AdminPanel.tsx:320 | only the form's docs link changes |
| Admin.AdminPanel.AddClient | src/components/AdminPanel.tsx:58-84 | an empty name or email changes nothing; otherwise exactly one new client is appended after the others and the form is cleared |

## Left out

- Toast messages are modelled only for `toggleSupplement` (`SupplementTracking.SupplementTracker.Toggle`). The other toasts are not modelled, including the success toast of `addClient` in src/components/AdminPanel.tsx, whose description names the added client; the model states only whether each handler changed anything.
- `window.open` (purchase links, guide links), `handlePurchase`, and all JSX rendering are presentation and browser I/O.
- `saveWorkout` in src/components/WorkoutLogger.tsx only shows a toast, so it has no model.
- Loading supplements from the sheets service, and the loading flag, are asynchronous network I/O; `SupplementTracking.SupplementTracker.Loaded` takes the loaded list as a parameter.
- `Date.now().toString()` ids are parameters of `AddExercise`, `AddFood` and `AddClient`; nothing assumes they are unique.
- `parseFloat` of ingredient amounts is not modelled: the parsed number is the input (`MealIngredient.amount`), so a NaN amount is not represented.
- Typed reps go through `parseInt(...) || 0` and typed weights through `parseFloat(...) || 0` in src/components/WorkoutLogger.tsx, so NaN (and `-0`) already become 0 before `updateSet` runs. The parsed number is the `value` of `WorkoutLogging.WorkoutLogger.UpdateSet`; it is a `real`, so it also admits fractional reps, which the reps input cannot produce.
- Numbers are exact reals: floating-point rounding of sums and products is not modelled, and neither is `Math.round` in the returned statistics.
- A weight or reps that is itself `-0` cannot be written as a `real`; the sign of a zero volume is derived from the signs of its factors (`WorkoutStatistics.IsNegativeZero`).
- WorkoutStatistics.CalculateStats: returns the statistics before `Math.round`, because rounding to a float is not modelled.
- SupplementTracking.SupplementTracker.Toggle: requires an index in range; out of range the source queues a no-op update and then throws on reading `.taken` of a missing entry, and only the no-op part is modelled (by `Toggled`).
- WorkoutLogging.WorkoutLogger.RemoveSet: keeps every exercise non-empty only when every exercise with the id has more than one set; the button guard ensures that only for unique ids (`RemoveSetButtonIsSafe`), so colliding `Date.now()` ids are not covered.
- `Object.entries` lists integer-like keys before the others, and a meal type such as `__proto__` would hit the object's prototype; `MealPlanning.GroupByMealType` assumes plain string keys in insertion order.
- Fields not read by the modelled code are dropped from the datatypes: a supplement's purchase link; a meal option's `amount` and `calories`; an exercise's `workSets`, `repRange`, `videoUrl`, `volumeImprovement`, `weightIncrease`, `strengthIncrease`, `notes` and `hasImprovement`.
- The `mealTypes` label table and the `foodSuggestions` list are display constants.
- The hard-coded 87% weekly average card and the client-list rendering in src/components/AdminPanel.tsx are display only.
