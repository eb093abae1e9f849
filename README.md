# Meal planner: a verified model of its data and operations

The meal planner is a single-page web app (`meal_planner.py`). It keeps one
JSON document with three parts:

- `zutaten`: ingredients, with nutrition values per 100 g and a category;
- `rezepte`: recipes, each mapping ingredient names to grams, plus a
  serving count;
- `wochenplan`: the weekly plan, in which every day holds a list of timed
  meals.

The app computes a recipe's nutrition totals, the week's totals and meal
count, and a shopping list grouped by category. Its tabs create and delete
ingredients and recipes, edit the plan, and import ingredients from CSV.

This project models that core in Dafny and proves properties of the model.
There are nine modules:

- `Text`: Python's string order, `strip` and ASCII `lower`.
- `Model`: the entities, the plan as an ordered sequence of days, and
  which meals resolve to a recipe.
- `MealOrder`: the stable sort by time and `HH:MM` formatting.
- `Migration`: `load_data` with the legacy-plan migration.
- `RecipeNutrition`: `calculate_recipe_nutrition`.
- `Weekly`: the dashboard's aggregation.
- `Shopping`: `generate_shopping_list`, the category grouping and the
  kg/g threshold.
- `CsvImport`: the import's header and row policy.
- `Session`: a class holding the document and the recipe draft, whose
  methods are the buttons that change them.

Loops in the source are `method`s with loop invariants, proved equal to
specification functions. The properties are lemmas about those functions.

## Model

| member | source | states |
|---|---|---|
| Text.LeTotal | meal_planner.py:48 | Python's string order, which every `sort(key=zeit)` uses, is total |
| Text.LeTransitive | meal_planner.py:48 | the string order is transitive |
| Text.LeAntisymmetric | meal_planner.py:48 | strings that are ordered both ways are equal |
| Text.LtIsStrict | meal_planner.py:48 | "comes before" is exactly "not after and different" |
| Text.Strip | meal_planner.py:289 | the result has no white space (the characters `str.isspace` accepts) at either end, and only white space was cut from each end |
| Text.Lower | meal_planner.py:289 | same length; every character is lowered and no capital letter is left |
| Model.IndexOf | meal_planner.py:737 | `wochenplan[tag]` finds the day with that key: the first one, and no earlier day has it |
| Model.SetDay | meal_planner.py:737 | assigning a day's list sets that day's meals and keeps every other day; the key order is kept, or the key is appended if new; distinct keys stay distinct; every day that was there stays there |
| Model.SameTagsSameDays | meal_planner.py:744-745 | plans with the same keys in the same order have the same days, so clearing the week keeps every weekday |
| Model.ResolvedInDay | meal_planner.py:96-98 | the recipes of a day's meals that resolve (a non-empty name present in `rezepte`) all exist, and there are at most as many as meals |
| Model.ResolvedInDayStep | meal_planner.py:134-136 | one more meal adds its recipe exactly when it resolves |
| Model.ResolvedRecipesStep | meal_planner.py:132-134 | one more day adds exactly that day's resolving recipes |
| MealOrder.SortByZeitCorrect | meal_planner.py:48 | `sort(key=zeit)` yields a list ordered by time that is a permutation of the input and, being stable, keeps the order of meals with equal times |
| MealOrder.SortByZeitSorts | meal_planner.py:48 | the sort yields a time-ordered permutation of the same length |
| MealOrder.SortByZeitStable | meal_planner.py:48 | for every time, the meals at that time keep their relative order |
| MealOrder.StableSortIsUnique | meal_planner.py:48 | two time-ordered lists holding the same meals per time, in the same order, are equal |
| MealOrder.StableSortIsSortByZeit | meal_planner.py:48 | any stable sort by time gives exactly `SortByZeit` |
| MealOrder.SortedIsFixpoint | meal_planner.py:624 | re-sorting an already sorted day changes nothing |
| MealOrder.InsertAt | meal_planner.py:703-708 | appending then sorting puts the new meal after every meal not later than it and before every later one |
| MealOrder.InsertKeepsSorted | meal_planner.py:703-708 | inserting into a sorted day keeps it sorted and adds exactly that meal |
| MealOrder.InsertIsStable | meal_planner.py:703-708 | the new meal goes after the meals whose time is equal to its own |
| MealOrder.AppendThenSort | meal_planner.py:703-708 | appending to a sorted day and sorting equals a single insertion at the computed place |
| MealOrder.WithZeitConcat | meal_planner.py:48 | the meals per time of a concatenation are those of each part, in order |
| MealOrder.FormatZeit | meal_planner.py:699 | `strftime("%H:%M")` always gives five characters with a colon at position 2 |
| MealOrder.FormatZeitOrder | meal_planner.py:699 | string order on the formatted times is exactly clock order |
| MealOrder.FormatZeitInjective | meal_planner.py:699 | different times of day format differently |
| MealOrder.FormatZeitSlotTimes | meal_planner.py:699 | the picker's 8:00, 12:00, 15:00 and 18:00 are written exactly as the migration's slot table writes them |
| Migration.CollectEntries | meal_planner.py:40-46 | the inner loop gives one meal per slot with a non-empty recipe, in slot order, at the slot's mapped time |
| Migration.Migrate | meal_planner.py:27-49 | the migration loop computes `MigratePlan`: the plan unchanged unless its first day is legacy; otherwise every day converted, or a failure when a later day is already a list |
| Migration.DefaultDocument | meal_planner.py:55-67 | without a file, the document has no ingredients or recipes and seven empty days, Montag to Sonntag |
| Migration.LoadData | meal_planner.py:20-67 | the default document without a file; otherwise the stored document with its plan migrated, or a failure |
| Migration.UniformPlanLoads | meal_planner.py:27-53 | a stored plan whose days are all dictionaries or all lists loads, and the result is a list per day under the same keys in the same order |
| Migration.LoadedPlanFitsSession | meal_planner.py:20-67 | the default document's plan is the seven weekdays with empty lists; a stored file with one shape of day that names every weekday loads to a plan with distinct keys naming every weekday; either way the plan meets the session's requirement |
| Migration.SlotEntriesContents | meal_planner.py:41-46 | exactly the filled slots become meals, as many as there are filled slots |
| Migration.ConvertDayCorrect | meal_planner.py:39-48 | a converted day is time-ordered, has one meal per filled slot and exactly those meals, in stable order |
| Migration.MigrateLegacy | meal_planner.py:30-49 | a fully legacy plan migrates to one of the same days, each now a sorted list of its filled slots, and is no longer legacy |
| Migration.MigrateOutcome | meal_planner.py:27-30 | migration fails exactly when the first day is legacy and some day is a list; a current plan is left as it is |
| Migration.MigrateIdempotent | meal_planner.py:27-51 | migrating a migrated plan changes nothing, so the migration happens only once |
| Migration.MigrationExample | meal_planner.py:33-48 | breakfast and dinner filled with lunch empty gives `[08:00, 18:00]` |
| Migration.MigrationNoonExample | meal_planner.py:44 | an unknown slot gets noon and stays after a noon meal listed before it; breakfast sorts first |
| RecipeNutrition.CalculateRecipeNutrition | meal_planner.py:75-88 | the four accumulators end at the sum, over all recipe lines, of the ingredient's per-100 g values times `menge / 100`; missing ingredients add nothing |
| RecipeNutrition.SumOverPick | meal_planner.py:79 | the total does not depend on the order in which lines are visited |
| RecipeNutrition.TotalOfMissingIngredients | meal_planner.py:80 | a recipe with no existing ingredient (an empty recipe included) totals zero |
| RecipeNutrition.TotalWithoutIngredient | meal_planner.py:80-86 | removing a used ingredient from the table lowers the total by exactly its contribution |
| RecipeNutrition.TotalIgnoresMissingIngredient | meal_planner.py:80 | a line naming a missing ingredient can be dropped without changing the total |
| RecipeNutrition.TotalNonNegative | meal_planner.py:198-204 | with non-negative form inputs, totals are non-negative |
| RecipeNutrition.TotalExample | meal_planner.py:82-86 | 200 g of an ingredient gives twice its per-100 g values |
| Weekly.AggregateWeek | meal_planner.py:129-143 | the dashboard loop's count is the number of resolving meals, and its totals are the sum of their recipes' totals, one term per occurrence |
| Weekly.AggregateDay | meal_planner.py:134-143 | the inner loop adds one count and one recipe total per resolving meal of the day |
| Weekly.DailyAverage | meal_planner.py:160-162 | an average is shown exactly when the count is positive, and seven times it is the weekly total |
| Weekly.ResolvedRecipesConcat | meal_planner.py:132 | the resolving recipes of two parts of the plan are those of each part, in order |
| Weekly.TotalOfConcat | meal_planner.py:142-143 | the totals of two runs of meals add up |
| Weekly.ScheduleOneMore | meal_planner.py:703-708 | adding a meal anywhere raises the count by one and the totals by its recipe's totals when it resolves, and changes neither when it does not |
| Weekly.NothingResolves | meal_planner.py:136-162 | the count is zero exactly when no meal resolves; then the totals are zero and no average is shown |
| Weekly.NothingResolvesInDay | meal_planner.py:136 | no resolving recipe for a day exactly when none of its meals resolves |
| Weekly.WeeklyIgnoresPortionen | meal_planner.py:138-141 | the weekly count and totals are those of whole recipes; the serving count plays no part |
| Shopping.AddQuantities | meal_planner.py:100-101 | adding a recipe's lines to the list sums quantities per ingredient, with a missing entry counting as 0 |
| Shopping.AddRecipe | meal_planner.py:100-101 | the loop over a recipe's lines computes `AddQuantities` |
| Shopping.AddDay | meal_planner.py:96-101 | the loop over one day's meals adds the lines of each resolving meal's recipe |
| Shopping.GenerateShoppingList | meal_planner.py:90-103 | the list is the per-ingredient sum over all resolving meals of the week |
| Shopping.ShoppingForMeaning | meal_planner.py:98-101 | an ingredient is on the list exactly when some resolving meal's recipe uses it, and its quantity is the sum of its grams over all occurrences |
| Shopping.ShoppingListMeaning | meal_planner.py:90-103 | the same, for the week's plan |
| Shopping.EmptyPlanEmptyList | meal_planner.py:754-757 | with no resolving meal the list is empty |
| Shopping.ShoppingExample | meal_planner.py:94-101 | a recipe planned on two days doubles its quantities |
| Shopping.ShoppingIgnoresPortionen | meal_planner.py:100-101 | quantities are those of whole recipes, whatever the serving count |
| Shopping.MinOf | meal_planner.py:763 | the least name of a non-empty set, under Python's string order |
| Shopping.SortStrings | meal_planner.py:763-771 | `sorted` gives each element of the set once, in strictly increasing order |
| Shopping.Bucket | meal_planner.py:763-768 | the bucketing loop files every entry under its category (the stored one, "Sonstiges" when none, "Unbekannt" for an unknown ingredient), each bucket in name order and holding only entries of the list |
| Shopping.GroupByCategory | meal_planner.py:762-773 | the groups follow category order, each is non-empty and in name order, each entry carries its list quantity under its own category, and every entry of the list appears |
| Shopping.Filing | meal_planner.py:768 | appending an entry touches only its category's bucket |
| Shopping.BucketStepValid | meal_planner.py:763-768 | each bucketing step keeps the buckets in name order and holding only list entries |
| Shopping.BucketStepFiled | meal_planner.py:768 | each bucketing step files the new entry and keeps every earlier one filed |
| Shopping.DisplayAmount | meal_planner.py:775-778 | kilograms exactly from 1000 g on (then at least 1 kg), grams below, always the same quantity |
| CsvImport.FirstLine | meal_planner.py:283 | `split('\n')[0]` is the longest prefix without a newline |
| CsvImport.DelimiterFromFirstLine | meal_planner.py:283-286 | the delimiter is `;` exactly when the first line contains one, and `,` otherwise; later lines play no part |
| CsvImport.NormalizeHeaders | meal_planner.py:289 | each header is stripped and lower-cased |
| CsvImport.NormalizeIdempotent | meal_planner.py:289 | normalizing a normalized header changes nothing |
| CsvImport.RenamedIsCanonical | meal_planner.py:292-306 | the renames done one pair at a time in mapping order amount to one lookup of the canonical name |
| CsvImport.RenameColumns | meal_planner.py:304-306 | the rename loop gives every column its canonical name and leaves other columns as they are |
| CsvImport.MissingAmong | meal_planner.py:310 | the missing columns are never more than the required ones |
| CsvImport.MissingAmongMeaning | meal_planner.py:309-310 | exactly the absent required columns are reported, and none once all are there |
| CsvImport.PaddedSpellingAccepted | meal_planner.py:289-306 | " FETT" is accepted as `Fette` |
| CsvImport.AlternativeSpellingAccepted | meal_planner.py:292-306 | "Kalorien" is accepted as `Kcal` |
| CsvImport.MissingExample | meal_planner.py:309-310 | missing columns are reported in the order of `required` |
| CsvImport.NothingMissingExample | meal_planner.py:309-312 | the five required columns in any order, beside others, pass the check |
| CsvImport.AddDefaultKategorie | meal_planner.py:317-318 | without a Kategorie column every row gets "Sonstiges"; otherwise the rows stay as they are |
| CsvImport.ImportRow | meal_planner.py:358-384 | a row is skipped exactly when its stripped name exists and the action is skip; otherwise it fails exactly when a value does not convert; otherwise it is imported under its stripped name with the row's four values and the row's category or the default |
| CsvImport.Outcomes | meal_planner.py:358 | one outcome per row, in row order |
| CsvImport.RecordAllStep | meal_planner.py:358-384 | each row adds to exactly one of imported, skipped or errors; an error is reported for line index + 2; an import overwrites that name |
| CsvImport.CountsAddUp | meal_planner.py:353-384 | imported + skipped + errors is the number of rows |
| CsvImport.ErrorsAreFailedLines | meal_planner.py:384 | the reported lines are exactly the failed rows' index + 2 |
| CsvImport.ErrorsInOrder | meal_planner.py:384 | the reported lines are in file order, not repeated, and within 2 to rows + 1 |
| CsvImport.ImportedNames | meal_planner.py:374-381 | afterwards the table holds exactly the old names and the imported ones |
| CsvImport.LastRowWins | meal_planner.py:374-381 | among rows importing the same name, the last one's values are kept |
| CsvImport.UntouchedNames | meal_planner.py:374-381 | a name that no row imports keeps its old entry, or stays absent |
| CsvImport.SkipKeepsExisting | meal_planner.py:363-366 | under skip, an existing ingredient keeps its entry |
| CsvImport.ImportedKategorie | meal_planner.py:369-371 | an imported ingredient's category is never empty; a missing, NaN or empty one becomes the default |
| CsvImport.NoKategorieColumn | meal_planner.py:317-370 | with no Kategorie column, an imported row gets "Sonstiges", not the selected default |
| CsvImport.NoDuplicatesMeansSkip | meal_planner.py:334-348 | with no raw name among the existing ones the action is skip, whatever was chosen |
| Session.DraftMap | meal_planner.py:515 | the saved recipe has exactly the draft's ingredient names |
| Session.DraftMapOfDistinct | meal_planner.py:515 | each draft item's grams are saved for its name |
| Session.SlotsInPlanMeaning | meal_planner.py:586-590 | the refusal lists exactly the (day, time) pairs at which the recipe is scheduled |
| Session.SlotsInDayMeaning | meal_planner.py:588-590 | the same, for one day |
| Session.RefusedIffScheduled | meal_planner.py:592 | the list is non-empty exactly when the recipe is scheduled somewhere |
| Session.ClearedWeek | meal_planner.py:744-745 | every day of the week left empty, with the same keys in the same order |
| Session.ClearedWeekIsEmpty | meal_planner.py:744-745 | after clearing the week, the count and totals are zero and the shopping list is empty |
| Session.UnusedIngredientChangesNoTotal | meal_planner.py:435-440 | deleting an ingredient no recipe uses changes no recipe's total |
| Session.SetDayResolves | meal_planner.py:737 | replacing one day with meals that resolve keeps every meal resolving |
| Session.SortedResolves | meal_planner.py:703-708 | the sorted day after an add still names only existing recipes |
| Session.PopMeal | meal_planner.py:659 | `pop(idx)` removes exactly that meal and keeps a sorted day sorted |
| Session.Session.constructor | meal_planner.py:106-107 | the session starts with the loaded document and an empty draft; its plan has distinct keys and names the seven weekdays |
| Session.Session.AddIngredient | meal_planner.py:214-225 | a nameless submit does nothing; an existing name is refused and nothing changes; otherwise the ingredient is stored with its values and category |
| Session.Session.DeleteIngredient | meal_planner.py:433-443 | refused, with exactly the recipes that use it, when some recipe uses it; otherwise it is removed; recipes keep referring only to existing ingredients |
| Session.Session.AddDraftItem | meal_planner.py:482-489 | nothing without an ingredient or a positive quantity; refused when the ingredient is already in the draft; appended exactly when it is named, positive and not yet in the draft |
| Session.Session.RemoveDraftItem | meal_planner.py:499-500 | `pop(idx)` on the draft |
| Session.Session.ResetDraft | meal_planner.py:523-524 | the draft is emptied and nothing else changes |
| Session.Session.SaveRecipe | meal_planner.py:506-521 | the errors come in order: no name, then no ingredients, then existing name; on success the recipe is the draft as a map together with the serving count, and the draft is emptied |
| Session.Session.PlanSlots | meal_planner.py:586-590 | the scan of the plan collects `SlotsInPlan`, the pairs the refusal message lists |
| Session.Session.DeleteRecipe | meal_planner.py:584-598 | refused with the scheduled slots exactly when the recipe is in the plan; otherwise removed; meals keep resolving |
| Session.Session.ShowDay | meal_planner.py:610-624 | showing a weekday the selector offers sorts its list in place by time, stably |
| Session.Session.RemoveMeal | meal_planner.py:659 | the selected weekday loses exactly the meal at `idx`; other days are unchanged |
| Session.Session.AddMeal | meal_planner.py:692-708 | no time, then no recipe, are refused in that order; otherwise the selected weekday becomes the stable sort of the old list plus the new `HH:MM` meal, a sorted permutation of it |
| Session.Session.ClearDay | meal_planner.py:736-737 | the selected day becomes empty; other days are unchanged |
| Session.Session.ClearWeek | meal_planner.py:743-745 | every day becomes empty; the keys and their order are kept |
| Session.Session.ImportCsv | meal_planner.py:317-384 | the import's counts, error lines and new table are those of the row policy, with the name set taken before the loop; no ingredient disappears |

## Left out

- Reading and writing the JSON file (`save_data`, `os.path.exists`, `json.load`) are left out: the parsed file is a parameter of `Migration.LoadData`, and every operation's save is not modelled.
- Streamlit rendering, widgets, `st.rerun` and the text of messages are left out. A button press is a method call, and its message is an `Outcome` value.
- pandas parsing of the CSV into cells is left out: a row arrives already parsed, with `None` values when a numeric cell does not convert with `float()`. Which exception text goes into an error line is not modelled; only the line number is.
- Numbers are mathematical reals, not IEEE doubles. Rounding in the displayed values, NaN in numeric cells and float overflow are not modelled.
- `Text.Lower` lowers ASCII letters only; Python's Unicode case mapping is not modelled. `Text.Strip` cuts the characters `str.isspace` accepts.
- `Text.Le` assumes Python compares strings code point by code point, and Dafny's `char` here stands for one code point.
- The per-portion figures (:579-582, :646-655) and the exported text list with its `datetime.now()` stamp (:780-803) are display only, and are not modelled.
- The dashboard's recipe and ingredient statistics and the tables of existing entries are display only, and are not modelled.
- Slot names: the migration's table uses the German slot names Frühstück, Mittagessen, Abendessen and Snacks, as the code does.
- A CSV without a Kategorie column: the code fills the column with "Sonstiges" (:317-318) before the per-row default is consulted. Such rows therefore never get the selected default. The model follows the code; `CsvImport.NoKategorieColumn` states it.
- An empty Name cell: pandas reads it as NaN, which `str()` turns into "nan", and the model imports it under that name, as the code does.
- Duplicate detection: the warning and the choice of action compare raw names (:335-336), but the skip test compares stripped names (:361-363). The model keeps both as written.
- A meal without a `rezept` key, or with a falsy one, is modelled by the empty recipe name. The two differ only if a recipe named "" exists, which the save button's check rules out.
- Session.Session.constructor: requires a plan with distinct keys that names all seven weekdays. The plan tab looks up the selected weekday (:621) and every weekday of the overview (:720), so a stored file lacking one raises KeyError there; that crash is not modelled. `Migration.LoadedPlanFitsSession` shows the requirement holds for the default document and for every file with one shape of day that names the seven weekdays.
- Session.Session.ShowDay, Session.Session.RemoveMeal and Session.Session.AddMeal take one of the seven weekdays, which is all the selector (:610-614) offers.
- A stored file without a `wochenplan` key, or with a day value that is neither a dictionary nor a list, is accepted by `load_data` (:27) but cannot be written as a `Migration.RawDocument`. The app then fails at its first `data["wochenplan"]` lookup; neither input is modelled.
- A stored plan whose first day is a list but a later day a dictionary loads unchanged and is not a plan of lists (`Migration.ToPlan` gives `None`); what the tabs then do with it is not modelled.
- Session.Session.DeleteIngredient: requires that the ingredient exists, as the delete button appears only next to an existing ingredient.
- Session.Session.DeleteRecipe: requires that the recipe exists, for the same reason.
- Weekly.TotalOf: a name that is not a recipe contributes nothing. Only resolving recipes are ever summed, so this case never arises.
- Shopping.ShoppingFor: likewise, a name that is not a recipe contributes nothing.
- Summation order: `calculate_recipe_nutrition` visits a recipe's lines in dict order, which the model does not fix. `RecipeNutrition.SumOverPick` shows the order does not matter for reals. With floats it could change the last digit, which is not modelled.
- Session.Session.ImportCsv: takes the rows after the header check has passed. A failing header check only shows the missing columns (`CsvImport.MissingAmongMeaning`) and changes nothing.
