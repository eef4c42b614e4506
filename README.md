# Recipe recommendation core, modelled in Dafny

The recipe service suggests recipes to a user and generates new ones with a
language model. This project models its algorithmic core and proves
properties of that model:

- the **recipe scorer** (`calculate_recipe_score`): eight weighted factors
  (cuisine, meal type, cooking time, ingredient availability, dietary
  compliance, user profile, spice level, easy difficulty), with two
  disqualifications that force the score to 0;
- the **recommendation ranker** (`get_recommended_recipes`): it scores every
  base recipe, keeps the positive ones, sorts them (stable, highest score
  first), keeps five and converts each to the response shape;
- the **generated-recipe parser** (`parse_generated_recipe`): one pass over
  the text's lines with a three-state section variable and a step counter;
- the **recipe text format** the generator writes ("Title: …", "Cooking Time:
  N minutes", "- name: quantity notes", "N. text (Time: M minutes)"), with a
  round trip: parsing a rendered record gives the record back;
- the **user-profile edits**: the cooking history (newest first, at most 50),
  saved recipes, disliked ingredients (case-insensitive), and the shallow
  merge that writes a profile back;
- the **enumerations and records** of the request and response models;
- two frontend helpers: the cooking-time label `formatTime`, and the
  ingredient list of the request form with its add and remove handlers.

Modules: `Wrappers` (Option), `Text` (Python and JavaScript string
operations: `strip`, `lower`, `split`, `join`, `replace`, `in`, `int()`,
`str()`), `Models`, `Recommendation`, `RecipeParser`, `RecipeFormat`,
`UserProfileService`, `RecipeDisplay`, `RecipeInputForm`.

Each loop of the source is a method with loop invariants, except the restriction
check of `violates_dietary_restrictions`, which is the predicate
`ViolatesDietaryRestrictions`. Each such method is proved equal to a reference
function:

- `CalculateRecipeScore` computes `Score`;
- `GetRecommendedRecipes` computes the conversion of `Ranking`;
- `ParseGeneratedRecipe` computes `Parse`, a left fold of `Step` over the lines.

The properties are lemmas about those functions. The profile dictionary
that the service edits in place is the class `ProfileDoc`. The request form's
state is the class `IngredientForm`. Scores are exact `real`s.

## Model

| member | source | states |
|---|---|---|
| Models.NewUserPreferences | backend/models/recipe.py:44-50 | the four required fields are as given; the dietary restrictions and available ingredients default to empty lists |
| Models.DietaryRestrictionsEnumerated | backend/models/recipe.py:35-42 | `DietaryRestriction` has exactly seven members, pairwise distinct and with pairwise distinct values |
| Recommendation.ParseCookingTime | backend/services/recommendation.py:152-166 | the minutes are 15, 30, 45 or 60: the first of "15", "30", "45", "60" that the label contains, tried in that order, else 30 |
| Recommendation.CookingTimeLabels | backend/models/recipe.py:29-33 | each `CookingTime` label contains exactly one of the four markers, its own, so the labels map to 15, 30, 45 and 60 |
| Recommendation.TimeFactor | backend/services/recommendation.py:86-93 | 0.15 exactly when the time is within the limit, 0.075 exactly when it is at most 15 minutes over, 0 otherwise |
| Recommendation.RestrictionWordLists | backend/services/recommendation.py:168-204 | a restriction's lower-cased value has no forbidden-word list exactly when it is Halal or Kosher |
| Recommendation.ListedRestrictions | backend/services/recommendation.py:176-202 | Vegetarian, Vegan, Gluten-Free, Dairy-Free and Nut-Free each carry a non-empty word list |
| Recommendation.UnlistedRestrictions | backend/services/recommendation.py:176-204 | Halal and Kosher lower-case to names without a word list |
| Recommendation.UnlistedRestrictionsNeverViolate | backend/services/recommendation.py:168-204 | a list of restrictions without word lists, including the empty list, never disqualifies a recipe |
| Recommendation.VegetarianRejectsChicken | backend/services/recommendation.py:179-182 | a vegetarian restriction rejects a recipe listing "Chicken", because names are compared after lower-casing |
| Recommendation.VegetarianAcceptsChickenBreast | backend/services/recommendation.py:181 | matching is whole-name equality: "Chicken breast" does not break a vegetarian restriction |
| Recommendation.CuisineFactor | backend/services/recommendation.py:69-75 | 0.3 exactly on case-insensitive equality; 0.15 exactly when they differ and one contains the other; 0 otherwise |
| Recommendation.MealTypeNames | backend/services/recommendation.py:79 | the requested meal types, lower-cased, one per requested type, in order |
| Recommendation.MealTypeFactor | backend/services/recommendation.py:77-84 | 0.1 exactly when some requested meal type is a tag or occurs inside one, else 0; counted once |
| Recommendation.ViolatesDietaryRestrictions | backend/services/recommendation.py:168-204 | some restriction's word list holds a lower-cased ingredient name, and never for an empty list; characterised by `RestrictionWordLists`, `UnlistedRestrictionsNeverViolate` and the two examples (no contract of its own) |
| Recommendation.MatchCount | backend/services/recommendation.py:99-104 | the number of matched recipe ingredients never exceeds the number of recipe ingredients |
| Recommendation.MatchCountAll | backend/services/recommendation.py:99-104 | the count equals the number of ingredients exactly when every ingredient matches an available one |
| Recommendation.MatchCountNone | backend/services/recommendation.py:99-104 | the count is 0 exactly when no ingredient matches an available one |
| Recommendation.ShareBounds | backend/services/recommendation.py:106-108 | the matched share lies in [0, 1]; it is 1 exactly for all matched and 0 exactly for none |
| Recommendation.AvailabilityFactor | backend/services/recommendation.py:95-108 | 0.25 times the matched share `MatchCount / len` of the lower-cased ingredients, and 0 for an empty list; so in [0, 0.25], 0.25 exactly when the list is non-empty and every ingredient is available, 0 exactly when none is |
| Recommendation.MatchCountMonotone | backend/services/recommendation.py:99-104 | a list of available ingredients that includes another never matches fewer ingredients |
| Recommendation.AvailabilityMonotone | backend/services/recommendation.py:95-108 | offering more available ingredients never lowers the availability factor |
| Recommendation.ExtractSpiceLevel | backend/services/recommendation.py:206-218 | "spicy" exactly when the title contains "spicy" or a tag equals it; else "mild" by the same test; else "medium" |
| Recommendation.IndexOf | backend/services/recommendation.py:225-226 | `list.index`: the first position holding the value, or none exactly when the value is absent |
| Recommendation.SpiceLevelsCompatible | backend/services/recommendation.py:220-231 | a label outside the hierarchy is always compatible |
| Recommendation.IndexOfDistinct | backend/services/recommendation.py:222-226 | in a list without repeats, each element's index is its position |
| Recommendation.SpiceHierarchyDistinct | backend/services/recommendation.py:222 | the four hierarchy levels are distinct |
| Recommendation.SpiceCompatibilitySymmetric | backend/services/recommendation.py:225-229 | compatibility is symmetric |
| Recommendation.SpiceCompatibility | backend/services/recommendation.py:222-229 | two hierarchy levels are compatible exactly when their positions differ by at most one |
| Recommendation.SpiceLevelNamesMatchHierarchy | backend/models/recipe.py:17-21 | the lower-cased `SpiceLevel` values are exactly the hierarchy, in order |
| Recommendation.SpiceFactor | backend/services/recommendation.py:132-139 | 0.1 exactly for equal levels; 0.05 exactly for different but compatible ones; 0 otherwise |
| Recommendation.Score | backend/services/recommendation.py:56-146 | the sum of the eight factors, or 0 when disqualified; bounded by `ScoreRange` and computed by `CalculateRecipeScore` (no contract of its own) |
| Recommendation.ScoreRange | backend/services/recommendation.py:66-146 | a disqualified recipe scores 0 whatever its other factors; any other recipe scores between 0.2 and 1.25; the score is positive exactly when the recipe is not disqualified |
| Recommendation.MatchMealType | backend/services/recommendation.py:81-84 | the loop finds a match exactly when some requested meal type matches a tag |
| Recommendation.CountMatchingIngredients | backend/services/recommendation.py:99-104 | the nested loop with `break` counts each ingredient once: the result is `MatchCount` |
| Recommendation.FindDislikedIngredient | backend/services/recommendation.py:123-126 | the loops find a pair exactly when some ingredient and some disliked ingredient contain one another |
| Recommendation.PreferenceScore | backend/services/recommendation.py:66-108 | the first four increments add up to the cuisine, meal-type, time and availability factors |
| Recommendation.CalculateRecipeScore | backend/services/recommendation.py:56-146 | the step-by-step score, with its early returns, equals `Score` |
| Recommendation.Scored | backend/services/recommendation.py:21-33 | the kept entries come from the input, carry their own score, and that score is positive |
| Recommendation.ScoredSnoc | backend/services/recommendation.py:23-33 | one more candidate extends the kept list exactly when its score is positive |
| Recommendation.ScoredPrefix | backend/services/recommendation.py:23-33 | the entries kept from a prefix of the candidates lead the entries kept from all of them |
| Recommendation.ScoredInOrder | backend/services/recommendation.py:23-33 | a candidate scoring above 0 is kept, with its score, right after the entries of the candidates before it, and one scoring 0 or less is not: every positive candidate is kept, in input order |
| Recommendation.InsertByScorePermutes | backend/services/recommendation.py:36 | an insertion adds exactly the inserted entry |
| Recommendation.InsertByScoreSorted | backend/services/recommendation.py:36 | inserting into a non-increasing list keeps it non-increasing |
| Recommendation.InsertByScoreStable | backend/services/recommendation.py:36 | an insertion puts the entry ahead of those with the same score and keeps their order |
| Recommendation.SortByScoreDesc | backend/services/recommendation.py:36 | `sort(key=score, reverse=True)`; characterised by `SortByScoreDescPermutes`, `SortByScoreDescSorted` and `SortByScoreDescStable` (no contract of its own) |
| Recommendation.SortByScoreDescPermutes | backend/services/recommendation.py:36 | the sort is a permutation |
| Recommendation.SortByScoreDescSorted | backend/services/recommendation.py:36 | the sorted scores are non-increasing |
| Recommendation.SortByScoreDescStable | backend/services/recommendation.py:36 | the sort is stable: the entries with any one score keep their input order |
| Recommendation.TopOfSorted | backend/services/recommendation.py:36-37 | the first n sorted entries are sorted, are drawn from the list, and outscore every entry left out |
| Recommendation.TopOfSortedStable | backend/services/recommendation.py:36-37 | for each score, the kept entries with that score are the first input entries with that score |
| Recommendation.Ranking | backend/services/recommendation.py:21-37 | the first five of the sorted positive candidates; characterised by `RankingProperties` (no contract of its own) |
| Recommendation.RankingProperties | backend/services/recommendation.py:21-37 | the ranking has min(5, number of positive candidates) entries, all positive and from the input, in non-increasing order; none left out outscores one kept; ties keep input order; an empty input gives an empty ranking |
| Recommendation.ConvertedRecipe | backend/services/recommendation.py:233-269 | one ingredient per base ingredient with quantity "as needed" and no notes; one instruction, step 1, carrying the cooking time; id, title and time kept |
| Recommendation.ConvertToGeneratedRecipe | backend/services/recommendation.py:233-269 | the appending loop builds `ConvertedRecipe` |
| Recommendation.ConvertAll | backend/services/recommendation.py:39-47 | each kept candidate is converted, in order |
| Recommendation.GetRecommendedRecipes | backend/services/recommendation.py:7-50 | the result is the ranking's candidates, converted and in ranking order, at most 5 of them |
| RecipeParser.TagsValue | backend/api/recipes.py:203-205 | the tag count is the value's comma count plus one, and every tag is stripped |
| RecipeParser.TagsHaveNoComma | backend/api/recipes.py:205 | no tag contains a comma |
| RecipeParser.WithTitle | backend/api/recipes.py:241-243 | the title is never empty: an empty title becomes "Yippee! Fusion Delight" and nothing else changes |
| RecipeParser.IngredientOf | backend/api/recipes.py:210-222 | the ingredient a "-" line yields, or none without ':'; computed by `ParseIngredientLine` and read back by `IngredientLineValue` (no contract of its own) |
| RecipeParser.ParseIngredientLine | backend/api/recipes.py:210-222 | the ingredient branch computes `IngredientOf`, with none for a line without ':' |
| RecipeParser.InstructionOf | backend/api/recipes.py:223-238 | the instruction a digit line yields; computed by `ParseInstructionLine` and read back by `InstructionLineValue` (no contract of its own) |
| RecipeParser.ParseInstructionLine | backend/api/recipes.py:223-238 | the instruction branch computes `InstructionOf` |
| RecipeParser.Step | backend/api/recipes.py:186-239 | one iteration of the parsing loop; characterised by `StepSection`, `StepTitle`, `StepIngredients`, `StepInstructions` and `StepKeepsHeader` (no contract of its own) |
| RecipeParser.StepSection | backend/api/recipes.py:206-209 | the section changes only on an "Ingredients:" or "Instructions:" line |
| RecipeParser.StepTitle | backend/api/recipes.py:191-192 | a "Title:" line sets the title in every section and changes nothing else |
| RecipeParser.StepIngredients | backend/api/recipes.py:210-222 | the ingredients change only on a "-" line holding ':' in the ingredients section, and then by one entry appended at the end |
| RecipeParser.ColonInIngredientLine | backend/api/recipes.py:212 | a line the ingredient branch accepts holds a ':' |
| RecipeParser.DashLineIsNoHeader | backend/api/recipes.py:191-210 | a line starting with '-' matches none of the seven prefixes tried before the ingredient branch |
| RecipeParser.StepInstructions | backend/api/recipes.py:223-239 | the instructions change only on a digit line in the instructions section, by one appended entry numbered with the counter, and the counter moves exactly then |
| RecipeParser.DigitLineIsNoHeader | backend/api/recipes.py:191-223 | a line starting with a digit matches none of the prefixes tried before the instruction branch |
| RecipeParser.CookingTimeFallback | backend/api/recipes.py:195-200 | a "Cooking Time:" line whose value has no leading integer sets the time to 30 whatever it was, in any section, and changes nothing else |
| RecipeParser.InstructionTimeFallback | backend/api/recipes.py:223-238 | an instruction line appends one instruction, whose time is none exactly when the line has no "(Time:" part or that part has no leading integer |
| RecipeParser.StepNumbering | backend/api/recipes.py:184 | instructions are numbered 1, 2, 3, … in line order, whatever their numerals, and the counter is one past the last |
| RecipeParser.EntriesOnlyGrow | backend/api/recipes.py:210-239 | ingredients and instructions are only appended: those parsed from a prefix of the lines lead those parsed from more lines |
| RecipeParser.StepKeepsHeader | backend/api/recipes.py:191-205 | only a line of a header's own kind changes that header field |
| RecipeParser.HeaderDefault | backend/api/recipes.py:173-181 | a header without a line of its kind keeps its default: "", "", 30, "Medium" or no tags |
| RecipeParser.ParsedTitle | backend/api/recipes.py:241-243 | the parsed title is never empty, and is "Yippee! Fusion Delight" when no non-empty title was parsed or no "Title:" line exists |
| RecipeParser.EmptyTagsLine | backend/api/recipes.py:204-205 | "Tags:" with nothing after it gives one empty tag, not none |
| RecipeParser.Parse | backend/api/recipes.py:168-245 | the fold of `Step` over the lines, then the default title; computed by `ParseGeneratedRecipe`, characterised by `ParsedTitle`, `HeaderDefault` and `StepNumbering`, inverted by `RoundTrip` (no contract of its own) |
| RecipeParser.ParseGeneratedRecipe | backend/api/recipes.py:168-245 | the loop that mutates the record, section and counter computes `Parse` |
| RecipeFormat.HeaderLineValue | backend/api/recipes.py:191-202 | "Header value" reads back as the value when the value is stripped and holds no copy of the header |
| RecipeFormat.MinutesText | backend/api/recipes.py:196-198 | "N minutes" is stripped and its leading integer is N |
| RecipeFormat.CookingTimeLine | backend/api/recipes.py:195-200 | "Cooking Time: N minutes" reads back as N |
| RecipeFormat.TagsJoin | backend/api/recipes.py:204-205 | tags joined with ", " and split back at the commas give the tags |
| RecipeFormat.TagsLine | backend/api/recipes.py:203-205 | "Tags: a, b, …" reads back as the tags |
| RecipeFormat.QuantityNotes | backend/api/recipes.py:214-216 | the text after the colon splits at its first space into the quantity and the notes, or none |
| RecipeFormat.IngredientLineValue | backend/api/recipes.py:210-222 | "- name: quantity notes" reads back as the ingredient |
| RecipeFormat.TimeLine | backend/api/recipes.py:226-232 | " M minutes)" after "(Time:" reads back as M |
| RecipeFormat.InstructionRest | backend/api/recipes.py:224-238 | the text after the numeral splits at "(Time:" into the instruction and its time, or is the instruction alone |
| RecipeFormat.InstructionLineValue | backend/api/recipes.py:223-238 | "N. text (Time: M minutes)" reads back as the instruction, renumbered by the counter |
| RecipeFormat.TitleStep | backend/api/recipes.py:191-192 | a title line sets the title and nothing else |
| RecipeFormat.DescriptionStep | backend/api/recipes.py:193-194 | a description line sets the description and nothing else |
| RecipeFormat.CookingTimeStep | backend/api/recipes.py:195-200 | a cooking-time line sets the cooking time and nothing else |
| RecipeFormat.DifficultyStep | backend/api/recipes.py:201-202 | a difficulty line sets the difficulty and nothing else |
| RecipeFormat.TagsStep | backend/api/recipes.py:203-205 | a tags line sets the tags and nothing else |
| RecipeFormat.IngredientsHeaderStep | backend/api/recipes.py:206-207 | "Ingredients:" switches to the ingredients section and changes nothing else |
| RecipeFormat.InstructionsHeaderStep | backend/api/recipes.py:208-209 | "Instructions:" switches to the instructions section and changes nothing else |
| RecipeFormat.IngredientStep | backend/api/recipes.py:210-222 | in the ingredients section an ingredient line appends its ingredient |
| RecipeFormat.InstructionStep | backend/api/recipes.py:223-239 | in the instructions section an instruction line appends its instruction, numbered by the counter, and advances the counter |
| RecipeFormat.RunIsParseLines | backend/api/recipes.py:186-239 | the parser's pass over the first n lines is the fold over that prefix |
| RecipeFormat.HeadersRun | backend/api/recipes.py:191-205 | the five header lines set the five header fields |
| RecipeFormat.IngredientsRun | backend/api/recipes.py:210-222 | ingredient lines append their ingredients in order |
| RecipeFormat.InstructionsRun | backend/api/recipes.py:223-239 | instruction lines append their instructions in order, numbered from the counter on |
| RecipeFormat.IngredientsBlock | backend/api/recipes.py:206-222 | "Ingredients:" and its lines switch the section and append the ingredients |
| RecipeFormat.InstructionsBlock | backend/api/recipes.py:208-239 | "Instructions:" and its lines switch the section and append the instructions |
| RecipeFormat.RenderedLines | backend/api/recipes.py:172 | the written text splits back into exactly the written lines |
| RecipeFormat.RenderedPass | backend/api/recipes.py:186-239 | the pass over the written lines rebuilds the record |
| RecipeFormat.RoundTrip | backend/api/recipes.py:168-245 | parsing the text written for a record that fits the format gives the record back |
| UserProfileService.Fresh | backend/services/user_profile.py:146-155 | a new user's profile has empty lists, empty preferences, and both timestamps set to now |
| UserProfileService.WithHistory | backend/services/user_profile.py:158-161 | the history edit; characterised by `HistoryProperties`, `HistoryBounded` and `HistoryKeepsDistinct` (no contract of its own) |
| UserProfileService.WithSaved | backend/services/user_profile.py:188-190 | the saved-list edit; characterised by `SavedProperties` (no contract of its own) |
| UserProfileService.WithDisliked | backend/services/user_profile.py:216-218 | the disliked-list edit; characterised by `DislikedProperties` (no contract of its own) |
| UserProfileService.HistoryProperties | backend/services/user_profile.py:158-161 | a new id goes in front and the length becomes min(50, n + 1); the older entries follow in order, so a full history loses its oldest entry; a present id changes nothing |
| UserProfileService.HistoryBounded | backend/services/user_profile.py:159-161 | a history of at most 50 stays within 50 and holds the id afterwards |
| UserProfileService.HistoryKeepsDistinct | backend/services/user_profile.py:158-161 | a history without duplicates keeps none |
| UserProfileService.SavedProperties | backend/services/user_profile.py:188-194 | an absent id is appended and a present one changes nothing, so saving twice equals saving once; no duplicates are introduced |
| UserProfileService.DislikedProperties | backend/services/user_profile.py:216-222 | an ingredient present under any casing is skipped, otherwise appended in its own casing; no case-insensitive duplicates are introduced |
| UserProfileService.Merged | backend/services/user_profile.py:98-102 | `existing.update(new_data)` and a fresh `updated_at`; characterised by `MergeProperties` and `MergeAllKeys` (no contract of its own) |
| UserProfileService.MergeProperties | backend/services/user_profile.py:98-102 | each of the six keys (`user_id`, `preferences`, `saved_recipes`, `disliked_ingredients`, `cooking_history`, `created_at`) is overwritten when passed and kept otherwise, and `updated_at` is the write's time; an empty update only sets `updated_at` |
| UserProfileService.MergeAllKeys | backend/services/user_profile.py:98-102 | writing a whole profile over the stored one stores that profile, with the write's time |
| UserProfileService.GeneratedReplacesHistory | backend/api/recipes.py:100-104 | after a generation the stored history is exactly the new recipe id, whatever it held, and the other lists are kept |
| UserProfileService.Created | backend/services/user_profile.py:103-113 | the record created for a user without a profile; characterised by `CreatedProperties` (no contract of its own) |
| UserProfileService.Updated | backend/services/user_profile.py:92-113 | the merge into the stored profile or the created record; characterised by `GeneratedReplacesHistory`, written by `UpdateUserProfile` (no contract of its own) |
| UserProfileService.CreatedProperties | backend/services/user_profile.py:103-113 | a missing profile becomes a record with the caller's id, the passed preferences and lists or empty ones, and both timestamps the write's time; an empty update gives `Fresh` |
| UserProfileService.ProfileDoc.constructor | backend/services/user_profile.py:145 | the dictionary holds the profile read |
| UserProfileService.ProfileDoc.AddToHistory | backend/services/user_profile.py:158-162 | when the id is absent, the history becomes `WithHistory` and `updated_at` is set; otherwise nothing changes |
| UserProfileService.ProfileDoc.Save | backend/services/user_profile.py:188-190 | when the id is absent, the saved list becomes `WithSaved` and `updated_at` is set; otherwise nothing changes |
| UserProfileService.ProfileDoc.Dislike | backend/services/user_profile.py:216-218 | when the ingredient is absent under any casing, the disliked list becomes `WithDisliked` and `updated_at` is set; otherwise nothing changes |
| UserProfileService.ProfileDoc.Update | backend/services/user_profile.py:98-102 | the dictionary after `update` and the new timestamp is `Merged` |
| UserProfileService.UpdateUserProfile | backend/services/user_profile.py:92-113 | the profile written is the merge into the stored profile, or a created one |
| UserProfileService.AddRecipeToHistory | backend/services/user_profile.py:142-166 | the write performed is `HistoryWrite`: nothing when the id is present |
| UserProfileService.SaveRecipe | backend/services/user_profile.py:172-194 | the write performed is `SaveWrite`: nothing when the id is saved |
| UserProfileService.AddDislikedIngredient | backend/services/user_profile.py:200-222 | the write performed is `DislikeWrite`: nothing when the ingredient is present under any casing |
| UserProfileService.HistoryWrite | backend/services/user_profile.py:142-166 | the write `add_recipe_to_history` performs, if any; characterised by `HistoryWriteEffect` and performed by `AddRecipeToHistory` (no contract of its own) |
| UserProfileService.SaveWrite | backend/services/user_profile.py:172-194 | the write `save_recipe` performs, if any; characterised by `SaveTwiceIsSaveOnce` and performed by `SaveRecipe` (no contract of its own) |
| UserProfileService.DislikeWrite | backend/services/user_profile.py:200-222 | the write `add_disliked_ingredient` performs, if any; performed by `AddDislikedIngredient` (no contract of its own) |
| UserProfileService.HistoryWriteEffect | backend/services/user_profile.py:142-166 | nothing is written for a present id; otherwise the stored profile is written with only the history and `updated_at` changed, or a fresh profile whose history is the id |
| UserProfileService.SaveTwiceIsSaveOnce | backend/services/user_profile.py:172-194 | after a save that wrote, saving the same recipe again writes nothing |
| RecipeDisplay.FormatTime | frontend/src/components/RecipeDisplay.js:26-33 | `formatTime`; characterised by `FormatTimeParts` and `FormatTimeRoundTrip` (no contract of its own) |
| RecipeDisplay.FormatTimeParts | frontend/src/components/RecipeDisplay.js:26-33 | under 60 the label is "N min"; otherwise hours·60 + mins = minutes with 0 ≤ mins < 60, and the label is "Hh Mm" when mins > 0, else "Hh" |
| RecipeDisplay.WholeHours | frontend/src/components/RecipeDisplay.js:32 | a whole number of hours (60 or more minutes) shows no minutes part |
| RecipeDisplay.ReadMinutesLabel | frontend/src/components/RecipeDisplay.js:27-29 | "N min" reads back as N |
| RecipeDisplay.ReadHoursLabel | frontend/src/components/RecipeDisplay.js:32 | "Hh" reads back as H hours |
| RecipeDisplay.ReadHoursMinutesLabel | frontend/src/components/RecipeDisplay.js:32 | "Hh Mm" reads back as H hours and M minutes |
| RecipeDisplay.FormatTimeRoundTrip | frontend/src/components/RecipeDisplay.js:26-33 | every label reads back as the time it shows, so different times get different labels |
| RecipeInputForm.WithIngredient | frontend/src/components/RecipeInputForm.js:88-92 | the list after `addIngredient`; characterised by `AddProperties` and `AddKeepsDistinct` (no contract of its own) |
| RecipeInputForm.WithoutIndex | frontend/src/components/RecipeInputForm.js:95-97 | the list after `removeIngredient`; characterised by `RemoveProperties` and `RemoveUndoesAdd` (no contract of its own) |
| RecipeInputForm.AddProperties | frontend/src/components/RecipeInputForm.js:88-92 | blank or already-listed input (after trimming, case-sensitive) leaves the list unchanged; otherwise the trimmed value is appended and the list grows by one |
| RecipeInputForm.AddKeepsDistinct | frontend/src/components/RecipeInputForm.js:89-90 | a list without duplicates keeps none after an add |
| RecipeInputForm.RemoveProperties | frontend/src/components/RecipeInputForm.js:95-97 | removing index i drops exactly that entry and keeps the others in order; an out-of-range index changes nothing |
| RecipeInputForm.RemoveUndoesAdd | frontend/src/components/RecipeInputForm.js:88-97 | removing the entry an add appended restores the list |
| RecipeInputForm.IngredientForm.constructor | frontend/src/components/RecipeInputForm.js:60-61 | the field and the list start empty |
| RecipeInputForm.IngredientForm.Type | frontend/src/components/RecipeInputForm.js:256 | typing sets the field and leaves the list alone |
| RecipeInputForm.IngredientForm.AddIngredient | frontend/src/components/RecipeInputForm.js:88-93 | the list becomes `WithIngredient` of the field; the field is cleared exactly when the list changed |
| RecipeInputForm.IngredientForm.RemoveIngredient | frontend/src/components/RecipeInputForm.js:95-97 | the list becomes `WithoutIndex`, and the field is unchanged |

## Left out

- Store and network I/O: the Redis cache, the Cosmos containers, the model and image services, logging and telemetry. A profile read is an `Option<UserProfile>` parameter, and a profile write is the returned record. The current time is a parameter `now`, and ids are parameters.
- Clock reads: the source reads `datetime.utcnow()` separately for `created_at` and `updated_at` (backend/services/user_profile.py:111-112 and 153-154). The model takes one `now` per call, so within one call both timestamps are equal, which the real clock does not guarantee.
- The mock profile that `get_user_profile` returns in development mode is not modelled. Neither are the boolean success results or the store failures that turn them to `False`.
- Exception nets: the scorer's return-0.0 path, the ranker's return-[] path and the skipped conversions. They exist for malformed dictionaries. With typed records they cannot happen, so every modelled operation is total.
- Dictionary defaults for missing keys in base recipes (`recipe.get('title', …)` and the like) are not modelled. A `BaseRecipe` always has every field.
- The profile passed to the scorer is modelled as present (`Some`) or absent (`None`). Python's truthiness of an empty dictionary is not modelled.
- String semantics: `lower` is ASCII lower-casing; `isspace` is the Python whitespace set; `isdigit` and `int()` accept ASCII digits with an optional sign. Unicode case mapping, Unicode digits and underscores in `int()` are not modelled.
- Recommendation.Score: scores are exact reals, so IEEE rounding is not modelled. Tie order under rounding can differ from the model.
- Recommendation.SortByScoreDesc: Python's `list.sort` is modelled by a stable insertion sort. The lemmas prove it is a stable, non-increasing permutation, as Python's sort is.
- Recommendation.ViolatesDietaryRestrictions: the loop over the restrictions with its early `return True` is modelled as an existential over restrictions and words. The order in which restrictions are checked, and where the loop stops, are not captured; the result is the same.
- Recommendation.SpiceLevelsCompatible: its contract states only the unknown-label case. The in-hierarchy behaviour is stated by `SpiceCompatibility`, and symmetry by `SpiceCompatibilitySymmetric`.
- Recommendation.Scored: its own contract states only that each kept entry is a positively scored input candidate. That every candidate scoring above 0 is kept, in input order, is stated by the lemmas `ScoredInOrder` and `ScoredPrefix` beside it.
- Recommendation.ConvertedRecipe: the contract does not restate the synthesized description, instruction text and fixed fields. They follow the body literally.
- RecipeFormat.RoundTrip: it holds for records that fit the format (`WellFormed`). Examples of records that do not fit:
  - header values that are empty, are not stripped, or contain their own header label (`str.replace` removes every copy);
  - tags containing commas;
  - ingredient names containing ':';
  - quantities containing a space;
  - instructions containing '(';
  - steps not numbered 1, 2, 3, ….

  For such records the parser's per-line behaviour is still modelled exactly.
- The two fixture texts of the model service (the mock recipe and the safe fallback) are not evaluated as literals. Both are in the rendered format with blank lines between the blocks, and the parser skips blank lines. They are covered by `RoundTrip` only in that shape, not as proved literal facts.
- `GeneratedRecipe.nutrition_info`, `RecipeGenerationRequest` and `RecipeGenerationResponse` are not modelled: no modelled operation sets or reads them. A stored profile's `preferences` is either the empty dictionary a new user gets or a full preferences record.
- RecipeDisplay.FormatTime: JavaScript numbers are modelled as integers. Fractional or non-numeric minutes are not modelled; negative minutes give "N min", as in JavaScript.
- RecipeInputForm.IngredientForm: React's asynchronous state updates and re-rendering are not modelled. Each handler commits its state at once.
- The HTTP handlers, the prompt template, the image prompt and the frontend rendering are not part of this model.

Behaviour of the code worth noting:

- The score's largest increments add up to 1.25, so a score can exceed 1 (`ScoreRange`). The meal-type match adds 0.1 (backend/services/recommendation.py:83), while its comment at line 77 gives its weight as 0.2.
- Dietary words are matched by whole-name equality against the lower-cased ingredient names: "Chicken breast" breaks no vegetarian restriction (`VegetarianAcceptsChickenBreast`).
- A spice label outside the hierarchy counts as compatible and earns 0.05 (`SpiceLevelsCompatible`).
- "Tags:" with nothing after it gives one empty tag (`EmptyTagsLine`).
- An ingredient's quantity ends at the first single space, and the notes keep their spacing (`QuantityNotes`).
- The default title is always "Yippee! Fusion Delight": the parsed record has no cuisine to put in it (`ParsedTitle`).
- A "Cooking Time:" line without a leading integer sets the time back to 30, even after an earlier line set it (`CookingTimeFallback`); an instruction whose time has no leading integer keeps no time (`InstructionTimeFallback`).
