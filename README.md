# Keto calculator backend: a verified model

This project models the backend of a keto calculator. It covers both of its services:

- **`/calc`** turns a user's body figures into BMI, BMR, TDEE, a body-fat estimate, FFMI, keto macros and a weight forecast.
- **`/mealplan`** asks a language model (Gemini) for a meal plan, recovers the JSON object from the reply, validates it against the plan schema, and retries while the model is overloaded.

The model is written in Dafny and its properties are proved by the Dafny verifier.

## Modules

Modules follow the source files:

- `Outcomes`: optional values, the exception classes raised (`ValueError`, `RuntimeError`, any other), and a `Result` type. Python's raise-or-return becomes `Result`, and straight-line code that may raise is chained with `:-`.
- `Text`: the Python string operations the code uses, over `seq<char>`:
  - `strip`, with Python's whitespace set and with a given character set;
  - `startswith`, `in`, `find` and `rfind`;
  - `join`, ASCII lower-casing, and `str(int)`.
- `Models` (`models.py`): the four enumerations, the input and output records, their field bounds and their defaults.
- `MealPlanModels` (`models_mealplan.py`): the plan records and their validity predicates.
- `Bmi`, `BodyFat`, `Ffmi` (`formulas/`): the three formulas over exact reals.
- `Calc` (`calc.py`): the calculation pipeline.
  - Unit normalisation, BMR, TDEE, macros and forecast live in modules that are not part of this model.
  - They are passed in as `Helpers`. The only facts assumed about them are the ones their tests assert (`HelperTestFacts`).
- `LlmMealPlan` (`services/llm_mealplan.py`):
  - JSON extraction and prompt construction are functions.
  - The generation run is a method (`GenerateMealPlan`). It checks the key, builds the prompt and runs the retry loop (`RetryGeneration`). Both are proved equal to a recursive specification: `RetryGeneration` to `AttemptsFrom` from the first attempt with no calls made, and `GenerateMealPlan` to `GenerateMealPlanSpec`, which is `Generate` (the key check, then `AttemptsFrom`) for the built prompt.
  - The run lemmas are stated about `Generate` for every prompt, so they hold whatever the prompt says.
  - The provider, the JSON parser and the schema's shape decoding are parameters (`Oracles`), and so is the `:.0f` number rendering.
  - The provider is a function of the call's index within the run and of the request. Each call's reply is therefore arbitrary: a sequence of outcomes chosen in advance is the special case that ignores the request.
- `Api` (`main.py`): the two shared handlers' exception-to-status mapping, and the routes, which are served both at the root and under `/api`.

## Notes

- The remark at `services/llm_mealplan.py:60` says two meals a day are "lunch+dinner". The code takes the first two base names, breakfast and lunch. The model follows the code (`TwoMealsAreBreakfastAndLunch`).
- `calc.py:29-30` sets the calorie target to the TDEE for every goal. The goal reaches only the macro helper (`CaloriesTargetIsTdee`, `GoalReachesOnlyTheMacros`).
- `do_mealplan` classifies a `RuntimeError` by searching its whole message. The non-JSON and schema-mismatch messages quote a preview of the model's reply, so a reply that fails to parse or validate and mentions `RATE_LIMIT` or `RESOURCE_EXHAUSTED` within its first 600 characters is answered with 429 (`NonJsonStatus`, `RateLimitTextLooksLikeRateLimit`). A marker after the first 600 characters is cut from the preview and does not change the status.
- A repair reply that parses to JSON `null` is reported as non-JSON, with the decode error of the original reply (`NullRepairIsNonJson`).
- JSON `null` from the direct parse is reported as a schema mismatch, because validation rejects it.

## Model

| member | source | states |
|---|---|---|
| Models.ParseUnitSystem | backend/app/models.py:7-9 | a string reads as a unit system exactly when it is that member's value |
| Models.ParseSex | backend/app/models.py:12-14 | a string reads as a sex exactly when it is that member's value |
| Models.ParseGoal | backend/app/models.py:17-20 | a string reads as a goal exactly when it is that member's value |
| Models.ParseActivityLevel | backend/app/models.py:23-28 | a string reads as an activity level exactly when it is that member's value |
| Models.EnumerationSizes | backend/app/models.py:7-28 | there are exactly 2 unit systems, 2 sexes, 3 goals and 5 activity levels, and every member is listed; goal and activity values are pairwise distinct |
| Models.DefaultDietaryPreferences | backend/app/models.py:43-47 | by default all four dietary flags are off |
| Models.DefaultMealPlanPreferences | backend/app/models.py:50-54 | the defaults are 3 meals for 1 day, within the bounds 1..6 and 1..7 |
| Models.MealPlanPreferences.Valid | backend/app/models.py:50-54 | the field bounds: 1 to 6 meals a day for 1 to 7 days (properties in `DefaultMealPlanPreferences`) |
| Models.NewUserInput | backend/app/models.py:57-81 | given only sex, age and activity, the input is metric and maintaining, with no body figures, 25 g net carbs and 1.8 g/kg protein, default preferences; it is valid exactly when the age is in 10..100 |
| Models.UserInput.Valid | backend/app/models.py:57-81 | the field bounds: age 10..100, positive body figures when present, net carbs 0..100, protein 0.5..4.0 g/kg, and valid meal-plan preferences (properties in `NewUserInput`, `MinorIsAValidInput`) |
| Models.MinorIsAValidInput | backend/app/models.py:60 | for any sex and activity level, every age from 10 to 17 passes the schema while 9 and 101 do not; the adult-only rule is not part of the schema |
| MealPlanModels.InAllMeals | backend/app/models_mealplan.py:19-22 | a Meal record is among a plan's records exactly when it is a meal or the totals of some day |
| MealPlanModels.InAllItems | backend/app/models_mealplan.py:10-12 | an item is among the records' items exactly when some record lists it |
| MealPlanModels.MealItem.Valid | backend/app/models_mealplan.py:4-7 | an item's weight in grams is positive (properties in `ValidIffAllRecordsValid`) |
| MealPlanModels.Meal.Valid | backend/app/models_mealplan.py:10-16 | a meal's four macros are non-negative and each of its items is valid (properties in `ValidIffAllRecordsValid`) |
| MealPlanModels.DayPlan.Valid | backend/app/models_mealplan.py:19-22 | a day's totals and each of its meals are valid; the day number is unconstrained (properties in `ValidPlanTotalsNonNegative`, `SchemaDoesNotReconcile`) |
| MealPlanModels.MealPlanResponse.Valid | backend/app/models_mealplan.py:25-28 | every day of the plan is valid; the two string lists are unconstrained (properties in `ValidIffAllRecordsValid`, `SchemaExamplePlanIsValid`) |
| MealPlanModels.ValidIffAllRecordsValid | backend/app/models_mealplan.py:4-28 | a plan is valid exactly when every Meal record (meals and totals) has non-negative macros and every item a positive weight |
| MealPlanModels.ValidPlanTotalsNonNegative | backend/app/models_mealplan.py:19-22 | the totals of every day of a valid plan are non-negative |
| MealPlanModels.SchemaExamplePlanIsValid | backend/app/services/llm_mealplan.py:13-43 | the example plan shown to the model satisfies the schema |
| MealPlanModels.SchemaDoesNotReconcile | backend/app/models_mealplan.py:19-28 | a plan can be valid with totals that differ from the meals' sum, a day numbered 0, no meals, and empty lists |
| Bmi.CalculateBmi | backend/app/formulas/bmi.py:10-16 | weight ≤ 0 is rejected first, then height ≤ 0; otherwise the BMI is positive and BMI·h_m² equals the weight |
| Bmi.BmiAtOneMetre | backend/tests/test_bmi.py:12-15 | at 100 cm the BMI equals the weight |
| Bmi.BmiKnownValue | backend/tests/test_bmi.py:6-9 | 93 kg at 175 cm gives a BMI in [30.366, 30.368] |
| Bmi.BmiRejectsZero | backend/tests/test_bmi.py:18-22 | zero weight and zero height are rejected, the weight's message first |
| Bmi.BmiIncreasingInWeight | backend/app/formulas/bmi.py:15-16 | at a fixed height the BMI strictly increases with weight |
| Bmi.BmiDecreasingInHeight | backend/app/formulas/bmi.py:15-16 | at a fixed weight the BMI strictly decreases with height |
| BodyFat.EstimateBodyFatPercentFromBmi | backend/app/formulas/bodyfat.py:14-25 | minors get None before any BMI check; adults with BMI ≤ 0 are rejected; otherwise the estimate lies in [0, 75] and equals the raw formula inside that range, 0 below it and 75 above it |
| BodyFat.RawEstimate | backend/app/formulas/bodyfat.py:19-22 | the unclamped adult formula 1.20·BMI + 0.23·age − 10.8·(male) − 5.4 (properties in `EstimateBodyFatPercentFromBmi`, `MaleNotAboveFemale`, `NonDecreasingInBmi`, `NonDecreasingInAge`) |
| BodyFat.MinorGetsNoneEvenForZeroBmi | backend/app/formulas/bodyfat.py:14-17 | a minor with BMI 0 gets None while an adult with BMI 0 is rejected |
| BodyFat.BodyFatKnownValue | backend/tests/test_bodyfat.py:11-16 | BMI 30.367, age 30, male gives exactly 27.1404 |
| BodyFat.MaleNotAboveFemale | backend/app/formulas/bodyfat.py:19-25 | for the same BMI and age the male estimate never exceeds the female one |
| BodyFat.NonDecreasingInBmi | backend/app/formulas/bodyfat.py:22-25 | the estimate never decreases as the BMI grows |
| BodyFat.NonDecreasingInAge | backend/app/formulas/bodyfat.py:22-25 | among adults the estimate never decreases with age |
| Ffmi.CalculateFfmi | backend/app/formulas/ffmi.py:12-23 | no body fat gives None before any check; then the range [0, 100], the weight and the height are checked in order; otherwise the index is non-negative and FFMI·h_m² is the fat-free mass |
| Ffmi.FfmiBodyFatRange | backend/tests/test_ffmi.py:20-22 | 0 % and 100 % are accepted, 120 % is rejected, and no body fat gives None |
| Ffmi.FfmiZeroAtFullFat | backend/app/formulas/ffmi.py:21-23 | at 100 % body fat the index is 0 |
| Ffmi.FfmiAtZeroFatIsBmi | backend/app/formulas/ffmi.py:21-23 | at 0 % body fat the index equals the BMI of the same weight and height |
| Ffmi.FfmiNonIncreasingInBodyFat | backend/app/formulas/ffmi.py:22 | more body fat never raises the index |
| Ffmi.FfmiKnownValue | backend/tests/test_ffmi.py:10-17 | 80 kg, 180 cm, 19.18 % gives an index in [19.90, 20.00] |
| Calc.MetricUser | backend/tests/test_calc.py:6-14 | the test's metric user: male, moderately active and maintaining, with the given age, height and weight |
| Calc.ImperialUser | backend/tests/test_units.py:22-30 | the test's imperial user: given inches and pounds, and no metric figures |
| Calc.HelperTestFacts | backend/app/calc.py:12-44 | the helpers' tested values, assumed as hypotheses: BMR 1805 and 1639 at 25 years, 180 cm, 80 kg (test_bmr.py:7-14), ValueErrors for 17 years and zero figures (test_bmr.py:17-24), TDEE 2797.75 and a ValueError at 0 (test_tdee.py:7-14), and the normalisations of test_units.py:21-58 (used by `MetricHappyPath`, `MinorRejectedByBmr`) |
| Calc.ToForecastPoints | backend/app/calc.py:44 | one forecast point per (week, weight) pair, in the same order, with both copied |
| Calc.FromForecastPoints | backend/app/calc.py:38-44 | reading the points back gives one pair per point, in order |
| Calc.ForecastPointsKeepPairs | backend/app/calc.py:44 | building the points and reading them back gives the helper's pairs unchanged |
| Calc.FromForecastPointsInjective | backend/app/calc.py:44 | different forecasts never read back as the same pairs |
| Calc.CalculateAll | backend/app/calc.py:12-59 | a failed normalisation is the result; otherwise the first step that raises (BMI, BMR, TDEE, body fat, FFMI, macros, forecast, in that order) gives the result's error, and the calculation succeeds exactly when no step raises; on success the BMI comes from the normalised figures, each other output is the helper's result on the outputs before it, and the calorie target passed on is the TDEE |
| Calc.MinorRejectedByBmr | backend/app/calc.py:12-24 | a valid 17-year-old metric user passes normalisation and the BMI, and the calculation then fails with the BMR helper's ValueError |
| Calc.CalculateAllDefault | backend/app/calc.py:12 | without a horizon the forecast is made for 24 weeks |
| Calc.FfmiPresentIffBodyFatPresent | backend/app/calc.py:26-27 | a result has an FFMI exactly when it has a body-fat estimate; the estimate is then in [0, 75] and the index non-negative |
| Calc.GoalReachesOnlyTheMacros | backend/app/calc.py:29-44 | two users differing only in goal get the same BMI, BMR, TDEE, body fat, FFMI and forecast |
| Calc.CaloriesTargetIsTdee | backend/app/calc.py:29-36 | the macro helper is asked for the TDEE's calories and the forecast targets the TDEE |
| Calc.BadNormalisedFiguresRejected | backend/app/calc.py:13-15 | a normalised non-positive weight or height ends the calculation with a ValueError |
| Calc.MetricHappyPath | backend/tests/test_calc.py:5-21 | with the tested helper facts, and assuming further that normalisation keeps age 25, that the macro split has positive calories and that the forecast has 5 points, the metric happy path succeeds with positive BMI, BMR 1805, TDEE 2797.75, positive calories, 5 forecast points, a body-fat estimate and an FFMI |
| LlmMealPlan.DropJsonTag | backend/app/services/llm_mealplan.py:198-199 | text that does not begin with "json" in any letter case is left alone |
| LlmMealPlan.Unfence | backend/app/services/llm_mealplan.py:192-199 | the result has no whitespace at either end; without a leading fence it is the trimmed text |
| LlmMealPlan.OpenFence | backend/app/services/llm_mealplan.py:196-199 | inside a fence: backticks, then padding, then a leading json tag are removed; the result has no whitespace at either end (properties in `UnfenceFenced`, `FencesAreStripped`) |
| LlmMealPlan.UnfenceIsSubstring | backend/app/services/llm_mealplan.py:192-199 | trimming and fence removal only cut characters from the ends |
| LlmMealPlan.SliceOuterBraces | backend/app/services/llm_mealplan.py:202-207 | when a '{' comes before a '}', the result is exactly the slice from the first '{' to the last '}'; otherwise the text is returned whole |
| LlmMealPlan.ExtractJson | backend/app/services/llm_mealplan.py:191-207 | `_extract_json`: trimming and fence removal, then the outer-brace slice (properties in `ExtractJsonIsSubstring`, `SurroundingTextIsCut`, `BraceBlockIsFixpoint`, `ExtractJsonIdempotentOnBraces`, `FencedObjectIsExtracted`) |
| LlmMealPlan.SliceOuterBracesEnds | backend/app/services/llm_mealplan.py:202-205 | a sliced result starts with '{' and ends with '}' |
| LlmMealPlan.ExtractJsonIsSubstring | backend/app/services/llm_mealplan.py:191-207 | the extraction is always a contiguous piece of the reply text |
| LlmMealPlan.SurroundingTextIsCut | backend/app/services/llm_mealplan.py:202-205 | text before an object's first '{' and after its last '}' is cut away |
| LlmMealPlan.BraceBlockIsFixpoint | backend/app/services/llm_mealplan.py:191-207 | a text that starts with '{' and ends with '}' is extracted unchanged |
| LlmMealPlan.ExtractJsonIdempotentOnBraces | backend/app/services/llm_mealplan.py:191-207 | extracting again from a brace-delimited extraction changes nothing |
| LlmMealPlan.FencesAreStripped | backend/app/services/llm_mealplan.py:196 | stripping backticks from a fenced block removes exactly both fences |
| LlmMealPlan.UnfenceFenced | backend/app/services/llm_mealplan.py:195-199 | a fenced text loses its fences, its padding and then a leading json tag |
| LlmMealPlan.FencedJsonIsUnwrapped | backend/app/services/llm_mealplan.py:195-199 | a fenced block opened by a tag reading "json" in any letter case comes out as the block itself |
| LlmMealPlan.FencedBlockIsUnwrapped | backend/app/services/llm_mealplan.py:195-197 | an untagged fenced block comes out as the block itself |
| LlmMealPlan.FencedObjectIsExtracted | backend/app/services/llm_mealplan.py:191-207 | a fenced, json-tagged object is extracted as the object alone |
| LlmMealPlan.DietaryLines | backend/app/services/llm_mealplan.py:68-86 | one to three lines, each one of the four rules or the fallback; vegan / vegetarian-when-not-vegan / kosher / halal rules each appear exactly when their flag is set; the fallback appears exactly when no flag is set, and then alone; diet before kosher before halal |
| LlmMealPlan.PySliceTake | backend/app/services/llm_mealplan.py:62 | Python's `xs[:n]` for every n, negative ones included |
| LlmMealPlan.MealPlanPrefLines | backend/app/services/llm_mealplan.py:47-64 | exactly five lines; the first asks for exactly the given number of day entries, the second gives the meals per day marked OMAD for one meal and standard otherwise; one meal a day lists "meal", any other count lists that Python slice of the base names |
| LlmMealPlan.MealNamesForValidCounts | backend/app/services/llm_mealplan.py:56-62 | for 2 to 6 meals the first that many base names are listed, in order |
| LlmMealPlan.TwoMealsAreBreakfastAndLunch | backend/app/services/llm_mealplan.py:59-62 | two meals a day are named breakfast and lunch |
| LlmMealPlan.ThreeMealsAreBreakfastLunchDinner | backend/app/services/llm_mealplan.py:61-62 | three meals a day are named breakfast, lunch and dinner |
| LlmMealPlan.MealNamesOutsideTheSchema | backend/app/services/llm_mealplan.py:62 | counts the schema rejects still follow Python slicing (0 lists none, more than 6 lists all, -1 drops the last) |
| LlmMealPlan.MacroTargetLines | backend/app/services/llm_mealplan.py:98-101 | four target lines: net carbs, protein and fat in g/day and calories in kcal/day, each with the rendered figure |
| LlmMealPlan.PromptLines | backend/app/services/llm_mealplan.py:93-113 | the prompt's lines before joining (properties in `PromptLayout`) |
| LlmMealPlan.BuildPrompt | backend/app/services/llm_mealplan.py:89-114 | `build_prompt`: the lines joined by line breaks (properties in `PromptBlocksInOrder`, `PromptContainsRequiredPhrases`, `PromptCarriesTheTargets`, `PromptStatesDietaryRules`) |
| LlmMealPlan.PromptLayout | backend/app/services/llm_mealplan.py:93-113 | 21 fixed-position lines plus the dietary ones: opening, targets, meal-plan lines, schema rule and example, constraints, dietary rules, closing line |
| LlmMealPlan.PromptBlocksInOrder | backend/app/services/llm_mealplan.py:93-113 | the prompt is its seven blocks in order (opening, targets, meal plan, schema, constraints, dietary, closing) joined by line breaks |
| LlmMealPlan.PromptContainsRequiredPhrases | backend/tests/test_mealplan_prompt.py:18-20 | the prompt contains "Net carbs target" and "Output MUST be valid JSON" |
| LlmMealPlan.PromptCarriesTheTargets | backend/app/services/llm_mealplan.py:98-101 | every macro target line is in the prompt |
| LlmMealPlan.PromptStatesDietaryRules | backend/app/services/llm_mealplan.py:90-111 | every dietary line, and each applicable rule, is in the prompt |
| LlmMealPlan.GenerationIsNotRepair | backend/app/services/llm_mealplan.py:132-227 | a generation request (1400 tokens) is never a repair request (1000 tokens) |
| LlmMealPlan.EscapeNewlines | backend/app/services/llm_mealplan.py:157 | the result has no line break, and text without one is unchanged |
| LlmMealPlan.EscapeNewlinesConcat | backend/app/services/llm_mealplan.py:157 | escaping works piece by piece: the escape of a concatenation is the concatenation of the escapes |
| LlmMealPlan.EscapeNewlinesChar | backend/app/services/llm_mealplan.py:157 | a line break becomes backslash-n and every other character is kept |
| LlmMealPlan.Preview | backend/app/services/llm_mealplan.py:157-165 | the preview of the first 600 characters is a single line |
| LlmMealPlan.PreviewOfShortText | backend/app/services/llm_mealplan.py:157-165 | a reply of at most 600 characters is previewed whole, with its line breaks escaped |
| LlmMealPlan.PreviewIgnoresTail | backend/app/services/llm_mealplan.py:157-165 | a longer reply is previewed by its first 600 characters, escaped; whatever follows them does not matter |
| LlmMealPlan.PreviewOfShortLine | backend/app/services/llm_mealplan.py:157-165 | a single-line reply of at most 600 characters is its own preview |
| LlmMealPlan.NonJsonMessage | backend/app/services/llm_mealplan.py:156-161 | the non-JSON message: its prefix, the decode error's message, line and column, then the preview (properties in `AfterResponseOutcomes`, `UnavailableDiffersFromOtherMessages`, `NonJsonStatus`) |
| LlmMealPlan.SchemaMismatchMessage | backend/app/services/llm_mealplan.py:164-168 | the schema-mismatch message: its prefix, then the preview (properties in `SchemaMismatchIsNotNonJson`, `ModelValidate`) |
| LlmMealPlan.RepairPrompt | backend/app/services/llm_mealplan.py:211-218 | the repair prompt: three fixed instruction lines, then the failed reply's raw text (properties in `GenerationIsNotRepair`, `AfterResponseOutcomes`) |
| LlmMealPlan.RepairOutcome | backend/app/services/llm_mealplan.py:219-233 | None exactly when the repair call raised or nothing non-empty was recovered; otherwise it is the JSON extracted from the repair reply's text, a non-empty piece of that reply |
| LlmMealPlan.ModelValidate | backend/app/services/llm_mealplan.py:162-168 | success exactly when the value is not null, has the records' shape and is valid, the plan being that decoding; otherwise the schema-mismatch error with the preview |
| LlmMealPlan.RepairedData | backend/app/services/llm_mealplan.py:147-154 | the parsed repair, None when nothing was recovered, it does not parse, or it parses to null (properties in `NullRepairIsNonJson`, `AfterResponseOutcomes`) |
| LlmMealPlan.AfterResponse | backend/app/services/llm_mealplan.py:142-168 | one answered generation call: parse and validate; on a decode error one repair call, then validation or the non-JSON error (properties in `AfterResponseOutcomes`, `NullRepairIsNonJson`, `SettleAddsAtMostTheRepair`) |
| LlmMealPlan.Settle | backend/app/services/llm_mealplan.py:142-184 | a reply that is not a server error ends the run: an answer goes to `AfterResponse`, an API error gives the rate-limit or API-error message, anything else raised propagates (properties in `ApiErrorFailsFast`, `ResponseIsTerminal`) |
| LlmMealPlan.AttemptsFrom | backend/app/services/llm_mealplan.py:126-188 | the retry loop from a given attempt: a server error retries until the third, then the unavailable error (properties in `RetryGeneration`, `RunIsDecidedByFirstDecisiveReply`, `CallBounds`, `ThreeServerErrorsAreUnavailable`) |
| LlmMealPlan.Generate | backend/app/services/llm_mealplan.py:117-188 | `generate_meal_plan` for a given prompt: the key check, then the attempts (properties in `MissingKeyRaisesBeforeAnyCall`, `SuccessIsValid`, `UnavailableOnlyAfterThreeServerErrors`) |
| LlmMealPlan.GenerateMealPlan | backend/app/services/llm_mealplan.py:117-188 | the key check, the prompt and the retry loop give the result and calls of the run's specification for the built prompt |
| LlmMealPlan.RetryGeneration | backend/app/services/llm_mealplan.py:126-188 | the loop over at most three attempts gives the result and calls of the recursive run specification, each attempt sending the same request |
| LlmMealPlan.FirstDecisive | backend/app/services/llm_mealplan.py:130-174 | the first of the three generation calls whose reply is not a server error (3 when none) |
| LlmMealPlan.RunIsDecidedByFirstDecisiveReply | backend/app/services/llm_mealplan.py:126-188 | only server errors lead to another attempt: the run is settled by the first other reply after exactly that many calls, or is unavailable after three server errors |
| LlmMealPlan.MissingKeyRaisesBeforeAnyCall | backend/app/services/llm_mealplan.py:118-120 | a missing or empty API key raises the ValueError with no provider call |
| LlmMealPlan.SettleAddsAtMostTheRepair | backend/app/services/llm_mealplan.py:142-184 | settling a reply adds no call, or only the repair call of an answered reply |
| LlmMealPlan.CallBounds | backend/app/services/llm_mealplan.py:126-228 | a run with a key makes 1 to 4 calls: identical generation calls, and possibly one repair call, always last |
| LlmMealPlan.ThreeServerErrorsAreUnavailable | backend/app/services/llm_mealplan.py:170-188 | three server errors give the unavailable error after exactly three calls |
| LlmMealPlan.ApiErrorFailsFast | backend/app/services/llm_mealplan.py:180-184 | another API error ends the run at once: a 429 with "RATE_LIMIT:" and the error, any other with "Gemini API error: " |
| LlmMealPlan.RateLimitOnFirstCall | backend/app/services/llm_mealplan.py:182-183 | a 429 on the first call fails the run after one call |
| LlmMealPlan.ResponseIsTerminal | backend/app/services/llm_mealplan.py:142-168 | once a generation call answers, no further generation call follows; the answer alone decides the run |
| LlmMealPlan.AfterResponseOutcomes | backend/app/services/llm_mealplan.py:143-168 | a successful answer is a valid plan; a failed one is a RuntimeError whose message begins with the non-JSON or the schema-mismatch prefix; the repair call is made exactly when the first parse fails; a non-JSON error carries the first parse's message, line and column |
| LlmMealPlan.SchemaMismatchIsNotNonJson | backend/app/services/llm_mealplan.py:158-167 | a schema-mismatch message never begins with the non-JSON prefix |
| LlmMealPlan.NullRepairIsNonJson | backend/app/services/llm_mealplan.py:149-161 | a repair that parses to null is reported as non-JSON |
| LlmMealPlan.SuccessIsValid | backend/app/services/llm_mealplan.py:162-163 | a successful run had a key, made a call, and returns a valid plan that is the shape decoding of a non-null value |
| LlmMealPlan.UnavailableDiffersFromOtherMessages | backend/app/services/llm_mealplan.py:158-188 | the unavailable message differs from every API-error, non-JSON and schema-mismatch message |
| LlmMealPlan.UnavailableOnlyAfterThreeServerErrors | backend/app/services/llm_mealplan.py:170-188 | the unavailable error occurs exactly when all three calls met server errors, or the deciding call raised that very error |
| Api.DoCalc | backend/app/main.py:18-22 | success returns the calculation unchanged; a ValueError is a 400 with its message; anything else is not caught |
| Api.MealPlanErrorToHttp | backend/app/main.py:29-35 | a ValueError is a 400; a RuntimeError is a 429 exactly when its message contains RESOURCE_EXHAUSTED or RATE_LIMIT, else a 503; the detail is the message |
| Api.IsRateLimited | backend/app/main.py:33 | a message is rate-limited when it contains RESOURCE_EXHAUSTED or RATE_LIMIT anywhere (properties in `MealPlanErrorToHttp`, `RateLimitPrefixMarked`) |
| Api.DoMealPlan | backend/app/main.py:25-35 | a failed calculation is mapped and no plan is generated; otherwise the generated plan is returned unchanged or its error mapped |
| Api.MissingKeyIsBadRequest | backend/app/main.py:29-30 | a missing API key is a 400 with its message |
| Api.SuccessIsUnchanged | backend/app/main.py:27-28 | a successful response is the generated plan, and the plan is valid |
| Api.RateLimitPrefixMarked | backend/app/services/llm_mealplan.py:182-183 | every rate-limit error message counts as rate-limited |
| Api.ProviderRateLimitIs429 | backend/app/main.py:31-34 | a provider 429 surfaces as an HTTP 429 carrying the message |
| Api.UnavailableIs503 | backend/app/main.py:35 | exhausted overload retries are a 503 |
| Api.NonJsonStatus | backend/app/main.py:31-35 | a non-JSON failure whose preview mentions a rate limit is a 429 |
| Api.RateLimitTextLooksLikeRateLimit | backend/app/services/llm_mealplan.py:157 | a reply reading RATE_LIMIT gives a preview that counts as rate-limited |
| Api.RouteFor | backend/app/main.py:39-62 | a request reaches an endpoint only by that endpoint's method and its path, either bare or under /api |
| Api.EveryEndpointIsRoutedTwice | backend/app/main.py:39-65 | health, calc and mealplan are each reached at their path and under /api |
| Api.Serve | backend/app/main.py:12-62 | health answers "ok"; the calc and mealplan routes delegate to the shared handlers |
| Api.ApiRoutesMirrorRootRoutes | backend/app/main.py:55-62 | a request under /api reaches the same endpoint and gets the same answer as at the root |

## Left out

- The Gemini client, `json.loads` and schema shape decoding are not implemented. They are parameters (`Oracles`), and `HelperTestFacts` holds the only facts assumed about the unseen helpers.
- The models' field constraints are checked by the model's own `Valid` predicates.
- Unit normalisation, BMR, TDEE, keto macros and the forecast: their code is not part of this model. Their test-asserted values are hypotheses (`HelperTestFacts`). The imperial test's 1e-3 tolerance is kept as an interval.
- Reading the API key from the environment: it is a parameter.
- Creating the client (`genai.Client()`) is not modelled. An exception it raises propagates out of `generate_meal_plan`; `do_mealplan` maps it when it is a `ValueError` or a `RuntimeError` (`main.py:29-35`).
- The back-off sleep with random jitter: nondeterministic timing with no effect on the outcome.
- Exception chaining (`from e`, `last_err`): it does not affect messages or statuses.
- The `:.0f` number rendering is a parameter.
- Floating-point rounding: formulas are over exact reals. The tests' `approx` with a 1e-3 tolerance becomes an interval; `approx(…, abs=1e-9)` in the BMR and TDEE tests is taken as exact equality over reals (`HelperTestFacts`).
- MetricHappyPath: positive calories, the 5 forecast points and the normalised age 25 are hypotheses about helpers whose code is not part of this model; the happy-path test asserts them only of the whole pipeline.
- `ParseOutcome`: a decode error's message and position come from the parser oracle.
- The response schema sent with each request (`model_json_schema()`) is not part of `ProviderRequest`. It is the same for every call.
- `ApiErrorFailsFast`: `str(e)` of an API error is the reply's message field, because the library's formatting is not part of this model.
- FastAPI's request parsing, the uncaught-exception 500 page and router registration are not modelled. `Api.Unhandled` marks an exception neither handler catches.
- The frontend, the dev-server proxy and the Lambda adapter are not modelled.
- Python's `str.lower()` in the json-tag test is modelled as ASCII lower-casing. Non-ASCII case mappings are not modelled.
