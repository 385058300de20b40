# Weekly AI insights: a Dafny model

This project models the AI-insight engine of the YumYumCoach backend. The
engine has six parts:

- a weekly statistics service: seven Monday-to-Sunday days around a date,
  each with its summed diet nutrients and exercise totals and a Korean
  weekday label;
- two weekly review services, exercise and nutrition. They clamp a
  reference date into its week, build a prompt from the week's stats up to
  that date, ask the generative-text gateway, parse the answer with a
  layered fallback, and store one review per user and evaluation date;
- a daily meal-plan service: one plan per user and date, with its items
  parsed from a JSON array, else an object's `meals` array, else the
  answer's non-blank lines;
- a chat service: an append-only message log that gains one USER/AI pair
  per accepted question and is read back sorted by creation time;
- the gateway client: the key check, URL building, and extraction of the
  first usable text;
- the account checks of the authentication service: email and username
  formats, and the order of the checks in sign-up, sign-out and withdrawal
  over an account store and a refresh-token store.

Dates are `LocalDate.toEpochDay()` numbers, and `LocalDate.now(KST)` is
the parameter `now`. `LocalDateTime.now(KST)` is the parameter `clock`
(seconds on a fixed clock). `ObjectMapper.readTree` is a parameter
returning either a parsed `JsonNode` or "unparsable". The gateway's HTTP
exchange is the client's `transport` function. The profile lookup and the
per-day records are a `Records` value.

Each service is a class holding its store. A field `client.sent` logs the
gateway requests, so "no gateway call" is stated as `client.sent ==
old(client.sent)`. Each service method is proved against a function of the
old state: `Generated` for what the miss path produces, `Calls` for the
requests it sends and `Transcript` for the chat log.

Files: `wrappers.dfy`, `text.dfy`, `json.dfy`, `calendar.dfy`,
`collaborators.dfy`, `sorting.dfy`, `weekly_stats.dfy`, `prompts.dfy`,
`gemini_client.dfy`, `review_parsing.dfy`, `exercise_review.dfy`,
`nutrition_review.dfy`, `meal_plan.dfy`, `chat.dfy` and `auth.dfy`.

Two behaviours of the code worth knowing:

- An empty JSON array (top-level, or the `meals` array of an object) is
  taken as it is. It yields no items, and
  `generatePlan` then fails with `INTERNAL_SERVER_ERROR` (see
  `MealPlan.EmptyOnlyFromEmptyArray` and `MealPlan.EmptyArrayHasNoItems`).
- The reviews' null-summary check can never fire. The answer is never null,
  and `asText(answer)` falls back to it, so only the blank check matters.

## Model

| member | source | states |
|---|---|---|
| Calendar.WeekStart | backend-develop/src/main/groovy/com/yumyumcoach/domain/ai/review/service/AiExerciseReviewService.java:151-153 | the previous-or-same Monday: a Monday, at most `d` and at least `d - 6` |
| Calendar.WeekStartUnique | backend-develop/src/main/groovy/com/yumyumcoach/domain/stats/service/WeeklyStatsService.java:98-100 | any Monday within the six days before `d` is the week start, so the week start is the unique previous-or-same Monday |
| Calendar.WeekStartOnWeek | backend-develop/src/main/groovy/com/yumyumcoach/domain/ai/review/service/AiNutritionReviewService.java:157-159 | every day from a week start to six days later has that same week start |
| Calendar.LimitDate | backend-develop/src/main/groovy/com/yumyumcoach/domain/ai/review/service/AiExerciseReviewService.java:74-91 | the evaluation date lies in the reference date's week; it is the week's Monday when today is before the week, its Sunday when today is after it, and otherwise the earlier of the reference date and today |
| Calendar.ReferenceNeverBeforeWeekStart | backend-develop/src/main/groovy/com/yumyumcoach/domain/ai/review/service/AiExerciseReviewService.java:84-86 | the reference date is never before its own week start, so that branch cannot be taken |
| Calendar.LimitDateIdempotent | backend-develop/src/main/groovy/com/yumyumcoach/domain/ai/review/service/AiNutritionReviewService.java:73-90 | clamping an evaluation date again gives the same date, and the clamped date has the reference date's week start |
| Calendar.LimitDateExample | backend-develop/src/main/groovy/com/yumyumcoach/domain/ai/review/service/AiNutritionReviewService.java:73-90 | Thursday 2024-06-13 evaluated on Monday 2024-06-10 of the same week gives 2024-06-10, which is today |
| Calendar.KoreanDaysOfWeek | backend-develop/src/main/groovy/com/yumyumcoach/domain/stats/service/WeeklyStatsService.java:102-112 | the Korean labels of a week's seven days, starting from its Monday, run 월요일 to 일요일 |
| WeeklyStats.CalculateDietStat | backend-develop/src/main/groovy/com/yumyumcoach/domain/stats/service/WeeklyStatsService.java:53-78 | the stat is dated `date`, carries that date's Korean weekday label, and holds each of the four nutrients summed over every food of every record, with a null list or null amount counting 0 |
| WeeklyStats.CalculateExerciseStat | backend-develop/src/main/groovy/com/yumyumcoach/domain/stats/service/WeeklyStatsService.java:80-96 | the stat is dated `date`, carries its label, and holds the minutes and the burned calories summed over the day's records, with nulls counting 0 |
| WeeklyStats.GetWeeklyStats | backend-develop/src/main/groovy/com/yumyumcoach/domain/stats/service/WeeklyStatsService.java:32-51 | the response built day by day equals `Weekly`: it starts on the week start of `baseDate`, ends six days later, and has exactly seven diet and seven exercise stats, the i-th of each being the totals of day `weekStart + i` |
| WeeklyStats.DietTotalWithoutAmounts | backend-develop/src/main/groovy/com/yumyumcoach/domain/stats/service/WeeklyStatsService.java:60-68 | a day whose foods all have a null amount of a nutrient totals 0 for it |
| WeeklyStats.EmptyDayIsZero | backend-develop/src/main/groovy/com/yumyumcoach/domain/stats/service/WeeklyStatsService.java:55-58 | a day with no records has all-zero diet and exercise totals |
| WeeklyStats.DietTotalOrderIndependent | backend-develop/src/main/groovy/com/yumyumcoach/domain/stats/service/WeeklyStatsService.java:60-68 | a diet total does not depend on the order of the day's records |
| WeeklyStats.ExerciseTotalOrderIndependent | backend-develop/src/main/groovy/com/yumyumcoach/domain/stats/service/WeeklyStatsService.java:85-88 | an exercise total does not depend on the order of the day's records |
| WeeklyStats.DietTotalAppend | backend-develop/src/main/groovy/com/yumyumcoach/domain/stats/service/WeeklyStatsService.java:60-68 | the diet total of two batches of records is the sum of their totals |
| WeeklyStats.WeeklyWindow | backend-develop/src/main/groovy/com/yumyumcoach/domain/stats/service/WeeklyStatsService.java:39-43 | the week contains `baseDate`; the i-th diet and exercise stats are both dated `weekStart + i` and carry that date's label, so both lists are in date order |
| WeeklyStats.WeeklyLabels | backend-develop/src/main/groovy/com/yumyumcoach/domain/stats/service/WeeklyStatsService.java:102-112 | the window's labels are 월요일, 화요일, 수요일, 목요일, 금요일, 토요일, 일요일 in that order |
| Collaborators.MyDiets | backend-develop/src/main/groovy/com/yumyumcoach/domain/stats/service/WeeklyStatsService.java:54 | the stats ask for at most `MAX_RECORDS_PER_DAY` (1000) diet records per day |
| Prompts.UntilSpec | backend-develop/src/main/groovy/com/yumyumcoach/domain/ai/review/service/AiNutritionReviewService.java:106-108 | the filtered and sorted slice is in ascending date order, holds only stats dated at most `date`, holds every such stat exactly as often as the input does, and holds nothing else |
| Prompts.WeeklyDietUntil | backend-develop/src/main/groovy/com/yumyumcoach/domain/ai/mealplan/service/AiMealPlanService.java:69-72 | over a week built for `date`, the filtered and sorted diet stats are exactly the week's days from Monday up to `date` |
| Prompts.WeeklyExerciseUntil | backend-develop/src/main/groovy/com/yumyumcoach/domain/ai/review/service/AiExerciseReviewService.java:107-109 | the same for the exercise stats |
| Gemini.BuildUrl | backend-develop/src/main/groovy/com/yumyumcoach/domain/ai/service/GeminiClient.java:66-71 | the URL followed by `&key=` when it already has a `?` and by `?key=` otherwise, then the key; the result always has a query |
| Gemini.FirstNonBlank | backend-develop/src/main/groovy/com/yumyumcoach/domain/ai/service/GeminiClient.java:73-91 | a text it returns is never blank |
| Gemini.FirstNonBlankSpec | backend-develop/src/main/groovy/com/yumyumcoach/domain/ai/service/GeminiClient.java:73-91 | the text returned stands at some position with no usable text before it; null comes back exactly when no text is usable |
| Gemini.ExtractText | backend-develop/src/main/groovy/com/yumyumcoach/domain/ai/service/GeminiClient.java:73-91 | null without a `candidates` array; otherwise the first usable part text, scanning candidates in order and each candidate's parts in order; never blank |
| Gemini.RespondAsWritten | backend-develop/src/main/groovy/com/yumyumcoach/domain/ai/service/GeminiClient.java:49-63 | as the code is written: a REST failure gives the call failure; any other exception, and also a reply with no usable text, give the processing-error failure; otherwise the extracted text, never blank |
| Gemini.Respond | backend-develop/src/main/groovy/com/yumyumcoach/domain/ai/service/GeminiClient.java:49-63 | a REST failure and any other exception each give their own failure; a reply with no usable text is the unreadable-reply failure; otherwise the reply is the extracted text, never blank |
| Gemini.BlankReplyMessage | backend-develop/src/main/groovy/com/yumyumcoach/domain/ai/service/GeminiClient.java:55-63 | as written, a reply without candidates ends in the same failure as a serialisation error; corrected, it is the unreadable-reply failure |
| Gemini.RespondAgreesExceptMessage | backend-develop/src/main/groovy/com/yumyumcoach/domain/ai/service/GeminiClient.java:49-63 | the corrected reading succeeds exactly when the code does, with the same text, and fails the same way except for the unreadable-reply message |
| Gemini.GeminiClient.constructor | backend-develop/src/main/groovy/com/yumyumcoach/domain/ai/service/GeminiClient.java:21-29 | a client over the given URL, key and transport that has sent nothing |
| Gemini.GeminiClient.Outcome | backend-develop/src/main/groovy/com/yumyumcoach/domain/ai/service/GeminiClient.java:34-64 | a null or blank key fails with the missing-key failure, and only then; a success is never blank |
| Gemini.GeminiClient.Generate | backend-develop/src/main/groovy/com/yumyumcoach/domain/ai/service/GeminiClient.java:34-64 | returns the outcome above; appends exactly one request to the URL built with the key when the key is configured, and sends nothing otherwise |
| ReviewParsing.SummaryOf | backend-develop/src/main/groovy/com/yumyumcoach/domain/ai/review/service/AiExerciseReviewService.java:118-132 | the raw answer when it is not JSON or when `summary` is null or absent; otherwise the field's text |
| ReviewParsing.FieldOf | backend-develop/src/main/groovy/com/yumyumcoach/domain/ai/review/service/AiNutritionReviewService.java:119-135 | null exactly when the answer is not JSON or the field is null or absent; otherwise the field's text |
| ReviewParsing.ContainerSummaryIsBlank | backend-develop/src/main/groovy/com/yumyumcoach/domain/ai/review/service/AiExerciseReviewService.java:129-137 | a `summary` holding an object or an array reads as the empty text and so fails the blank check |
| ExerciseReview.ToResponse | backend-develop/src/main/groovy/com/yumyumcoach/domain/ai/review/service/AiExerciseReviewService.java:141-149 | the response carries the review's week start, evaluation date, summary, recommendation and creation time |
| ExerciseReview.ReviewOf | backend-develop/src/main/groovy/com/yumyumcoach/domain/ai/review/service/AiExerciseReviewService.java:118-139 | succeeds exactly when the summary is not blank, otherwise `INTERNAL_SERVER_ERROR`; the review has the week start of the reference date, the clamped evaluation date, the summary and the recommendation |
| ExerciseReview.ParseAnswer | backend-develop/src/main/groovy/com/yumyumcoach/domain/ai/review/service/AiExerciseReviewService.java:118-139 | the builder steps produce exactly the review or error described by `ReviewOf` |
| ExerciseReview.NotJsonAnswer | backend-develop/src/main/groovy/com/yumyumcoach/domain/ai/review/service/AiExerciseReviewService.java:127-132 | an answer that is not JSON becomes the summary with a null recommendation, and is accepted since the gateway never returns blank text |
| ExerciseReview.MissingSummaryFallsBack | backend-develop/src/main/groovy/com/yumyumcoach/domain/ai/review/service/AiExerciseReviewService.java:129 | a JSON answer with a null or absent `summary` keeps the raw answer as summary and the recommendation it carries |
| ExerciseReview.BlankSummaryRejected | backend-develop/src/main/groovy/com/yumyumcoach/domain/ai/review/service/AiExerciseReviewService.java:135-137 | a parsed summary that reads blank is rejected with `INTERNAL_SERVER_ERROR` |
| ExerciseReview.ReviewPrompt | backend-develop/src/main/groovy/com/yumyumcoach/domain/ai/review/service/AiExerciseReviewService.java:93-116 | the prompt is an exercise prompt for the evaluation date and the profile |
| ExerciseReview.ReviewPromptCoversWeekToDate | backend-develop/src/main/groovy/com/yumyumcoach/domain/ai/review/service/AiExerciseReviewService.java:107-109 | the prompt holds exactly the week's exercise stats from Monday up to the evaluation date, in date order |
| ExerciseReview.ExerciseReviewService.constructor | backend-develop/src/main/groovy/com/yumyumcoach/domain/ai/review/service/AiExerciseReviewService.java:28-37 | a service over the given gateway with an empty review store |
| ExerciseReview.ExerciseReviewService.Generated | backend-develop/src/main/groovy/com/yumyumcoach/domain/ai/review/service/AiExerciseReviewService.java:47-53 | a profile error is passed on; a missing key fails with `INTERNAL_SERVER_ERROR`; a review that results is fit for its key, so its summary is not blank and its week start is the Monday of its evaluation date |
| ExerciseReview.ExerciseReviewService.Calls | backend-develop/src/main/groovy/com/yumyumcoach/domain/ai/review/service/AiExerciseReviewService.java:47-51 | the miss path sends at most one request, and one exactly when the profile exists and the key is configured |
| ExerciseReview.ExerciseReviewService.Get | backend-develop/src/main/groovy/com/yumyumcoach/domain/ai/review/service/AiExerciseReviewService.java:58-72 | with no stored row for the clamped date, an empty response with the week start and the evaluation date; otherwise the stored review |
| ExerciseReview.ExerciseReviewService.Evaluate | backend-develop/src/main/groovy/com/yumyumcoach/domain/ai/review/service/AiExerciseReviewService.java:39-56 | a stored review is returned as it is with no gateway call and no insert; on a miss the requests of `Calls` are sent, and the review is inserted under its key only when every step succeeds, with nothing inserted on an error; a success is what `get` then returns |
| NutritionReview.ToResponse | backend-develop/src/main/groovy/com/yumyumcoach/domain/ai/review/service/AiNutritionReviewService.java:144-155 | the response carries the review's week start, evaluation date, summary, four statuses and creation time |
| NutritionReview.ReviewOf | backend-develop/src/main/groovy/com/yumyumcoach/domain/ai/review/service/AiNutritionReviewService.java:119-142 | succeeds exactly when the summary is not blank, otherwise `INTERNAL_SERVER_ERROR`; the review has the reference date's week start, the clamped evaluation date, the summary and the four status fields |
| NutritionReview.ParseAnswer | backend-develop/src/main/groovy/com/yumyumcoach/domain/ai/review/service/AiNutritionReviewService.java:119-142 | the builder steps produce exactly the review or error described by `ReviewOf` |
| NutritionReview.NotJsonAnswer | backend-develop/src/main/groovy/com/yumyumcoach/domain/ai/review/service/AiNutritionReviewService.java:126-135 | an answer that is not JSON becomes the summary with four null statuses, and is accepted |
| NutritionReview.MissingSummaryFallsBack | backend-develop/src/main/groovy/com/yumyumcoach/domain/ai/review/service/AiNutritionReviewService.java:128-133 | a JSON answer with a null or absent `summary` keeps the raw answer as summary and the four statuses it carries |
| NutritionReview.BlankSummaryRejected | backend-develop/src/main/groovy/com/yumyumcoach/domain/ai/review/service/AiNutritionReviewService.java:137-140 | a parsed summary that reads blank is rejected with `INTERNAL_SERVER_ERROR` |
| NutritionReview.ReviewPrompt | backend-develop/src/main/groovy/com/yumyumcoach/domain/ai/review/service/AiNutritionReviewService.java:92-117 | the prompt is a nutrition prompt for the evaluation date and the profile |
| NutritionReview.ReviewPromptCoversWeekToDate | backend-develop/src/main/groovy/com/yumyumcoach/domain/ai/review/service/AiNutritionReviewService.java:106-108 | the prompt holds exactly the week's diet stats from Monday up to the evaluation date, in date order |
| NutritionReview.NutritionReviewService.constructor | backend-develop/src/main/groovy/com/yumyumcoach/domain/ai/review/service/AiNutritionReviewService.java:28-37 | a service over the given gateway with an empty review store |
| NutritionReview.NutritionReviewService.Generated | backend-develop/src/main/groovy/com/yumyumcoach/domain/ai/review/service/AiNutritionReviewService.java:47-53 | a profile error is passed on; a missing key fails with `INTERNAL_SERVER_ERROR`; a review that results is fit for its key |
| NutritionReview.NutritionReviewService.Calls | backend-develop/src/main/groovy/com/yumyumcoach/domain/ai/review/service/AiNutritionReviewService.java:47-51 | the miss path sends at most one request, and one exactly when the profile exists and the key is configured |
| NutritionReview.NutritionReviewService.Get | backend-develop/src/main/groovy/com/yumyumcoach/domain/ai/review/service/AiNutritionReviewService.java:58-71 | with no stored row, an empty response with the week start and the evaluation date; otherwise the stored review |
| NutritionReview.NutritionReviewService.Evaluate | backend-develop/src/main/groovy/com/yumyumcoach/domain/ai/review/service/AiNutritionReviewService.java:39-56 | a stored review short-circuits with no gateway call and no insert; on a miss the review is inserted under (email, evaluation date) only when every step succeeds, and a blank summary leaves the store unchanged |
| MealPlan.MealTimeOf | backend-develop/src/main/groovy/com/yumyumcoach/domain/ai/mealplan/service/AiMealPlanService.java:159-162 | `mealTime`, else `meal_time` only when `mealTime` is null or absent, else "MEAL" when the chosen one is null or blank; never blank |
| MealPlan.MenuOf | backend-develop/src/main/groovy/com/yumyumcoach/domain/ai/mealplan/service/AiMealPlanService.java:163-170 | `menu`, else `menuDescription` only when `menu` is null or absent, else the fixed placeholder when the chosen one is null or blank; never blank |
| MealPlan.CaloriesOf | backend-develop/src/main/groovy/com/yumyumcoach/domain/ai/mealplan/service/AiMealPlanService.java:165 | null exactly when the `calories` key is absent or null; otherwise the field's numeric value |
| MealPlan.ReadItem | backend-develop/src/main/groovy/com/yumyumcoach/domain/ai/mealplan/service/AiMealPlanService.java:173-179 | an item with a non-blank meal time and a non-blank menu |
| MealPlan.ArrayItems | backend-develop/src/main/groovy/com/yumyumcoach/domain/ai/mealplan/service/AiMealPlanService.java:156-182 | one item per element, in order |
| MealPlan.LineItems | backend-develop/src/main/groovy/com/yumyumcoach/domain/ai/mealplan/service/AiMealPlanService.java:143-152 | at most one item per line, each with a null meal time, calories and highlight |
| MealPlan.MealItems | backend-develop/src/main/groovy/com/yumyumcoach/domain/ai/mealplan/service/AiMealPlanService.java:128-154 | a top-level array gives its elements' items; otherwise an object's `meals` array gives its elements' items; otherwise the non-blank lines of the raw text give the items |
| MealPlan.ReadElement | backend-develop/src/main/groovy/com/yumyumcoach/domain/ai/mealplan/service/AiMealPlanService.java:159-179 | the fallback steps on one element produce exactly its item |
| MealPlan.ReadArray | backend-develop/src/main/groovy/com/yumyumcoach/domain/ai/mealplan/service/AiMealPlanService.java:156-182 | the loop produces one item per element, in order |
| MealPlan.ParseMealItems | backend-develop/src/main/groovy/com/yumyumcoach/domain/ai/mealplan/service/AiMealPlanService.java:128-154 | the parser produces exactly the items described by `MealItems` |
| MealPlan.LineItemsEmpty | backend-develop/src/main/groovy/com/yumyumcoach/domain/ai/mealplan/service/AiMealPlanService.java:143-144 | the line fallback is empty exactly when every line is blank |
| MealPlan.FallbackNeverEmpty | backend-develop/src/main/groovy/com/yumyumcoach/domain/ai/mealplan/service/AiMealPlanService.java:140-153 | a non-blank text that is not JSON, or is JSON with neither array, gives at least one item |
| MealPlan.EmptyOnlyFromEmptyArray | backend-develop/src/main/groovy/com/yumyumcoach/domain/ai/mealplan/service/AiMealPlanService.java:77-80 | a non-blank answer parses to no item only through an empty top-level array or an empty `meals` array |
| MealPlan.EmptyArrayHasNoItems | backend-develop/src/main/groovy/com/yumyumcoach/domain/ai/mealplan/service/AiMealPlanService.java:131-136 | an empty array, top-level or under `meals`, gives no items and no line fallback |
| MealPlan.TwoLineFallback | backend-develop/src/main/groovy/com/yumyumcoach/domain/ai/mealplan/service/AiMealPlanService.java:141-152 | two unpadded non-blank lines without JSON give exactly two items, each with its line as menu and nothing else |
| MealPlan.TwoLineExample | backend-develop/src/main/groovy/com/yumyumcoach/domain/ai/mealplan/service/AiMealPlanService.java:141-152 | "grilled chicken salad\nsteamed rice" gives the two items of its lines |
| MealPlan.ToResponse | backend-develop/src/main/groovy/com/yumyumcoach/domain/ai/mealplan/service/AiMealPlanService.java:184-201 | the response keeps the plan date, the generated flag, the creation time and the raw text; the meals have the items' count, order and four fields |
| MealPlan.PlanPrompt | backend-develop/src/main/groovy/com/yumyumcoach/domain/ai/mealplan/service/AiMealPlanService.java:74 | the prompt is a meal-plan prompt for the plan date and the profile |
| MealPlan.PlanPromptCoversWeekToDate | backend-develop/src/main/groovy/com/yumyumcoach/domain/ai/mealplan/service/AiMealPlanService.java:69-72 | the prompt's diet stats are exactly the week's days from Monday up to the plan date, in date order |
| MealPlan.MealPlanService.constructor | backend-develop/src/main/groovy/com/yumyumcoach/domain/ai/mealplan/service/AiMealPlanService.java:32-41 | a service over the given gateway with no plans and no items |
| MealPlan.MealPlanService.ItemsOf | backend-develop/src/main/groovy/com/yumyumcoach/domain/ai/mealplan/service/AiMealPlanService.java:54 | a plan id with no stored items has none |
| MealPlan.MealPlanService.GetExistingPlan | backend-develop/src/main/groovy/com/yumyumcoach/domain/ai/mealplan/service/AiMealPlanService.java:43-56 | with no plan, `generated=false`, no meals and a null raw text; with one, `generated=true` with its raw text; meals are present exactly when the plan was generated |
| MealPlan.MealPlanService.Generated | backend-develop/src/main/groovy/com/yumyumcoach/domain/ai/mealplan/service/AiMealPlanService.java:66-80 | a profile error is passed on; a success carries a meal-plan prompt for the plan date and a non-empty item list parsed from the raw answer |
| MealPlan.MealPlanService.Calls | backend-develop/src/main/groovy/com/yumyumcoach/domain/ai/mealplan/service/AiMealPlanService.java:66-75 | the miss path sends at most one request, and one exactly when the profile exists and the key is configured |
| MealPlan.MealPlanService.GeneratePlan | backend-develop/src/main/groovy/com/yumyumcoach/domain/ai/mealplan/service/AiMealPlanService.java:58-93 | an existing plan is returned with its stored items and no gateway call or insert; on a miss the plan and its items are inserted together under the next id only when the answer parses to at least one item, and nothing changes on an error; a success is what `getExistingPlan` then returns |
| MealPlan.MealPlanService.Insert | backend-develop/src/main/groovy/com/yumyumcoach/domain/ai/mealplan/service/AiMealPlanService.java:89-90 | the plan is stored under its key and its items under its new id, and the next id moves on |
| Chat.RowsOf | backend-develop/src/main/groovy/com/yumyumcoach/domain/ai/chat/service/AiChatService.java:73 | only rows of the given user and day, never more than are stored |
| Chat.RowsOfComplete | backend-develop/src/main/groovy/com/yumyumcoach/domain/ai/chat/service/AiChatService.java:73 | every stored row of the user and day is among them |
| Chat.RowsOfAppend | backend-develop/src/main/groovy/com/yumyumcoach/domain/ai/chat/service/AiChatService.java:66 | the rows of a key after an append are the old rows followed by the appended rows of that key |
| Chat.Transcript | backend-develop/src/main/groovy/com/yumyumcoach/domain/ai/chat/service/AiChatService.java:71-87 | dated `date`, with one message per row of the day |
| Chat.TranscriptSpec | backend-develop/src/main/groovy/com/yumyumcoach/domain/ai/chat/service/AiChatService.java:71-87 | the messages are in ascending creation time and are a permutation of the day's rows' messages |
| Chat.DtosPermutation | backend-develop/src/main/groovy/com/yumyumcoach/domain/ai/chat/service/AiChatService.java:74-81 | rows that are a permutation of each other have messages that are a permutation of each other |
| Chat.ChatPromptOf | backend-develop/src/main/groovy/com/yumyumcoach/domain/ai/chat/service/AiChatService.java:89-129 | the prompt is a chat prompt for the date, the profile and the message verbatim, carrying no earlier message |
| Chat.ChatPromptCoversWeekToDate | backend-develop/src/main/groovy/com/yumyumcoach/domain/ai/chat/service/AiChatService.java:111-121 | the prompt's diet and exercise stats are exactly the week's days from Monday up to `date` |
| Chat.Pair | backend-develop/src/main/groovy/com/yumyumcoach/domain/ai/chat/service/AiChatService.java:50-65 | the USER message with the question, then the AI message with the answer, one second later |
| Chat.OtherTranscriptsUnchanged | backend-develop/src/main/groovy/com/yumyumcoach/domain/ai/chat/service/AiChatService.java:66 | appending a pair leaves every other user's and day's rows and transcript unchanged |
| Chat.TranscriptGrowsByTwo | backend-develop/src/main/groovy/com/yumyumcoach/domain/ai/chat/service/AiChatService.java:66-68 | the day's rows gain exactly the pair, and its transcript grows by two |
| Chat.SortedRowsAfterPair | backend-develop/src/main/groovy/com/yumyumcoach/domain/ai/chat/service/AiChatService.java:73-75 | when no earlier row of the day is newer than the clock, the sorted rows after the pair end with the pair |
| Chat.PairComesLast | backend-develop/src/main/groovy/com/yumyumcoach/domain/ai/chat/service/AiChatService.java:66-68 | in that case the transcript after the call is the earlier transcript followed by the question and the answer |
| Chat.ChatService.constructor | backend-develop/src/main/groovy/com/yumyumcoach/domain/ai/chat/service/AiChatService.java:28-37 | a service over the given gateway with no messages |
| Chat.ChatService.GetMessages | backend-develop/src/main/groovy/com/yumyumcoach/domain/ai/chat/service/AiChatService.java:71-87 | reads the stored log only: the day's transcript, dated `date`, one message per row of the day |
| Chat.ChatService.Answer | backend-develop/src/main/groovy/com/yumyumcoach/domain/ai/chat/service/AiChatService.java:44-48 | a profile error is passed on; an answer is never blank |
| Chat.ChatService.Calls | backend-develop/src/main/groovy/com/yumyumcoach/domain/ai/chat/service/AiChatService.java:44-48 | an accepted question sends at most one request, and one exactly when the profile exists and the key is configured |
| Chat.ChatService.Chat | backend-develop/src/main/groovy/com/yumyumcoach/domain/ai/chat/service/AiChatService.java:39-69 | a null or blank message fails with `INVALID_REQUEST` before any request or insert; otherwise, on a gateway answer, exactly the USER/AI pair is appended and the day's transcript is returned, and nothing is appended on an error |
| Auth.MatchesEmailCorrect | backend-develop/src/main/groovy/com/yumyumcoach/domain/auth/service/AuthService.java:28-29 | the matcher accepts exactly the texts of the form local@domain.tld of the email pattern |
| Auth.EmailPatternNotBlank | backend-develop/src/main/groovy/com/yumyumcoach/domain/auth/service/AuthService.java:174-178 | no text of the email pattern is blank |
| Auth.ValidateEmail | backend-develop/src/main/groovy/com/yumyumcoach/domain/auth/service/AuthService.java:174-178 | passes exactly a non-null text of the email pattern; fails with `AUTH_INVALID_EMAIL_FORMAT` otherwise |
| Auth.ValidEmailExample | backend-develop/src/main/groovy/com/yumyumcoach/domain/auth/service/AuthService.java:28-29 | "user@example.com" is of the email pattern |
| Auth.InvalidEmailExample | backend-develop/src/main/groovy/com/yumyumcoach/domain/auth/service/AuthService.java:28-29 | "user@example" is not, having no top-level part |
| Auth.UsernamePatternNotBlank | backend-develop/src/main/groovy/com/yumyumcoach/domain/auth/service/AuthService.java:30-31 | no text of the username pattern is blank |
| Auth.ValidateUsername | backend-develop/src/main/groovy/com/yumyumcoach/domain/auth/service/AuthService.java:180-184 | passes exactly a non-null text of 2 to 12 characters from 가-힣, ASCII letters, digits, `.` and `_`; fails with `AUTH_INVALID_USERNAME_FORMAT` otherwise |
| Auth.CheckRefreshTokenPresence | backend-develop/src/main/groovy/com/yumyumcoach/domain/auth/service/AuthService.java:199-203 | passes exactly a non-null, non-blank token; fails with `AUTH_REFRESH_TOKEN_REQUIRED` otherwise |
| Auth.CheckOwnership | backend-develop/src/main/groovy/com/yumyumcoach/domain/auth/service/AuthService.java:205-211 | passes exactly when the authenticated email is present and equals the token's email; fails with `AUTH_UNAUTHORIZED` otherwise |
| Auth.AuthService.constructor | backend-develop/src/main/groovy/com/yumyumcoach/domain/auth/service/AuthService.java:20-27 | a service with no accounts and no refresh tokens |
| Auth.AuthService.IsEmailAvailable | backend-develop/src/main/groovy/com/yumyumcoach/domain/auth/service/AuthService.java:34-38 | an ill-formed email is `AUTH_INVALID_EMAIL_FORMAT`; a well-formed one is available exactly when no account holds it |
| Auth.AuthService.IsUsernameAvailable | backend-develop/src/main/groovy/com/yumyumcoach/domain/auth/service/AuthService.java:41-45 | an ill-formed username is `AUTH_INVALID_USERNAME_FORMAT`; a well-formed one is available exactly when no account holds it |
| Auth.AuthService.SignUpCheck | backend-develop/src/main/groovy/com/yumyumcoach/domain/auth/service/AuthService.java:96-105 | checks email format, username format, email not taken and username not taken, in that order, each with its error; passes exactly when all four hold |
| Auth.AuthService.SignUp | backend-develop/src/main/groovy/com/yumyumcoach/domain/auth/service/AuthService.java:96-109 | inserts the account with the encoded password only when every check passes, and changes nothing otherwise |
| Auth.AuthService.DeleteRefreshToken | backend-develop/src/main/groovy/com/yumyumcoach/domain/auth/service/AuthService.java:213-219 | removes the token's (email, hash) row; fails with `AUTH_INVALID_REFRESH_TOKEN` exactly when there was no such row |
| Auth.AuthService.WithdrawCheck | backend-develop/src/main/groovy/com/yumyumcoach/domain/auth/service/AuthService.java:113-134 | checks token presence, token validity, ownership, account exists, password matches and token row stored, in that order, each with its error; passes exactly when all hold |
| Auth.AuthService.Withdraw | backend-develop/src/main/groovy/com/yumyumcoach/domain/auth/service/AuthService.java:113-139 | deletes the token row and then the account only when every check passes; a failure changes nothing |
| Auth.AuthService.SignOut | backend-develop/src/main/groovy/com/yumyumcoach/domain/auth/service/AuthService.java:79-92 | checks token presence, validity and ownership in that order, then deletes the token row; fails with `AUTH_INVALID_REFRESH_TOKEN` when there is none; accounts are untouched |

## Left out

- Floating point: nutrient amounts, durations and calories are integers, and `roundOneDecimal` (WeeklyStatsService.java:114-116) is not modelled. `asDouble` on a text reads only plain decimal digits.
- JSON lexing: what `readTree` makes of a text is a parameter, and `asText` on a number is its integer digits.
- HTTP and serialisation: building the request body, `writeValueAsString` and `postForEntity` are the client's `transport` function. Its result is a reply body, a `RestClientException` or another exception.
- Wall clock: `now` and `clock` are parameters. Every meal item of one call gets the same `clock`, where the code reads the clock once per item.
- Concurrency and transactions: executions are sequential, and the lookup-then-insert race is not modelled.
- Prompt wording: a prompt is modelled by its content (date, profile, the embedded stats and the chat message), not by its text. The chat prompt's time of day and the weekday name printed in each prompt are not modelled.
- Java's `split` drops trailing empty strings. The model keeps them; this changes nothing, since blank lines are skipped.
- The mapper queries: the generated plan id is assumed to be written back by `insertPlan`. `findItemsByPlanId` and `findByEmailAndDate` are assumed to return rows in insertion order.
- `SignIn`, `refreshTokens` and `saveRefreshToken` (token creation and upsert) are not modelled. JWT validation, `getEmail`, password encoding and matching, and SHA-256 are the functions of a `Security` value.
- UserService, the controllers, the mapper interfaces and the entity and DTO classes are not part of this model. `getMyPage`, `getMyDiets` and `getMyExerciseRecords` are functions of the `Records` value.
- Exception messages are not modelled; the gateway's failure kinds stand for them.
- Gemini.GeminiClient.Generate: every attempted request is logged once the key check passes, even when the transport fails or the request body cannot be serialised; request bodies are logged as the prompt value.
- Gemini.GeminiClient.Outcome: the client follows the corrected reading `Gemini.Respond` of the Findings row, so a reply with no usable text gives the unreadable-reply failure, where the code as written (`Gemini.RespondAsWritten`) gives the processing-error one. The services see no difference, since every gateway failure surfaces as `INTERNAL_SERVER_ERROR`.

## Findings

| source | as written | input that shows it | evidently intended | confidence | as-written member | corrected member |
|---|---|---|---|---|---|---|
| backend-develop/src/main/groovy/com/yumyumcoach/domain/ai/service/GeminiClient.java:54-63 | the `BusinessException` for a reply with no usable text is thrown inside the `try` and caught again by `catch (Exception)`, which replaces its "reply unreadable" message with the generic processing-error one | a reply body `{}` (no `candidates`): as written it ends as the processing-error failure, the same as a serialisation error | the reply-unreadable failure surfaces as raised | not executed | Gemini.RespondAsWritten (shown by Gemini.BlankReplyMessage) | Gemini.Respond |
