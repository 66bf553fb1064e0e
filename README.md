# VacaFácil back end: analytics, limits and validation, in Dafny

This project models the logic of the VacaFácil dairy-farm back end (a FastAPI and
SQLAlchemy service): the parts that compute, validate or keep state, as opposed to
plain CRUD routing. It covers:

- **Herd analytics** (`MLService`, module `MlService`), over a snapshot of
  production records:
  - the least-squares milk forecast;
  - per-cow performance with trend and tier, sorted by mean;
  - anomaly detection by z-score;
  - rule-based recommendations;
  - the financial projection.
- **The simplified analytics** (`MLServiceSimple`, module `MlServiceSimple`):
  - a moving-average forecast with a weekday variation;
  - the unsorted performance list;
  - the reduced recommendation rules.
- **The sliding-window rate limiter** (`RateLimiter`, module `RateLimiting`): a class
  holding the request-time map, the key insertion order, `max_keys` and
  `last_cleanup`, with `is_allowed` and the periodic cleanup as methods.
- **Password policy, input sanitising and key generation** (module `SecurityConfig`).
- **Subscription plans** (`SubscriptionService`, module `Subscriptions`):
  - the price and limit tables and `check_limits`;
  - a class holding one subscription per user, which create, upgrade and cancel
    update in place.
- **The JSON reports** (module `Reports`):
  - the production report with its per-cow grouping;
  - the financial report with its per-category grouping and margin;
  - the 30-day complete report.
- **The production table** (module `ProductionRoutes`): a class whose create and
  update keep `total == manha + tarde`, one record per cow and day, and unique ids;
  plus the filtered and paged listing.
- **The request schemas** (modules `ProductionSchemas`, `UserSchemas`): the quantity,
  name and password validators and the field defaults.

Conventions:

- Database queries become sequences passed in, and their ordering and limits are
  preconditions (`NewestFirst`, `|ps| <= 30`).
- Dates are day ordinals (`date.toordinal()`), so a difference of dates in days is a
  subtraction.
- Clock readings are integer microseconds, or day ordinals, passed as parameters.
- Milk yields and money are `real`, before any rounding.
- A Python `{"error": ...}` result, or an exception turned into an HTTP status, is the
  `Err` case of a `Result`.

Shared modules:

- `Wrappers`: `Option` and `Result`.
- `Records`: the `producoes` and `vacas` rows and their projections.
- `Stats`: sums, mean, sample variance and the least-squares formulas, with their
  algebra.
- `Text`: Python's `str.strip`.

## Model

| member | source | states |
|---|---|---|
| MlService.PredictMilkProduction | app/services/ml_service.py:15-61 | fewer than 5 records is the "insufficient data" error; records all on one date are the division-by-zero error the catch-all reports; otherwise Ok, with the cow id, confidence min(0.95, n/30), exactly Horizon(days_ahead) points, the i-th dated i+1 days after the newest record and valued at the fitted line there, clamped at 0 |
| MlService.PredictFromFit | app/services/ml_service.py:25-53 | the offsets are taken from the oldest record and the points start the day after the newest; the i-th point is the clamped least-squares forecast at offset lastDay + i + 1 |
| MlService.ForecastPoints | app/services/ml_service.py:42-53 | the loop emits exactly `count` points; point j is dated base + lastDay + j + 1 and valued max(0, a + b·(lastDay + j + 1)) |
| MlService.PointsAreForecasts | app/services/ml_service.py:46-52 | points built from the fitted line are the clamped forecasts of the records, on consecutive days after the newest |
| MlService.NonNegative | app/services/ml_service.py:52 | max(0, v): at least 0 and at least v, and equal to one of them |
| MlService.Horizon | app/services/ml_service.py:45 | range(min(days_ahead, 30)) runs 0 times for days_ahead ≤ 0, days_ahead times up to 30, and 30 times beyond |
| MlService.Confidence | app/services/ml_service.py:58 | min(0.95, n/30): at most both, and equal to one of them |
| MlService.LastDayIsNewest | app/services/ml_service.py:18-43 | with the records newest first, the largest offset is that of the first record |
| MlService.EqualOffsetsIffSameDate | app/services/ml_service.py:26-27 | the day offsets are all equal iff all records carry one date |
| MlService.DenominatorZeroIffSameDate | app/services/ml_service.py:38 | n·Σx² − (Σx)² is never negative, and is 0 iff all records carry one date |
| MlService.OffsetsRebased | app/services/ml_service.py:27 | offsets from another base date are the same offsets shifted by the difference of the bases |
| MlService.FitOfLinearSeries | app/services/ml_service.py:31-39 | on records lying exactly on y = a + b·x the fit is exactly (a, b) |
| MlService.Forecast | app/services/ml_service.py:47-52 | the forecast value is never negative |
| MlService.TrendOfSlope | app/services/ml_service.py:99 | crescente iff slope > 0.1, decrescente iff slope < −0.1, estável iff −0.1 ≤ slope ≤ 0.1 |
| MlService.TrendMonotone | app/services/ml_service.py:99 | a larger slope never gives a lower trend |
| MlService.TrendFromAnyBase | app/services/ml_service.py:86-103 | a single date gives estável; otherwise the denominator is non-zero and the trend is that of the slope over offsets from any base date |
| MlService.TierOf | app/services/ml_service.py:106-113 | excelente iff mean > 20, boa iff 15 < mean ≤ 20, regular iff 10 < mean ≤ 15, baixa iff mean ≤ 10 |
| MlService.TierMonotone | app/services/ml_service.py:106-113 | a larger mean never gives a lower tier |
| MlService.Summaries | app/services/ml_service.py:73-79 | at most one entry per cow |
| MlService.SummariesSelect | app/services/ml_service.py:73-123 | every entry is the summary of a cow with at least 3 records, and every such cow has its summary in the list |
| MlService.SummariesEntries | app/services/ml_service.py:105-122 | every entry's tier is the tier of its mean, and it covers at least 3 records |
| MlService.SortByMediaCorrect | app/services/ml_service.py:125 | the sort's result is non-increasing by mean and a permutation of its input |
| MlService.AnalyzeCattlePerformance | app/services/ml_service.py:63-133 | error iff the user has no cows; otherwise the list is sorted by mean, is a permutation of the qualifying cows' summaries, total_vacas is its length, and media_geral is 0 when it is empty |
| MlService.PerformanceEntries | app/services/ml_service.py:105-131 | every entry of the performance result has the tier of its mean and at least 3 records |
| MlService.OutlierIffZScoreAboveTwo | app/services/ml_service.py:155-160 | the squared test flags a record iff its z-score (0 when the deviation is 0) exceeds 2 |
| MlService.Outliers | app/services/ml_service.py:152-167 | never more flagged records than records |
| MlService.OutliersSelect | app/services/ml_service.py:154-167 | an entry is listed iff it is the entry of a record that fails the test; every entry fails the test and is "alta" iff above the mean |
| MlService.OutliersAppend | app/services/ml_service.py:154-167 | flagging a concatenation flags each part, in record order |
| MlService.OutliersCount | app/services/ml_service.py:155-160 | with a positive variance, the number flagged is the number of yields whose squared deviation exceeds four variances |
| MlService.NoOutliersWithoutSpread | app/services/ml_service.py:155-158 | a deviation of 0 flags nothing |
| MlService.Listed | app/services/ml_service.py:173 | anomalias[:10] keeps min(total, 10) entries |
| MlService.DetectAnomalies | app/services/ml_service.py:135-176 | fewer than 10 records is the error; otherwise the report of the mean, the variance and the flagged records |
| MlService.AnomalyReportParts | app/services/ml_service.py:145-174 | the report holds the mean and sample variance, counts every flagged record, and lists a prefix of them of length min(count, 10) |
| MlService.SteadyYieldsNoAnomalies | app/services/ml_service.py:149-158 | equal yields give variance 0 and no anomaly |
| MlService.FewAnomalies | app/services/ml_service.py:151-170 | at most (n − 1)/4 records are ever flagged, by Chebyshev's bound |
| MlService.AddCowRecommendations | app/services/ml_service.py:188-203 | one cow's step appends exactly that cow's recommendations |
| MlService.RecommendFor | app/services/ml_service.py:186-215 | the loop builds the per-cow recommendations, then the herd advice when the mean is below 15, and counts them |
| MlService.RecommendActions | app/services/ml_service.py:178-217 | the performance error is passed on unchanged (and happens iff there are no cows); otherwise the recommendations of the performance result |
| MlService.CowRecommendationsNames | app/services/ml_service.py:189-203 | a cow gets an alert iff its tier is baixa and an attention iff its trend is decrescente, and never the herd advice |
| MlService.PerCowRecommendationsNames | app/services/ml_service.py:188-203 | the alerts name exactly the baixa cows and the attentions exactly the decrescente cows, in list order; no herd advice |
| MlService.PerCowRecommendationsPriorities | app/services/ml_service.py:190-203 | every alert is high priority and every attention medium |
| MlService.HerdAdviceIffLowMean | app/services/ml_service.py:205-214 | the herd advice is present iff media_geral < 15, and then it is last and the only one; the count equals the list length |
| MlService.AllLowCowsGetHerdAdvice | app/services/ml_service.py:181-210 | when every listed cow is baixa, the herd advice is emitted |
| MlService.FinancialForecastOf | app/services/ml_service.py:219-254 | error iff fewer than 7 records; otherwise the price is echoed and the daily yield is the mean of the yields |
| MlService.ForecastIsLinear | app/services/ml_service.py:229-245 | revenue is yield × price, daily and in each projection; the projections are 7, 30 and 365 days of the daily yield |
| MlService.ForecastBounds | app/services/ml_service.py:229 | the daily yield lies between the smallest and the largest yields |
| MlServiceSimple.Variation | app/services/ml_service_simple.py:32 | 1.0 + (weekday % 3 − 1)·0.1 is 0.9, 1.0 or 1.1; 0.9 iff weekday % 3 = 0 and 1.1 iff it is 2 |
| MlServiceSimple.VariationOfWeek | app/services/ml_service_simple.py:29-33 | from a Monday, the week runs 0.9, 1.0, 1.1, 0.9, 1.0, 1.1, 0.9 |
| MlServiceSimple.SimpleConfidence | app/services/ml_service_simple.py:43 | min(0.8, n/7): at most both, and equal to one of them |
| MlServiceSimple.Steps | app/services/ml_service_simple.py:29 | range(days_ahead) runs 0 times for days_ahead ≤ 0 and days_ahead times otherwise |
| MlServiceSimple.PredictSimple | app/services/ml_service_simple.py:13-45 | error iff fewer than 3 records; otherwise the cow id, confidence min(0.8, n/7), the method name, and Steps(days_ahead) points dated today + i + 1 and valued at the mean times that day's variation |
| MlServiceSimple.SimpleForecastBounds | app/services/ml_service_simple.py:25-37 | with yields in [0, hi], the mean lies in [0, hi] and each forecast between 0.9 and 1.1 times the mean, so it is never negative |
| MlServiceSimple.SimpleSummaries | app/services/ml_service_simple.py:57-63 | at most one entry per cow |
| MlServiceSimple.SimpleSummariesSelect | app/services/ml_service_simple.py:57-86 | every entry is the summary of a cow with at least 2 records, every such cow has its summary in the list, and each tier is the tier of the mean |
| MlServiceSimple.SimpleSummariesAppend | app/services/ml_service_simple.py:57-86 | the unsorted list keeps cow order: summarising a concatenation summarises each part |
| MlServiceSimple.AnalyzePerformanceSimple | app/services/ml_service_simple.py:47-93 | error iff the user has no cows; total_vacas is the list length; media_geral is 0 when the list is empty |
| MlServiceSimple.SimpleRecommendFor | app/services/ml_service_simple.py:103-125 | the loop builds the per-cow alerts, then the herd advice when the mean is below 15 |
| MlServiceSimple.GetRecommendationsSimple | app/services/ml_service_simple.py:95-125 | the error is passed on unchanged (and happens iff there are no cows); otherwise the recommendations of the performance result |
| MlServiceSimple.SimplePerCowNames | app/services/ml_service_simple.py:105-112 | exactly one high-priority alert per baixa cow, in order, and nothing else per cow |
| MlServiceSimple.SimpleHerdAdviceIffLowMean | app/services/ml_service_simple.py:114-119 | the herd advice, of medium priority, is present iff media_geral < 15, and then last; all entries before it are alerts |
| RateLimiting.Prune | app/utils/rate_limiter.py:26 | keeps exactly the times after the cutoff, never adding any |
| RateLimiting.PruneIdempotent | app/utils/rate_limiter.py:26 | pruning twice with one cutoff prunes once |
| RateLimiting.PruneAppend | app/utils/rate_limiter.py:26-33 | a time after the cutoff survives the next pruning at the end of the list |
| RateLimiting.Keep | app/utils/rate_limiter.py:52-53 | deleting keys keeps exactly the others, in order |
| RateLimiting.KeepDistinct | app/utils/rate_limiter.py:52-53 | deleting keys keeps the keys distinct |
| RateLimiting.KeepMore | app/utils/rate_limiter.py:60-61 | deleting one more key is deleting the larger set |
| RateLimiting.KeepCount | app/utils/rate_limiter.py:59-61 | deleting present keys from distinct keys leaves exactly that many fewer |
| RateLimiting.SortByLatestCorrect | app/utils/rate_limiter.py:57-58 | `sorted` orders the keys by their latest time, oldest first, and is a permutation |
| RateLimiting.SortedDistinct | app/utils/rate_limiter.py:57 | sorting distinct keys keeps them distinct |
| RateLimiting.Stale | app/utils/rate_limiter.py:45-50 | the keys marked for removal are exactly those left with no time after the cutoff |
| RateLimiting.EvictCount | app/utils/rate_limiter.py:56-59 | len − max_keys keys are evicted when over the limit, none otherwise |
| RateLimiting.DropStaleProperties | app/utils/rate_limiter.py:42-53 | after the first phase every key keeps exactly its times after the cutoff, and those are not empty; every key with such a time stays |
| RateLimiting.EvictOldestKeeps | app/utils/rate_limiter.py:56-61 | eviction only deletes keys, never changes a list, and does nothing within the limit |
| RateLimiting.EvictOldestFirst | app/utils/rate_limiter.py:57-61 | every evicted key's latest time is no later than any kept key's |
| RateLimiting.EvictOldestBound | app/utils/rate_limiter.py:56-61 | after eviction at most max_keys keys remain |
| RateLimiting.CleanedProperties | app/utils/rate_limiter.py:39-61 | after cleanup, at most max_keys keys remain, each with a non-empty list that is its old list pruned to the last hour |
| RateLimiting.CleanedWithoutEviction | app/utils/rate_limiter.py:55-56 | when the stale keys' removal leaves at most max_keys keys, cleanup is just that removal |
| RateLimiting.AdmitDecision | app/utils/rate_limiter.py:22-34 | refused iff the pruned list already holds max_requests times; a refusal stores the pruned list, an admission the pruned list plus exactly now |
| RateLimiting.AdmitOthersUnchanged | app/utils/rate_limiter.py:22-34 | admission changes no key but the requested one |
| RateLimiting.AdmitWellFormed | app/utils/rate_limiter.py:22-23 | admission keeps the key order and the map in step |
| RateLimiting.AdmitBounded | app/utils/rate_limiter.py:29-33 | with a fixed max_requests, no list grows beyond it |
| RateLimiting.CleanedBounded | app/utils/rate_limiter.py:39-61 | cleanup never lengthens a list |
| RateLimiting.RequestBounded | app/utils/rate_limiter.py:12-34 | a whole is_allowed call keeps every list within max_requests |
| RateLimiting.DeleteAllRemoves | app/utils/rate_limiter.py:52-53 | deleting a list of keys removes exactly those keys from the map and the order |
| RateLimiting.PruneKeysVisited | app/utils/rate_limiter.py:45-47 | the loop's pass prunes every visited key's list |
| RateLimiting.DropStaleSteps | app/utils/rate_limiter.py:45-53 | the two loops together compute the first phase of cleanup |
| RateLimiting.RateLimiter.constructor | app/utils/rate_limiter.py:7-10 | an empty map, the given max_keys, last_cleanup = now |
| RateLimiting.RateLimiter.DeleteKeys | app/utils/rate_limiter.py:52-53 | the `del` loop removes exactly the listed keys |
| RateLimiting.RateLimiter.DropStaleEntries | app/utils/rate_limiter.py:42-53 | the two loops prune every list and drop the keys left empty |
| RateLimiting.RateLimiter.EvictOldestEntries | app/utils/rate_limiter.py:55-61 | the over-limit branch deletes the len − max_keys keys with the oldest latest time |
| RateLimiting.RateLimiter.CleanupOldEntries | app/utils/rate_limiter.py:39-61 | `_cleanup_old_entries(now)` leaves the cleaned table, and changes neither max_keys nor last_cleanup |
| RateLimiting.RateLimiter.Admission | app/utils/rate_limiter.py:22-34 | the admission step on the object, as AdmitDecision describes it |
| RateLimiting.RateLimiter.IsAllowed | app/utils/rate_limiter.py:12-34 | cleanup first iff more than 300 s passed, then last_cleanup = now; then the admission |
| SecurityConfig.ValidatePassword | app/utils/security_config.py:43-66 | the errors are the policy's error list, and the verdict is true iff that list is empty |
| SecurityConfig.EmptyPasswordErrors | app/utils/security_config.py:47-49 | the empty password has exactly the one "vazia" error |
| SecurityConfig.PasswordErrorsIff | app/utils/security_config.py:12-64 | for a non-empty password, each message appears iff its check fails: shorter than 8, no upper case, no lower case, no digit; never the special-character one |
| SecurityConfig.PasswordErrorsOrdered | app/utils/security_config.py:51-64 | the messages come in the order length, upper case, lower case, digit |
| SecurityConfig.PasswordAcceptedIffStrong | app/utils/security_config.py:51-66 | accepted iff the password is non-empty, at least 8 long and has an upper-case letter, a lower-case letter and a digit |
| SecurityConfig.RemoveChar | app/utils/security_config.py:78 | `replace(c, "")` keeps every other character and no `c` |
| SecurityConfig.RemoveAll | app/utils/security_config.py:75-78 | the loop removes every dangerous character and keeps the rest |
| SecurityConfig.SanitizeInput | app/utils/security_config.py:68-80 | the loop over the seven characters then `strip` computes the sanitised text |
| SecurityConfig.SanitizedProperties | app/utils/security_config.py:70-80 | the result has no dangerous character and no surrounding whitespace, comes from the input, and keeps every safe non-whitespace character |
| SecurityConfig.SanitizedIdempotent | app/utils/security_config.py:68-80 | sanitising twice is sanitising once |
| SecurityConfig.GenerateSecureKey | app/utils/security_config.py:31-41 | refused with the wrapped message iff length < 16; otherwise exactly `length` characters drawn from the alphabet |
| SecurityConfig.AlphabetAlphanumeric | app/utils/security_config.py:36 | the alphabet has 62 characters, all ASCII letters or digits |
| SecurityConfig.SecureKeyAlphanumeric | app/utils/security_config.py:34-37 | a key of length ≥ 16 is that long and alphanumeric |
| Subscriptions.PlanTables | app/services/subscription_service.py:93-122 | FREE costs 0.0, BASIC 29.90, PRO 59.90; FREE allows 5 cows, BASIC 50, PRO unlimited (−1) |
| Subscriptions.UnknownPlan | app/services/subscription_service.py:88-122 | an unknown plan costs 0.0, has no limits, and so allows 0 cows |
| Subscriptions.PaidIffPriced | app/services/subscription_service.py:93-99 | a plan has a positive price iff it is BASIC or PRO |
| Subscriptions.EndDate | app/services/subscription_service.py:21-54 | no end date iff the plan is FREE, else now + 30 days |
| Subscriptions.NewSubscription | app/services/subscription_service.py:20-31 | the new row has the user, the plan, the status ACTIVE, the plan's price and the payment method; no end date iff FREE |
| Subscriptions.Upgraded | app/services/subscription_service.py:47-54 | the new plan and its price, updated_at = now, no end date iff FREE; user, status and payment method unchanged |
| Subscriptions.CancelledRow | app/services/subscription_service.py:67-68 | status CANCELLED, and `updated_at` stamped with the commit time exactly when the status changes (the column's `onupdate=func.now()`); no other field changes, and an already cancelled row is left as it is |
| Subscriptions.CancelledRowIdempotent | app/services/subscription_service.py:67-68 | cancelling again, at any later time, changes nothing |
| Subscriptions.UpgradedIdempotent | app/services/subscription_service.py:39-57 | upgrading twice to the same plan at the same time is upgrading once |
| Subscriptions.UpgradeKeepsCancellation | app/services/subscription_service.py:47-54 | an upgrade does not reactivate a cancelled subscription |
| Subscriptions.WritesConsistent | app/services/subscription_service.py:20-67 | every write leaves the price that of the plan and no end date exactly on FREE |
| Subscriptions.CheckLimitsByPlan | app/services/subscription_service.py:72-91 | no subscription is False; another resource is True; for "vacas", FREE allows count < 5, BASIC count < 50, PRO anything |
| Subscriptions.CheckLimitsCount | app/services/subscription_service.py:82-89 | a supplied count is used as given; without one, the user's cow count is used |
| Subscriptions.CheckLimitsIgnoresStatus | app/services/subscription_service.py:72-91 | the status is never consulted |
| Subscriptions.CheckLimitsMonotone | app/services/subscription_service.py:88-89 | a count that is allowed makes every smaller count allowed |
| Subscriptions.SubscriptionService.constructor | app/services/subscription_service.py:8-9 | no subscriptions |
| Subscriptions.SubscriptionService.CreateSubscription | app/services/subscription_service.py:11-37 | an existing row is upgraded, otherwise a new row is stored; either way the user then has exactly the returned row |
| Subscriptions.SubscriptionService.UpgradeSubscription | app/services/subscription_service.py:39-57 | a missing row is the "not found" error and changes nothing; otherwise only that user's row is upgraded |
| Subscriptions.SubscriptionService.CancelSubscription | app/services/subscription_service.py:59-70 | a missing row is the error and changes nothing; otherwise only that user's row becomes its CancelledRow at the commit time `now`, with the confirmation message |
| Subscriptions.SubscriptionService.CheckUserLimits | app/services/subscription_service.py:72-91 | a user without a subscription is refused; any resource other than "vacas" is allowed iff a subscription exists |
| Reports.ProductionQuery | app/routers/report_routes.py:23-30 | exactly the user's records dated within the inclusive bounds that are given |
| Reports.EntryQuery | app/routers/report_routes.py:81-94 | exactly the user's revenue or expense entries dated within the inclusive bounds |
| Reports.CowsOf | app/routers/report_routes.py:157 | exactly the user's cows |
| Reports.Valores | app/routers/report_routes.py:97-98 | the amounts of the entries, in order |
| Reports.Categorias | app/routers/report_routes.py:102-112 | the categories of the entries, in order |
| Reports.VacaIds | app/routers/report_routes.py:37-47 | the cow ids of the records, in order |
| Reports.TallyKeys | app/routers/report_routes.py:37-112 | the grouping lists each key once, in first-appearance order, and has a sum and a count exactly for the keys that occur |
| Reports.TallyPerKey | app/routers/report_routes.py:37-112 | each key's sum is the sum of its amounts and its count their number |
| Reports.TallySum | app/routers/report_routes.py:37-112 | the sums over all keys add up to the total amount and the counts to the number of entries |
| Reports.BumpSum | app/routers/report_routes.py:39-47 | one loop step adds the amount to the sum total and 1 to the count total |
| Reports.CowName | app/routers/report_routes.py:40-42 | the name of a cow with that id, or "Desconhecida" |
| Reports.ProductionSummaryOf | app/routers/report_routes.py:33-57 | the total is the sum of the totals and the count the number of records; the daily mean times the count is the total, and 0 without records |
| Reports.PorVaca | app/routers/report_routes.py:37-47 | the loop builds one entry per cow, in first-appearance order, with the cow's name, total and record count |
| Reports.AddRecord | app/routers/report_routes.py:39-47 | one record creates its cow's entry if missing, then adds its total and 1 |
| Reports.AmountsOfCow | app/routers/report_routes.py:46 | the amounts grouped under a cow are that cow's record totals |
| Reports.PorVacaMeaning | app/routers/report_routes.py:37-47 | a cow's entry holds the sum of its records' totals and their number |
| Reports.PorVacaAddsUp | app/routers/report_routes.py:37-57 | each cow appears once, exactly the cows with a record appear, and the per-cow totals and counts add up to the report's total and count |
| Reports.PeriodLabel | app/routers/report_routes.py:51-52 | the parameter when given and non-empty, else the fallback |
| Reports.RelatorioProducao | app/routers/report_routes.py:15-70 | given bounds parsed exactly from the non-empty parameters, the report lists the filtered records, summarises them, and groups them by cow |
| Reports.Margin | app/routers/report_routes.py:123 | with revenue > 0, margin × revenue = saldo × 100; else 0, with no division |
| Reports.MarginBounds | app/routers/report_routes.py:99-123 | with revenue > 0 and non-negative expenses the margin is at most 100; it is negative iff expenses exceed revenue |
| Reports.FinancialSummaryOf | app/routers/report_routes.py:97-123 | revenue and expenses are the sums of the amounts, saldo their difference, and the margin as Margin gives it |
| Reports.PorCategoria | app/routers/report_routes.py:102-112 | the loop builds the per-category sums, in first-appearance order |
| Reports.CategoriesAddUp | app/routers/report_routes.py:97-112 | each category appears once, the per-category sums add up to the total, and each is the sum of its entries |
| Reports.RelatorioFinanceiro | app/routers/report_routes.py:72-145 | given bounds parsed exactly from the non-empty parameters, the report lists the filtered entries, summarises them, and groups each side by category |
| Reports.ActiveCows | app/routers/report_routes.py:179 | exactly the cows whose status is "ativa" |
| Reports.CompleteReportOf | app/routers/report_routes.py:147-191 | total_vacas is the number of the user's cows, and vacas_ativas the number of those whose status is "ativa", never more |
| Reports.CompleteReportCountsActiveCows | app/routers/report_routes.py:179 | for all inputs, vacas_ativas is the number of rows of the cow table that belong to the user and have status "ativa" |
| Reports.CompleteReportFigures | app/routers/report_routes.py:154-189 | records from the last 30 days with no upper bound; the daily mean is total/30 however many records there are; saldo = revenue − expenses |
| Reports.CompleteReportAsWritten | app/routers/report_routes.py:175-180 | as written, the report fails iff the user has a cow |
| Reports.CompleteReportFailsWithACow | app/routers/report_routes.py:179 | one active cow: the code as written fails, the corrected report counts 1 active cow |
| Reports.CompleteReportAgreesWithoutCows | app/routers/report_routes.py:175-191 | without cows, the code as written and the corrected report agree |
| ProductionSchemas.ValidateQuantity | app/schemas/production_schemas.py:12-18 | accepted iff 0 ≤ v ≤ 100, unchanged; otherwise the negative or the too-high message |
| ProductionSchemas.QuantityBoundaries | app/schemas/production_schemas.py:14-17 | 0 and 100 are accepted; −0.5 and 100.5 are refused with their messages |
| ProductionSchemas.ValidateQuantityIdempotent | app/schemas/production_schemas.py:12-18 | validating an accepted value again gives the same result |
| ProductionSchemas.ValidateOptionalQuantity | app/schemas/production_schemas.py:28-35 | null passes unchanged; a value follows the same rule with the same message |
| ProductionSchemas.Messages | app/schemas/production_schemas.py:12-18 | one message for a refused field, none for an accepted one |
| ProductionSchemas.ParseProducaoCreate | app/schemas/production_schemas.py:5-21 | accepted iff each given quantity is in [0, 100]; a missing quantity defaults to 0; one or two messages otherwise |
| ProductionSchemas.CreateDefaults | app/schemas/production_schemas.py:8-10 | an empty body gives zero litres in both milkings and no observation |
| ProductionSchemas.BothQuantitiesReported | app/schemas/production_schemas.py:12-18 | both bad quantities are reported, the morning one first |
| ProductionSchemas.ValidateField | app/schemas/production_schemas.py:28-35 | an unset field passes; a set one passes iff its value does, unchanged |
| ProductionSchemas.ParseProducaoUpdate | app/schemas/production_schemas.py:23-35 | accepted iff both quantity fields pass; the body holds only the two quantities and the observation |
| UserSchemas.ValidateNome | app/schemas/user_schemas.py:11-15 | a refusal carries the empty-name message |
| UserSchemas.ValidateNomeMeaning | app/schemas/user_schemas.py:11-15 | refused iff empty or whitespace-only; an accepted name is stored non-empty, stripped, with every non-whitespace character |
| UserSchemas.ValidateNomeIdempotent | app/schemas/user_schemas.py:15 | a stored name validates to itself |
| UserSchemas.ValidatePassword | app/schemas/user_schemas.py:20-26 | accepted iff at least 6 long, unchanged; empty gives "obrigatória", short gives the length message |
| UserSchemas.ShortPasswordRefused | test_endpoints.py:146-159 | "123" and "" are refused |
| UserSchemas.SchemaWeakerThanPolicy | app/schemas/user_schemas.py:20-26 | every password the security policy accepts is accepted here, while "abcdef" passes here but not the policy |
| ProductionRoutes.AddError | app/routers/production_routes.py:104-108 | an update that sets a quantity to null ends in the 400 error |
| ProductionRoutes.NewRecord | app/routers/production_routes.py:39-45 | the new record has the given id, the current user, the request's fields and total = manha + tarde |
| ProductionRoutes.FindOwned | app/routers/production_routes.py:88-91 | a record with that id owned by the user, or none exists |
| ProductionRoutes.Applied | app/routers/production_routes.py:96-99 | fails iff a quantity becomes null; otherwise only the set fields change, id, owner, cow and date stay, and total is recomputed |
| ProductionRoutes.SetFields | app/routers/production_routes.py:96-97 | the `setattr` loop gives each set field its value and leaves the others |
| ProductionRoutes.EmptyUpdateKeeps | app/routers/production_routes.py:96-99 | an empty update leaves a consistent record as it is |
| ProductionRoutes.Listing | app/routers/production_routes.py:67-74 | exactly the user's records matching the cow (ignored when 0 or absent) and the inclusive date bounds |
| ProductionRoutes.Page | app/routers/production_routes.py:76 | offset then limit: at most `limit` records, the slice from `skip`, empty past the end |
| ProductionRoutes.ListingPage | app/routers/production_routes.py:67-76 | a page holds at most `limit` matching records; a short listing fits on the first page |
| ProductionRoutes.PagesConsecutive | app/routers/production_routes.py:76 | two consecutive pages are one page of twice the size |
| ProductionRoutes.ReplaceKeepsInvariant | app/routers/production_routes.py:96-99 | replacing a record by one with the same id, cow and date and a consistent total keeps the table invariant |
| ProductionRoutes.CreatedIsTaken | app/routers/production_routes.py:31-46 | after a creation the cow's date is taken |
| ProductionRoutes.UpdateKeepsTaken | app/routers/production_routes.py:96-99 | an update frees and takes no (cow, date) |
| ProductionRoutes.ProductionTable.constructor | app/models/production_model.py:5-15 | an empty table, with ids starting at 1 |
| ProductionRoutes.ProductionTable.CreateProducao | app/routers/production_routes.py:13-54 | someone else's cow is 404 and a taken date 409, both leaving the table as it was; otherwise the new record is appended and returned |
| ProductionRoutes.ProductionTable.GetProducoes | app/routers/production_routes.py:56-78 | at most `limit` records, all of the user's and matching the filters |
| ProductionRoutes.ProductionTable.UpdateProducao | app/routers/production_routes.py:80-108 | a record not found for the user is 404; otherwise the applied update replaces it in place, or the error leaves the table unchanged |
| Records.Totals | app/services/ml_service.py:28 | the totals of the records, in order |
| Records.Offsets | app/services/ml_service.py:27 | each record's days after the base date, in order |
| Records.OfCow | app/services/ml_service.py:74-76 | exactly the records of one cow |
| Records.Weekday | app/services/ml_service_simple.py:32 | `date.weekday()` of a day ordinal is in 0..6 |
| Records.WeekdayNext | app/services/ml_service_simple.py:30-32 | the next day's weekday is the next one, modulo 7 |
| Stats.Values | app/services/ml_service.py:129 | `[r['media_producao'] for r in results]`: one value per entry, in order; also app/services/ml_service_simple.py:90 |
| Stats.Max | app/services/ml_service.py:43 | max() of a non-empty list is an element and bounds every element; also the sort key of app/utils/rate_limiter.py:58 |
| Stats.OlsDenominatorPositive | app/services/ml_service.py:38 | two different offsets make n·Σx² − (Σx)² positive |
| Stats.OlsDenominatorZeroIff | app/services/ml_service.py:38-97 | the denominator is 0 iff all offsets are equal |
| Stats.OlsDenominatorOfShift | app/services/ml_service.py:38 | shifting every offset leaves the denominator unchanged |
| Stats.OlsNumeratorOfShift | app/services/ml_service.py:38 | shifting every offset leaves the numerator unchanged |
| Stats.OlsSlopeShiftInvariant | app/services/ml_service.py:38-98 | the slope does not depend on the base date |
| Stats.OlsRecoversLine | app/services/ml_service.py:31-39 | on points exactly on y = a + b·x the computed slope is b and the intercept a |
| Stats.SampleVarianceNonNegative | app/services/ml_service.py:149 | the sample variance is never negative |
| Stats.SampleVarianceZeroIff | app/services/ml_service.py:149 | the sample variance is 0 iff all yields are equal |
| Stats.FlagMatchesZScore | app/services/ml_service.py:156-160 | abs(v − m)/s > 2 iff (v − m)² > 4s² |
| Stats.MeanBetween | app/services/ml_service.py:229 | a mean lies between the smallest and the largest values |
| Stats.FewBeyondTwoDeviations | app/services/ml_service.py:151-160 | fewer than a quarter of the values lie more than two sample deviations from the mean |
| Text.Strip | app/schemas/user_schemas.py:15 | `str.strip` gives a result with whitespace at neither end, no longer than its input |
| Text.StripKeepsCharacters | app/schemas/user_schemas.py:15 | stripping adds no character |
| Text.StripKeepsSolid | app/schemas/user_schemas.py:15 | stripping keeps every non-whitespace character |
| Text.StripIdempotent | app/schemas/user_schemas.py:15 | stripping twice is stripping once |
| Text.StripEmptyIffAllSpace | app/schemas/user_schemas.py:13 | the stripped text is empty iff the text is all whitespace |

## Left out

- Rounding: every `round(x, 2)` is left out, and contracts are over exact reals.
  - In `analyze_cattle_performance` the rounded per-cow means are the sort key (app/services/ml_service.py:118) and feed `media_geral` (app/services/ml_service.py:129), which the herd-advice test `media_geral < 15` reads (app/services/ml_service.py:205). Near a tie, or near 15, the model can order cows differently or give a different herd advice.
- IEEE floating point: yields, prices and margins are exact reals.
- `sqrt`: the anomaly test is decided on squares (`(v − mean)² > 4·variance`).
- MlService.DetectAnomalies: reports the sample variance in place of `desvio_padrao` (its square root), and does not keep the rounded z-score `desvio` of each anomaly.
- The database is left out: queries are sequences passed in. Their filter, `order_by` and `limit` are preconditions or separate query functions. Commit, refresh and rollback are left out.
- Catch-all `except` blocks:
  - MlService keeps only the division-by-zero error path of `predict_milk_production` (records all on one date), because the others catch database failures.
  - RateLimiting.RateLimiter.IsAllowed: does not model "allow on any exception" or "clear the map when cleanup fails", because nothing in the modelled table can raise.
- ProductionRoutes.ProductionTable.CreateProducao: does not model the 400 after a failed commit, a database failure that is not part of this model.
- ProductionRoutes.ProductionTable.UpdateProducao: does not model the 400 after a failed commit.
- Only the null-quantity `TypeError` is modelled, as `AddError`.
- `check_rate_limit` (the 429 wrapper around the module-level limiter) is HTTP glue and is not part of this model.
- `datetime.now()` and `datetime.utcnow()` are the parameters `now` and `today`.
- `secrets.choice` is the parameter `pick` of SecurityConfig.GenerateSecureKey.
- Character classes:
  - `isupper`, `islower` and `isdigit` are ASCII only.
  - Whitespace is Python's `str.isspace` set, which `str.strip` removes.
- Dates are day ordinals:
  - `datetime.fromisoformat` parsing of the report parameters is left out; the parsed bounds are passed beside the raw strings.
  - The ISO formatting of dates in responses is left out.
- ProductionRoutes.ProductionTable.GetProducoes: requires `skip ≥ 0` and `1 ≤ limit ≤ 100`. FastAPI's `Query` checks these before the handler runs and answers 422 otherwise.
- ProductionSchemas.ParseProducaoCreate: a quantity sent explicitly as `null` in a create body is not modelled (pydantic refuses it as a type error).
- Pydantic's type coercion is left out. So is the `email` field with its e-mail validation.
- Reports.RelatorioProducao: the per-cow name lookup uses the cow table given, not a database query per cow.
- The `registros` listing is the filtered record sequence itself, not a list of dictionaries.
- The SECURITY_HEADERS and rate-limit constants of `SecurityConfig` are configuration only; no modelled operation reads them.
- HTTP routing, authentication, dependency injection, logging and the ORM models are not part of this model.

## Findings

| source | as written | input that shows it | evidently intended | confidence | as-written member | corrected member |
|---|---|---|---|---|---|---|
| app/routers/report_routes.py:179 | counts active cows with `v.ativa`, but the `Vaca` model (app/models/cattle_model.py:16) has no `ativa` attribute, only `status`; the complete report raises `AttributeError` whenever the user has a cow | user 7 owning `Vaca(id 1, nome "Mimosa", status "ativa")`, with no records | count the cows whose `status` is `"ativa"` | not executed | Reports.CompleteReportAsWritten, Reports.CompleteReportFailsWithACow | Reports.CompleteReportOf, Reports.CompleteReportCountsActiveCows |
