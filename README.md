# Forkast platform: a verified model of its business rules

Forkast is a restaurant-operations platform. Restaurants pay suppliers through it, and the platform keeps a fee on each payment. A loyalty programme lowers that fee as a restaurant places more paid orders with a supplier. The platform also forecasts a restaurant's daily demand, analyses its inventory and drafts purchase orders, and shows labour, menu and analytics pages.

This project models the rule engines behind those features in Dafny and proves properties of them. The modules follow the repository:

- `Loyalty` (with `Store`): the five-tier ladder and tier resolution. Accounts are keyed by (restaurant, supplier). Tier evaluation counts the succeeded payments of the last 90 days. Payments are recorded in two phases against the transaction log. The module also covers the effective-fee lookup, the batch evaluation and the summary.
- `Payments`: checkout with the tier-dependent fee split, the Stripe webhook that settles or expires a payment, and refunds. The payment status moves pending → processing or failed → succeeded or failed → refunded.
- `Forecast` and `ForecastModel`: the demand forecast engine as a class whose fields training updates. Training computes the means, the weekday and month ratios, the least-squares trend, the per-item weekday means and the holdout accuracy. The engine then produces the single-day predictor, the forecast series, the per-item forecasts, the insights and the model summary.
- `Optimizer` and `Core`: the stock classification, days of cover and derived food cost. The optimizer computes inventory health, reorder recommendations ranked by a stable sort on priority, procurement drafts routed to the best-scoring supplier, and waste metrics.
- `DataOrders`, `DataMenu`, `DataInventory`, `DataPayments`, `ApiKeys` and `Auth`: the data service's order, menu, inventory, payment-report and API-key operations, and request authentication with permission checks.
- `Currency`: conversion from AED and the formatting branches.
- `Labor`, `MenuPage` and `Analytics`: the decision rules embedded in the labour, menu and analytics pages.
- `Common`, `Daily`, `Grouping` and `Sorting`: shared vocabulary. This covers Python's `round`, `int()` and negative slices on exact reals, and day numbers with their weekday and month. It also covers `defaultdict(list)` grouping in first-appearance key order, `max`/`min` with a key, and stable `sorted`.

Stateful code is modelled imperatively:

- The store's tables are objects whose `seq`/`map` fields the service methods reassign.
- The forecast engine is a class.
- Accumulating loops are `while` loops, each proved against a function of its input.

Pure rules are functions, and the properties the code promises are proved as lemmas about them. The clock, fresh uids, random tokens, SHA-256 and Stripe's answers are parameters.

## Model

| member | source | states |
|---|---|---|
| Loyalty.TierNamesDistinct | api/services/loyalty_service.py:16-22 | the five stored tier names are distinct, so a stored name identifies one tier |
| Loyalty.TierIndexFor | api/services/loyalty_service.py:25-31 | the resolved tier is the highest ladder entry whose minimum the count reaches: its minimum is at most the count and every higher entry's minimum exceeds it |
| Loyalty.TierIndexMonotone | api/services/loyalty_service.py:25-31 | more orders in the window never give a lower tier |
| Loyalty.TierIndexIs | api/services/loyalty_service.py:25-31 | a count between a tier's minimum and the next tier's minimum resolves to exactly that tier |
| Loyalty.TierThresholds | api/services/loyalty_service.py:16-31 | 24 orders is standard, 25 bronze, 50 silver, 100 gold, 200 and more platinum (with the boundary counts on both sides) |
| Loyalty.TierFeesComplement | api/services/loyalty_service.py:16-22 | for every tier fee plus discount is the default 15.0, and the fee lies between 8 and 15 |
| Loyalty.TierRank | api/services/loyalty_service.py:115-116 | the position of a tier in the ladder is the index of its own entry |
| Loyalty.NextTierCorrect | api/services/loyalty_service.py:34-41 | the next tier of each ladder entry below the top is the following entry, platinum has none, and a next tier always needs more orders |
| Loyalty.RecentOrdersFacts | api/services/loyalty_service.py:53-63 | the window count is at most the number of payments and grows by exactly one for each added succeeded payment of the pair inside the window |
| Loyalty.NewAccount | api/services/loyalty_service.py:75-85 | a created account belongs to the pair and starts standard with zero counts and spend, discount 0.0 and fee 15.0, consistent with its tier |
| Loyalty.ValidBookFees | api/services/loyalty_service.py:102-105 | in a book whose accounts carry their tier's terms, every account's fee plus discount is 15.0 and its fee is between 8 and 15 |
| Loyalty.TierMove | api/services/loyalty_service.py:109-117 | a move is "stay" iff the tier name is unchanged and "up" iff the new tier sits higher in the ladder |
| Loyalty.EvaluatedFacts | api/services/loyalty_service.py:93-131 | evaluation sets the window count, tier, discount and fee consistently and keeps identity and totals; it logs exactly one entry iff the tier changed, from the old tier to the new with the count, typed upgrade iff the new tier is higher |
| Loyalty.EvaluationSettles | api/services/loyalty_service.py:93-131 | evaluating again with the same count changes nothing and logs nothing |
| Loyalty.GetOrCreateAccount | api/services/loyalty_service.py:66-90 | returns the pair's key, which is then present; an existing account is left as it is, otherwise a new standard account is added; the log is untouched |
| Loyalty.EvaluateTier | api/services/loyalty_service.py:93-131 | the account is replaced by its evaluation at the pair's 90-day count of succeeded payments, the result is true iff the tier changed, and the log gains exactly that change entry |
| Loyalty.PaymentLogFacts | api/services/loyalty_service.py:139-164 | after a payment the account has one more lifetime order and the amount more spent; the payment entry records the pre-call tier as old, the post-evaluation tier and window count, the amount and the discount; at most one tier-change entry follows |
| Loyalty.BookValidUpdate | api/services/loyalty_service.py:102-105 | writing an account that matches its pair and carries its tier's terms keeps the book invariant |
| Loyalty.OverwriteAccount | api/services/loyalty_service.py:139-160 | writing the pair's account twice after get-or-create leaves only the last write |
| Loyalty.PatchEntry | api/services/loyalty_service.py:163-164 | patching the payment entry in place leaves the entries before and after it as they were |
| Loyalty.RecordPayment | api/services/loyalty_service.py:134-165 | the pair's account (created if missing) is credited with one order and the amount and then evaluated; the log gains the patched payment entry followed by any tier-change entry |
| Loyalty.RecordPaymentKeepsBookValid | api/services/loyalty_service.py:139-160 | the account worked on belongs to the pair, its count is the pair's window count, and the book invariant holds afterwards |
| Loyalty.EffectiveFee | api/services/loyalty_service.py:168-185 | 15.0 without a supplier or an account, otherwise the fee of the tier the fresh window count gives; always between 8 and 15 |
| Loyalty.FeeLookupAccounts | api/services/loyalty_service.py:168-185 | a fee lookup never creates or drops an account |
| Loyalty.GetEffectiveFee | api/services/loyalty_service.py:168-185 | returns EffectiveFee; an existing account is re-evaluated (with its change entry logged), a missing one is not created |
| Loyalty.ChangeLogCounts | api/services/loyalty_service.py:216-234 | evaluating the accounts in turn logs one entry per upgrade or downgrade, none of them a payment entry, and upgrades plus downgrades are at most the number of accounts |
| Loyalty.BatchStep | api/services/loyalty_service.py:223-234 | one loop step keeps the set of accounts |
| Loyalty.Batch | api/services/loyalty_service.py:223-234 | the whole loop keeps the set of accounts |
| Loyalty.BatchEvaluatesEach | api/services/loyalty_service.py:223-234 | over distinct keys each listed account ends as its own evaluation from its state before the loop; others are untouched |
| Loyalty.BatchCounts | api/services/loyalty_service.py:219-234 | the counters are the upgrades, the downgrades and the rest, and together grow by the number of accounts |
| Loyalty.BatchLog | api/services/loyalty_service.py:223-234 | the loop appends the accounts' tier-change entries in turn |
| Loyalty.EvaluateAndClassify | api/services/loyalty_service.py:224-232 | one account is evaluated and its move (up, down, stay) is reported against its old tier |
| Loyalty.EvaluateAndCount | api/services/loyalty_service.py:223-234 | one loop iteration equals the batch step on accounts, log and counters |
| Loyalty.EvaluateAllAccounts | api/services/loyalty_service.py:216-241 | upgrades + downgrades + unchanged == total accounts; the counts are those of the accounts' moves; every account is evaluated once and the log gains their change entries |
| Loyalty.ViewOf | api/services/loyalty_service.py:253-287 | the next tier and the orders to it exist iff the account is below platinum, and the orders to it are max(0, next minimum − 90-day count) |
| Loyalty.Bump | api/services/loyalty_service.py:268-269 | setdefault-then-increment adds one to the tier's count (from 0) and changes no other tier |
| Loyalty.TierTallyIsCount | api/services/loyalty_service.py:268-269 | a tier is in the tally iff some listed account is in it, with the number of such accounts |
| Loyalty.TierTallyCounts | api/services/loyalty_service.py:250-269 | a tier appears in active_tiers exactly when some listed account is in it, mapped to the number of listed accounts in it |
| Loyalty.Views | api/services/loyalty_service.py:253-287 | one enriched view per listed account, in order |
| Loyalty.ScanStep | api/services/loyalty_service.py:253-287 | one iteration extends the views, the tally and the savings by the next account |
| Loyalty.ScanAccounts | api/services/loyalty_service.py:249-287 | the loop yields the views, the per-tier tally and the summed discount savings of the listed accounts |
| Loyalty.GetLoyaltySummary | api/services/loyalty_service.py:244-301 | account count and views per listed account, tier tally, the rounded savings, lifetime orders and spend, and an average discount that is 0 with no accounts |
| Payments.SplitFeeFacts | api/routers/payments.py:36-40 | the total charged is exactly the supplier share plus the fee, each within half a cent of its unrounded value (supplier amount of the request, fee percentage of the supplier share) |
| Payments.SplitFeeNonnegative | api/routers/payments.py:36-40 | for a non-negative amount and percentage the supplier share and the fee are non-negative and the total is at least the supplier share |
| Payments.DiscountSavedFacts | api/routers/payments.py:104-107 | the discount recorded on settlement is 0 at the default 15% fee and non-negative at any lower (loyalty) fee |
| Payments.PendingPayment | api/routers/payments.py:42-53 | the row inserted before Stripe is called is pending and stores the total charged, the supplier share and the fee of the split |
| Payments.CreateCheckout | api/routers/payments.py:19-78 | without Stripe: 503 and nothing changes; otherwise the loyalty fee lookup's effect on the accounts and log, one payment appended that is failed (answer 502) when Stripe gives no session, or processing with the session id (answer the payment) |
| Payments.SettleSession | api/routers/payments.py:92-110 | the session's payment becomes succeeded with Stripe's intent and receipt; a payment with a supplier is recorded with the loyalty engine with the discount saved against the default fee, one without a supplier changes no loyalty state |
| Payments.StripeWebhook | api/routers/payments.py:81-118 | answer 400 iff the signature is bad, otherwise always "received"; bad signature, other event types and unknown sessions change nothing; an expired session marks its payment failed; a completed one settles it whatever its prior status |
| Payments.RefundPayment | api/routers/payments.py:165-196 | guards in order: unknown uid 404, not succeeded 400, no payment intent 400, Stripe refusal 502, each leaving the payments unchanged; success iff all guards pass, and then the payment alone becomes refunded with refund amount equal to its amount |
| ForecastModel.SlopeDenZeroIffSingleDay | forecasting/demand_engine.py:78-82 | the regression denominator is zero exactly when the history has a single day, the only case the slope falls back to 0 |
| ForecastModel.SlopeDenMonotone | forecasting/demand_engine.py:81 | the sum of squared deviations is non-negative and grows with the number of days |
| ForecastModel.SlopeNumOfLine | forecasting/demand_engine.py:80 | for covers on a line of slope b the numerator is b times the denominator |
| ForecastModel.SumOfLine | forecasting/demand_engine.py:55 | the total of linearly growing covers a + b·i over k days is k·a + b·k(k-1)/2 |
| ForecastModel.SlopeOfLine | forecasting/demand_engine.py:77-82 | on covers that lie exactly on a line over two or more days the fitted trend slope is that line's slope |
| ForecastModel.PatternOf | forecasting/demand_engine.py:59-75 | a pattern has a key exactly for the weekdays (or months) that occur, and each ratio times the base is the mean covers of that key's rows |
| ForecastModel.Slope | forecasting/demand_engine.py:77-82 | a single day of history gives slope 0 |
| ForecastModel.SumOfConstant | forecasting/demand_engine.py:55 | the total of n equal covers c is n·c |
| ForecastModel.ValuesForConstant | forecasting/demand_engine.py:60-63 | with equal covers every day, every weekday or month group holds only that value |
| ForecastModel.MeanOfConstant | forecasting/demand_engine.py:66 | the mean of a non-empty list of equal values is that value |
| ForecastModel.ConstantPattern | forecasting/demand_engine.py:65-75 | with the same non-zero covers every day every pattern ratio is 1 |
| ForecastModel.ConstantHistory | forecasting/demand_engine.py:50-82 | a constant non-zero history trains a base equal to that constant, a zero slope and weekday and month ratios of 1 |
| ForecastModel.PredictSingle | forecasting/demand_engine.py:130-169 | the forecast carries the target date and its weekday name, the truncated product of trend and factors as its covers, and a non-negative lower bound |
| ForecastModel.ChannelSharesSumToOne | forecasting/demand_engine.py:152-157 | every channel table (Fri/Sat, Thu, other days) splits the covers completely, dine-in > delivery > takeaway > 0 |
| ForecastModel.UnseenFactorsAreNeutral | forecasting/demand_engine.py:136-141 | an untrained weekday and month contribute factor 1.0, leaving the truncated trend value |
| ForecastModel.PredictionBand | forecasting/demand_engine.py:143-146 | for a non-negative base and prediction, 0 <= lower <= predicted <= upper |
| ForecastModel.NegativeForecastExample | forecasting/demand_engine.py:136-146 | nothing clamps the prediction: a concrete two-day history yields -25 covers and an upper bound below the lower bound |
| ForecastModel.HoldoutNonEmpty | forecasting/demand_engine.py:106-111 | int(n·0.8) is 4n div 5 and below n, so the holdout is never empty for a non-empty history |
| ForecastModel.HoldoutErrorNonNegative | forecasting/demand_engine.py:119-120 | a holdout row yields at most one relative error, which is non-negative |
| ForecastModel.HoldoutErrorsNonNegative | forecasting/demand_engine.py:113-120 | the holdout yields at most one non-negative relative error per row |
| ForecastModel.RoundedComplement | forecasting/demand_engine.py:124-125 | the rounded MAPE and rounded accuracy of an error mean add up to 100 within 0.01 and the MAPE is non-negative |
| ForecastModel.MetricsComplement | forecasting/demand_engine.py:122-128 | recorded metrics: MAPE + accuracy within 0.01 of 100, MAPE non-negative |
| ForecastModel.HoldoutErrorsEmptyIff | forecasting/demand_engine.py:113-120 | the holdout yields no relative error exactly when none of its rows has positive covers |
| ForecastModel.AccuracyOf | forecasting/demand_engine.py:104-128 | no metrics exactly when no holdout row has positive covers; otherwise the holdout is the rows from int(n·0.8) on, non-empty, the sample count is n, MAPE + accuracy is within 0.01 of 100 and MAPE >= 0 |
| ForecastModel.CollectItemsAt | forecasting/demand_engine.py:85-91 | an item is in the table iff it was ever ordered, a weekday under it iff ordered on that weekday, and there the quantities in order |
| ForecastModel.CollectItemsCorrect | forecasting/demand_engine.py:85-91 | the same three facts for every item and weekday at once |
| ForecastModel.ItemQuantity | forecasting/demand_engine.py:217-223 | an item forecast quantity is never negative and is 0 for a weekday the item was never ordered on |
| ForecastModel.FlatTrendItemQuantity | forecasting/demand_engine.py:221-223 | with a flat trend the quantity is the weekday mean truncated |
| Forecast.AppendNewCorrect | forecasting/demand_engine.py:65-66 | updating a dict keeps its existing key order and appends the new keys once each, so keys stay distinct |
| Forecast.WeekdayKeysInRange | forecasting/demand_engine.py:62 | every weekday key of a history is in 0..6 |
| Forecast.MergePatterns | forecasting/demand_engine.py:65-66 | the ratio loop overwrites exactly the grouped keys with mean / base, keeping the others, and extends the key order |
| Forecast.PatternsFrom | forecasting/demand_engine.py:59-75 | one grouping plus ratio pass yields the old patterns updated by the pattern function of the history |
| Forecast.PatternsStayKeyed | forecasting/demand_engine.py:59-66 | training keeps the weekday pattern keys distinct weekday numbers in insertion order, and non-empty after a non-empty history |
| Forecast.CollectItemTable | forecasting/demand_engine.py:85-91 | the nested loop over days and item orders builds exactly the collected per-item weekday quantity table |
| Forecast.AverageRow | forecasting/demand_engine.py:95-97 | every weekday list of one item is replaced by its mean and no key is added or lost |
| Forecast.AverageItemTable | forecasting/demand_engine.py:93-97 | every item's weekday lists are replaced by their means, keys unchanged |
| Forecast.ComputeAccuracy | forecasting/demand_engine.py:104-128 | the accuracy loop returns the metrics of the holdout errors, or none when no holdout row has positive covers |
| Forecast.FitValues | forecasting/demand_engine.py:59-100 | the fitted weekday and month patterns, slope, item averages and accuracy are exactly the model functions of the history |
| Forecast.ItemForecastFor | forecasting/demand_engine.py:213-229 | day i of an item series is dated today + i and has a non-negative quantity |
| Forecast.ItemSeries | forecasting/demand_engine.py:212-231 | one item's series has max(0, days_ahead) entries, the i-th forecasting day i + 1 |
| Forecast.ItemForecasts | forecasting/demand_engine.py:208-233 | one series per tracked item, each of max(0, days_ahead) entries given by the per-day forecast |
| Forecast.DayInsights | forecasting/demand_engine.py:242-260 | always two insights first: the peak-day demand insight then the slowest-day labor insight |
| Forecast.InsightsPeakAndSlow | forecasting/demand_engine.py:235-260 | insights fail only for a non-zero trend over a zero base; otherwise the first quotes the highest weekday ratio and the second the lowest |
| Forecast.TrendKinds | forecasting/demand_engine.py:262-278 | a growth insight appears iff the slope is positive, a risk insight iff negative, none for a flat trend |
| Forecast.ChannelAndWasteKinds | forecasting/demand_engine.py:280-302 | the channel insight appears iff the recent delivery share exceeds 30%, the waste insight iff waste per cover exceeds 0.10 kg |
| Forecast.InsightsOptional | forecasting/demand_engine.py:235-304 | on a trained engine the insights always succeed and each optional kind is present exactly when its threshold is crossed |
| Forecast.InsightsFor | forecasting/demand_engine.py:235-304 | fails with division by zero exactly for a non-zero trend over a zero base; otherwise two to five insights, demand (peak day) first and labour (slowest day) second |
| Forecast.DirectionOf | forecasting/demand_engine.py:314 | trend direction is up, down or flat exactly as the slope is positive, negative or zero |
| Forecast.PatternRowsCorrect | forecasting/demand_engine.py:317-320 | the summary lists day patterns in ascending weekday order, once each, with short day name and the ratio to three decimals |
| Forecast.SummaryFor | forecasting/demand_engine.py:306-322 | the summary reports the trained flag, sample count, stored accuracy, trend direction and number of tracked items |
| Forecast.DemandForecastEngine.constructor | forecasting/demand_engine.py:25-35 | a fresh engine is untrained with empty history, patterns and accuracy and zero means and slope |
| Forecast.DemandForecastEngine.StoreMeans | forecasting/demand_engine.py:47-57 | the history and the three means are stored, nothing else changes |
| Forecast.DemandForecastEngine.StoreFit | forecasting/demand_engine.py:59-102 | the fitted values are stored, the accuracy only when computed, and the engine becomes trained |
| Forecast.DemandForecastEngine.Train | forecasting/demand_engine.py:37-102 | empty history fails unchanged; all-zero covers store the means then fail on division by zero; otherwise every field becomes its model function of the history and the engine is trained |
| Forecast.DemandForecastEngine.Forecast | forecasting/demand_engine.py:171-193 | fails iff untrained; otherwise max(0, days_ahead) forecasts, the i-th for today + i + 1 at i + 1 days past the history |
| Forecast.DemandForecastEngine.ForecastItems | forecasting/demand_engine.py:195-233 | fails when untrained, or on a zero base with items and at least one day; otherwise one series per tracked item |
| Forecast.DemandForecastEngine.GetInsights | forecasting/demand_engine.py:235-260 | no insights before training; after it at least the peak-day then the slowest-day insight, and no error when the base allows the trend ratio |
| Forecast.DemandForecastEngine.GetModelSummary | forecasting/demand_engine.py:306-322 | the summary reports the engine's trained flag, sample count, accuracy, trend direction and item count, and at most seven day-pattern entries, each a trained weekday's short name and ratio to three decimals |
| Optimizer.CategoryStep | inventory/optimizer.py:34-40 | one more item adds to its own category's count, stock value and summed wastage and to no other |
| Optimizer.CatCountZero | inventory/optimizer.py:41-44 | a category without items has zero value and zero wastage |
| Optimizer.AnalyzeInventory | inventory/optimizer.py:26-65 | item count, rounded stock value, the status counts and name lists, the above-8% waste count, one row per category present, the guarded average wastage and the health score penalising out-of-stock, low, overstocked and above-10% items |
| Optimizer.StatusCountsPartition | inventory/optimizer.py:28-30 | each item has one stock status, so the out, low, overstocked and normal counts add up to the item count |
| Optimizer.HealthScore | inventory/optimizer.py:46-51 | the health score lies in 0..100 and is 100 exactly when nothing is penalised |
| Optimizer.StatusNamesCount | inventory/optimizer.py:56-61 | the listed low and out-of-stock names are exactly as many as the corresponding counts |
| Optimizer.CategoryCountsSum | inventory/optimizer.py:33-40 | the by-category counts add up to the number of items |
| Optimizer.PriorityFor | inventory/optimizer.py:75-82 | critical iff out of stock, high iff low, medium iff neither but running out within the horizon, low otherwise |
| Optimizer.GenerateReorderRecommendations | inventory/optimizer.py:67-100 | the recommendations are the candidates stably sorted by priority rank |
| Optimizer.RecommendationFor | inventory/optimizer.py:69-92 | the recommendation is for that item with its priority, and its quantity is at least the rounded minimum stock and the rounded shortfall |
| Optimizer.CandidatesExactly | inventory/optimizer.py:69-96 | a recommendation is made exactly for the items whose order quantity is positive, at most one per item |
| Optimizer.ReorderRanking | inventory/optimizer.py:98-99 | the result is a permutation of the candidates ordered critical, high, medium, low, equal priorities keeping inventory order |
| Optimizer.BestSupplier | inventory/optimizer.py:107-115 | the supplier loop keeps the first eligible supplier with the strictly highest score, as BestOf specifies |
| Optimizer.BestOfCorrect | inventory/optimizer.py:107-116 | the chosen supplier is active, serves the category, scores above -1 and at least as high as every eligible supplier, no earlier eligible one scoring as high; none exactly when no eligible supplier scores above -1 |
| Optimizer.BestOf | inventory/optimizer.py:107-116 | a chosen supplier is one of the suppliers, active, serves the category and scores above -1 |
| Optimizer.FindGroup | inventory/optimizer.py:117 | a found group carries the uid looked for; when none is found no group has it |
| Optimizer.Lines | inventory/optimizer.py:127-134 | one order line per recommendation, in order |
| Optimizer.GroupBySupplier | inventory/optimizer.py:103-119 | the routing loop builds exactly the supplier groups of the urgent recommendations |
| Optimizer.BuildOrder | inventory/optimizer.py:121-144 | one supplier's lines and total make exactly that group's draft order |
| Optimizer.GenerateProcurementDraft | inventory/optimizer.py:102-145 | one draft order per supplier group, in group order |
| Optimizer.AllItemsAppend | inventory/optimizer.py:117-119 | a new group adds its recommendations after those already grouped |
| Optimizer.AllItemsAppendAt | inventory/optimizer.py:119 | appending a recommendation to a group adds it once to the grouped recommendations |
| Optimizer.AppendAtWellFormed | inventory/optimizer.py:119 | appending a routed recommendation to its supplier's group keeps the groups well formed |
| Optimizer.NewGroupWellFormed | inventory/optimizer.py:117-119 | opening a group for a supplier not yet grouped keeps the groups well formed |
| Optimizer.AddToGroupsWellFormed | inventory/optimizer.py:116-119 | routing one recommendation keeps the groups well formed and adds it exactly once |
| Optimizer.GroupsOfCorrect | inventory/optimizer.py:103-119 | draft groups have distinct suppliers, hold only recommendations routed to them, and together every urgent routed recommendation exactly once |
| Optimizer.ProcurementDraftFacts | inventory/optimizer.py:102-145 | every draft is an auto-generated draft to a distinct supplier, one line per routed recommendation, total the rounded sum of estimated costs; every routed recommendation is in exactly one draft |
| Optimizer.WasteByCategory | inventory/optimizer.py:164-176 | one mean wastage per category present, rounded to one decimal |
| Optimizer.CalculateWasteMetrics | inventory/optimizer.py:147-177 | none for an empty inventory; otherwise the monthly waste cost, the 40% savings, the average wastage, the high-waste rows sorted by cost and the per-category means |
| Optimizer.HighWasteRowsCount | inventory/optimizer.py:155-161 | the high-waste rows are as many as the items above 8% wastage and each is above 8% |
| Optimizer.WasteMetricsFacts | inventory/optimizer.py:152-175 | the reported rows are a permutation of the above-8% items ordered by waste cost, and the savings lie between 0 and the monthly cost |
| Optimizer.WasteRowsOrdered | inventory/optimizer.py:162 | sorting by waste cost reversed is a permutation into non-increasing cost order |
| Optimizer.SavingsBound | inventory/optimizer.py:172-175 | for a non-negative waste cost the savings estimate lies between 0 and the monthly cost |
| Core.StockStatusOf | models/core.py:162-170 | exactly one status, each stated as an iff over the stock and thresholds in the code's test order: out_of_stock iff stock ≤ 0, low iff 0 < stock ≤ reorder point, overstocked iff above both and ≥ 0.9·max, normal otherwise; never low or overstocked at a non-positive stock |
| Core.DaysRemaining | models/core.py:172-176 | infinite (None) iff there is no positive daily usage; otherwise days × usage equals the stock, non-negative for a non-negative stock |
| Core.NewMenuItem | models/core.py:126-128 | with a positive price, food_cost_pct·price == cost·100; otherwise the given food_cost_pct is kept; every other field is as given |
| Currency.Currencies | web/utils/currency.py:8-12 | exactly AED, USD and KWD are known, each with a positive rate |
| Currency.GetCurrency | web/utils/currency.py:15-17 | the session's selection, AED when there is none |
| Currency.SymbolPrefix | web/utils/currency.py:50-52 | nothing without the symbol; "$" directly before the number; any other symbol followed by a space |
| Currency.Convert | web/utils/currency.py:25-28 | the AED rate returns the amount unchanged; a positive rate keeps the sign of the amount and zero |
| Currency.Fmt | web/utils/currency.py:31-52 | the symbol prefix as SymbolPrefix says; compact and ≥ 1e6 in magnitude: M suffix, mantissa times 1e6 is the converted amount, magnitude ≥ 1, exactly min(dec, 1) decimals; compact and 1e4 ≤ magnitude < 1e6: K suffix, mantissa times 1e3 is the converted amount, in [10, 1000) in magnitude, exactly min(dec, 1) decimals; otherwise the converted amount with the currency's decimals |
| Currency.FmtRate | web/utils/currency.py:55-66 | never compacts: the same number and symbol prefix as non-compact Fmt, followed by the suffix |
| Currency.AedIsIdentity | web/utils/currency.py:15-28 | the default currency is AED, and converting to AED (rate 1.0) returns the amount unchanged |
| Currency.ConvertMonotone | web/utils/currency.py:25-28 | conversion to any known currency preserves order and non-negativity |
| DataOrders.LineRowOf | api/services/data_service.py:37-46 | a stored line keeps the request's quantity and unit price and has total price quantity × unit price |
| DataOrders.LineRows | api/services/data_service.py:37-46 | one stored line per request line, in order |
| DataOrders.OrderTotalIsLineSum | api/services/data_service.py:24-44 | the order's total_amount equals the sum of its stored lines' total prices |
| DataOrders.NewOrderDefaults | api/services/data_service.py:26-33 | a missing channel is dine_in, missing covers is 1, and an order without items totals 0 |
| DataOrders.CreateOrder | api/services/data_service.py:22-50 | exactly one order row is appended, with total equal to the sum of its line totals, and one line row per request line is appended |
| DataOrders.MatchingNewestFirstFacts | api/services/data_service.py:61-70 | the sorted matches are as many as the matching orders, all match the filters, and are ordered by date descending |
| DataOrders.GetOrders | api/services/data_service.py:53-71 | the total is the count of matching orders before offset and limit; the page has exactly min(limit, total − offset) orders (none past the end), or every order from offset on when the limit is negative (SQLite's no-limit), all matching, newest first, the sorted matches from offset on |
| DataMenu.Overwritten | api/services/data_service.py:87-93 | an upserted existing row keeps its uid, restaurant and creation time, takes the item's fields, and has food cost cost/price·100 when the price is positive, its old value otherwise |
| DataMenu.Created | api/services/data_service.py:95-107 | a new row has food cost cost/price·100 when the price is positive and 0 otherwise |
| DataMenu.SyncSpec | api/services/data_service.py:79-112 | a sync never removes rows and yields exactly one result per request item |
| DataMenu.SyncStep | api/services/data_service.py:81-107 | each further item appends one result, the item's committed target or the next new row, and never shrinks the table |
| DataMenu.SyncLanding | api/services/data_service.py:82-107 | each item lands in its committed (restaurant, name) match when there is one, otherwise in a new row past the committed ones |
| DataMenu.SyncKeepsIdentity | api/services/data_service.py:87-91 | the committed rows keep their uid, restaurant and name |
| DataMenu.SyncLandedRows | api/services/data_service.py:79-112 | every row an item landed in belongs to the restaurant and has its food cost derived from its positive price |
| DataMenu.SyncUntouched | api/services/data_service.py:79-112 | a row that no item landed in is a committed row left unchanged |
| DataMenu.SyncMenu | api/services/data_service.py:79-112 | the loop produces exactly the table and result list of SyncSpec over the committed table |
| DataMenu.PatchedFacts | api/services/data_service.py:125-130 | a given field is set and a missing (None) one kept; identity, popularity and daily orders never change; food cost is cost/price·100 when the price is positive and kept otherwise |
| DataMenu.UpdateMenuItem | api/services/data_service.py:121-133 | an unknown uid returns None and changes nothing; otherwise the first row with the uid is replaced by its patched version, which is returned |
| DataInventory.StockTarget | api/services/data_service.py:142-150 | a matched item belongs to the restaurant and has the row's uid when one is given, else the row's name; a row with neither matches nothing |
| DataInventory.BatchSpec | api/services/data_service.py:137-162 | the batch neither adds nor removes inventory rows |
| DataInventory.BatchKeepsIdentity | api/services/data_service.py:152-156 | updated items keep their uid, name and restaurant |
| DataInventory.SameTarget | api/services/data_service.py:142-150 | the match of a request row depends only on uid, name and restaurant, so earlier updates never change later matches |
| DataInventory.LastMatch | api/services/data_service.py:141-157 | the last request row matching an item: it matches, and no later row does (none when no row matches) |
| DataInventory.BatchFacts | api/services/data_service.py:137-162 | at most one result per request row, each a matched item of the restaurant; an item some row matched is its old row with the last such row's new stock, the unit of the last matching row that gives one (its own unit when none does) and the update time, every other field unchanged; an unmatched item is unchanged |
| DataInventory.BatchUpdateInventory | api/services/data_service.py:137-162 | the loop produces exactly the table and result list of BatchSpec |
| DataPayments.StatusPartition | api/services/data_service.py:242-245 | every payment has exactly one of the five statuses: the five status counts add up to the number of payments |
| DataPayments.GetPaymentStats | api/services/data_service.py:231-246 | the four reported counts plus the processing payments (which no count covers) are the payments in scope, so the counts sum to at most that number, with equality iff none is processing |
| DataPayments.CheckoutPaymentSplitConsistent | api/routers/payments.py:37-50 | every payment checkout creation inserts charges exactly the supplier amount plus the fee |
| DataPayments.ProcessedIsRevenuePlusPayouts | api/services/data_service.py:237-241 | over split-consistent payments the processed total equals the fee revenue plus the supplier payouts |
| DataPayments.Accrue | api/services/data_service.py:264-265 | setdefault then += adds the fee to that status's entry (from 0.0) and leaves every other status's entry alone |
| DataPayments.ByStatusKeys | api/services/data_service.py:262-265 | the breakdown has an entry exactly for the statuses that occur |
| DataPayments.ByStatusEntry | api/services/data_service.py:262-265 | each status's entry is the fee summed over the payments of that status |
| DataPayments.ByStatusTotal | api/services/data_service.py:257-265 | before rounding, the breakdown's entries sum to the total fee of all payments |
| DataPayments.RecentList | api/services/data_service.py:268-282 | one recent entry per payment, in order, each the payment's reported fields |
| DataPayments.AccrueByStatus | api/services/data_service.py:262-265 | the loop computes the status breakdown ByStatus |
| DataPayments.RecentEntries | api/services/data_service.py:268-282 | the loop over payments[:50] builds the recent list of the first 50 payments |
| DataPayments.GetRevenueStats | api/services/data_service.py:249-293 | the report equals the revenue statistics of the payments in scope, newest first |
| DataPayments.NewestFirstStatuses | api/services/data_service.py:251-254 | ordering by creation time neither adds nor loses a status |
| DataPayments.RevenueStatsOf | api/services/data_service.py:249-293 | the transaction count is every payment in scope whatever its status, the average is 0 with no payments, the average fee is the literal 15.0, and the recent list has min(50, n) entries |
| DataPayments.RevenueByStatusKeys | api/services/data_service.py:262-265 | the fee breakdown has an entry exactly for each status that occurs among the payments in scope |
| DataPayments.RevenueStatsRecent | api/services/data_service.py:268-282 | the recent list holds min(50, n) entries, the newest payments in order, with non-increasing creation times |
| DataPayments.NewestFirstSum | api/services/data_service.py:254-258 | sorting the payments changes no total |
| DataPayments.RevenueByStatusAgrees | api/services/data_service.py:256-265 | before rounding, the per-status entries sum to the fee revenue of all payments in scope, and the succeeded entry equals the fee revenue of the payment statistics |
| ApiKeys.MaxId | api/models/db_models.py:216 | the largest id in the table: no row's id exceeds it and some row has it (0 for an empty table), so the autoincrement id of a new key is fresh |
| ApiKeys.KeyTable.constructor | api/models/db_models.py:213-225 | an empty key table, with unique hashes and ids |
| ApiKeys.DisplayPrefix | api/services/data_service.py:305 | the stored prefix is min(12, n) characters of the key followed by "...", and those characters are a prefix of the key |
| ApiKeys.PermissionsOrDefault | api/services/data_service.py:312 | given non-empty permissions are kept; None or an empty list gives pos:read and pos:write |
| ApiKeys.NewKey | api/services/data_service.py:303-313 | the new row stores the hash of the issued key (not the key), is active with no use yet, and has an id above every existing one |
| ApiKeys.IssuedPrefix | api/services/data_service.py:303-305 | the stored prefix is at most 15 characters, starts with fk-pos-, and for tokens of 5 or more characters is exactly the key's first 12 characters plus "..." |
| ApiKeys.CreateApiKey | api/services/data_service.py:297-317 | a hash already stored violates the unique constraint, fails and inserts nothing; otherwise exactly the new row is appended and returned with the plaintext key; hashes and ids stay unique |
| ApiKeys.RevokeApiKey | api/services/data_service.py:324-330 | returns true iff some key has the id; then the first such key alone is deactivated and stays in the table, otherwise nothing changes |
| Auth.ActiveKeyFor | api/auth.py:42-46 | a found row is active and has the presented key's hash; when none is found, no active row has that hash |
| Auth.VerifyApiKey | api/auth.py:22-56 | a missing or empty key gives 401; the configured admin key (a parameter) gives the admin record with all five permissions and no table change; another key with no active hash match gives 401; a match has its request count raised by exactly one and its last use set, and nothing else changes |
| Auth.RequirePermission | api/auth.py:59-70 | the checker passes the key through unchanged or fails with 403 |
| Auth.RequirePermissionIff | api/auth.py:61-69 | a key passes exactly when it holds admin or the required permission |
| Auth.AdminPassesEverything | api/auth.py:31-39 | the admin record passes every permission check |
| Auth.IssuedKeyIsAdminIff | api/auth.py:31 | an issued key equals the configured admin key exactly when that key starts with fk-pos- and the token is the rest of it |
| Auth.IssuedKeyIsNotDefaultAdmin | api/auth.py:31 | with the default admin key an issued key is never the admin key and is never empty |
| Auth.IssuedKeyAuthenticates | api/auth.py:42-49 | a key just created authenticates as the row that was added |
| Auth.RevokedKeyRejected | api/auth.py:42-49 | with unique hashes, a revoked key no longer finds an active row, so it is rejected with 401 |
| Auth.DefaultKeyPermissions | api/auth.py:61-69 | a key created with the default permissions passes pos:read and pos:write and gets 403 for payments:read and payments:write |
| Labor.MaskedComplement | web/pages/labor_page.py:326-329 | a quantity summed over peak shifts plus its sum over off-peak shifts is its sum over the schedule |
| Labor.StaffCount | web/pages/labor_page.py:28 | the distinct-staff count is 0 exactly for an empty schedule |
| Labor.PeakDayCount | web/pages/labor_page.py:29 | the peak-day count is 0 exactly when no shift is a peak shift |
| Labor.Kpis | web/pages/labor_page.py:26-30 | total hours and cost are the sums over the shifts; the distinct-staff count is 0 only for an empty schedule and the peak-day count 0 only without peak shifts; the average cost per hour is 0 without hours and otherwise the total cost per hour |
| Labor.NonPeakHours | web/pages/labor_page.py:326-329 | total minus peak hours equals the hours of the non-peak shifts |
| Labor.PeakSplitBounds | web/pages/labor_page.py:326-329 | with no negative shift the peak and non-peak hours both lie in [0, total] |
| Labor.CostBounds | web/pages/labor_page.py:26-27 | with hourly rates in [lo, hi] the total cost lies between lo and hi times the total hours |
| Labor.AvgCostPerHourBounds | web/pages/labor_page.py:26-30 | the average cost per hour is 0 without hours and otherwise lies within the range of the hourly rates |
| Labor.RateMeanBounds | web/pages/labor_page.py:26-30 | with hourly rates in [lo, hi] and positive total hours, the total cost divided by the total hours lies in [lo, hi] |
| Labor.LoadsPerDay | web/pages/labor_page.py:357-362 | each weekday's totals are the hours, cost and number of the shifts on that weekday; an absent weekday reads as zeros |
| Labor.AccumulateByDay | web/pages/labor_page.py:357-362 | the by-weekday accumulation loop builds exactly the per-weekday totals |
| Labor.IdealStaff | web/pages/labor_page.py:439 | the recommended head count is max(4, covers // 12): exactly 4 below 48 covers and covers // 12 from 48 covers up |
| Labor.StaffingOf | web/pages/labor_page.py:441-447 | a day is optimal iff staff is within one of ideal, overstaffed iff more than one above, understaffed iff more than one below |
| Labor.JudgementPartition | web/pages/labor_page.py:436-479 | every judged day is counted in exactly one of the three classes |
| Labor.OptScoreBounds | web/pages/labor_page.py:483-484 | the optimisation score lies in 0..100, is 100 when every day is optimal and 0 when none is |
| Labor.CountJudgements | web/pages/labor_page.py:432-479 | the recommendation loop's three counters are the numbers of optimal, overstaffed and understaffed days |
| Labor.JudgeWeek | web/pages/labor_page.py:350-484 | against the first seven forecasts the three counts add up to min(7, forecasts) and the score is their optimal percentage, in 0..100 |
| MenuPage.ItemNames | web/pages/menu_page.py:190-197 | the listed names are the items' names, one per item, in menu order |
| MenuPage.SumOfBounds | web/pages/menu_page.py:24-27 | with every value in [lo, hi] the sum over n items lies in [n·lo, n·hi] |
| MenuPage.GuardedMeanBounds | web/pages/menu_page.py:24-27 | a KPI average is 0 on an empty menu and otherwise lies within its values' bounds |
| MenuPage.MenuKpisFacts | web/pages/menu_page.py:22-32 | the KPI cards: item count, zero averages and no stars on an empty menu, averages within the items' range otherwise, stars at most the menu |
| MenuPage.StarsCount | web/pages/menu_page.py:27-32 | the stars KPI is at most the menu size and on a non-empty menu equals the number of stars in the matrix |
| MenuPage.QuadrantOf | web/pages/menu_page.py:190-197 | star, plowhorse, puzzle and dog are exactly the four combinations of popularity and margin at-or-above versus below average |
| MenuPage.QuadrantStep | web/pages/menu_page.py:181-197 | one more item extends exactly its own quadrant's list by its name |
| MenuPage.MatrixStep | web/pages/menu_page.py:181-197 | the matrix of one more item is the old matrix with that item placed |
| MenuPage.PlaceAll | web/pages/menu_page.py:178-197 | the classification loop builds exactly the four quadrant name lists of the menu |
| MenuPage.EngineeringMatrix | web/pages/menu_page.py:175-197 | the matrix is computed against the menu's average popularity and margin, dividing by the menu length |
| MenuPage.QuadrantCounts | web/pages/menu_page.py:190-197 | every item satisfies exactly one quadrant's rule |
| MenuPage.MatrixPartition | web/pages/menu_page.py:178-197 | the four lists together are exactly as long as the menu |
| MenuPage.CountSameRule | web/pages/menu_page.py:29-32 | the stars KPI rule counts the same items as the star quadrant |
| MenuPage.RecommendationRules | web/pages/menu_page.py:331-366 | a high-cost item is critical iff its food cost is above 45%; a low-popularity item is medium iff its margin is above 20 and critical otherwise |
| MenuPage.SameAsPlowhorses | web/pages/menu_page.py:378-381 | the pricing-opportunity filter selects the same items, in order, as the plowhorse rule |
| MenuPage.HighCost | web/pages/menu_page.py:331 | the high-cost list holds exactly the menu items above 35% food cost |
| MenuPage.LowPopularity | web/pages/menu_page.py:351 | the low-popularity list holds exactly the active menu items with popularity below 0.65 |
| MenuPage.PricingOpportunities | web/pages/menu_page.py:376-381 | the pricing opportunities are menu items whose names are exactly the matrix's plowhorses, in menu order |
| MenuPage.BelowPrefix | web/pages/menu_page.py:410 | in a list sorted by descending profit, an element outside the first n earns no more than the n-th |
| MenuPage.SortedPrefix | web/pages/menu_page.py:410 | every element left out of the first n of such a list earns no more than the last one kept |
| MenuPage.PrefixSubmultiset | web/pages/menu_page.py:410 | a prefix of a list takes each element at most as often as the list |
| MenuPage.TopPerformers | web/pages/menu_page.py:410 | min(5, n) items, largest daily profit first, drawn from the menu, and no item left out earns more than the last shown |
| Analytics.SumOfIsSumOfSeries | web/pages/analytics_page.py:37-45 | summing a field over the rows equals summing its series |
| Analytics.MovingAverage7 | web/pages/analytics_page.py:87 | one point per value; point i is the mean of the min(7, i + 1) values ending at i, the last seven from i = 6, and the first point is the first value |
| Analytics.MovingAverageBounds | web/pages/analytics_page.py:87 | every moving-average point lies within the values' bounds |
| Analytics.Delta | web/pages/analytics_page.py:39 | 0 without a positive previous value; otherwise the percentage change (previous plus delta percent gives the current value), non-negative iff no fall, zero iff equal |
| Analytics.OperationsKpisOf | web/pages/analytics_page.py:35-45 | each delta is the percentage change from the previous week's mean to the last week's, 0 without a positive previous mean, and all previous values and deltas are 0 up to seven rows |
| Analytics.WindowOfLast | web/pages/analytics_page.py:87 | from seven values on, the last moving-average window is the last seven values |
| Analytics.WeekWindows | web/pages/analytics_page.py:35-43 | the previous week holds max(0, n-7) - max(0, n-14) rows; from fourteen rows the two weeks are adjacent and the two covers KPIs are the means of the last week and of the week before |
| Analytics.KpiIsLastTrendPoint | web/pages/analytics_page.py:37-87 | with a week of rows the 7-day covers KPI equals the last point of the covers moving average |
| Analytics.PreviousPeriod | web/pages/analytics_page.py:165-171 | from sixty rows the previous period is the thirty rows just before the last thirty; below that it is the first thirty rows, the whole history at thirty or fewer |
| Analytics.FinancialKpisOf | web/pages/analytics_page.py:165-171 | the 30-day revenue and the previous period's revenue are the sums over those windows, the delta is the percentage change between them, and it is 0 with thirty rows or fewer |
| Analytics.CostStructureOf | web/pages/analytics_page.py:235-240 | food and labor are kept, profit is 12, the remainder is never negative; the four shares sum to exactly 100 iff food plus labor is at most 88, otherwise to more than 100 with a zero remainder |
| Analytics.EntryDays | web/pages/analytics_page.py:114 | the day names of the entries, one per entry, in order |
| Analytics.EntryDaysAppend | web/pages/analytics_page.py:114 | the names of two entry lists joined are their names joined |
| Analytics.AveragesOverDays | web/pages/analytics_page.py:113-114 | the averaged days are exactly the listed days that occur in the rows, in list order |
| Analytics.AveragesOverValues | web/pages/analytics_page.py:114 | each entry holds the mean covers of the rows carrying its day name |
| Analytics.DayOfWeekFacts | web/pages/analytics_page.py:109-114 | a weekday has an average iff some row carries its name, and every average lies within the bounds of the covers |
| Analytics.EntryBounds | web/pages/analytics_page.py:114 | every day average lies within the bounds of the covers |
| Analytics.ValuesInBounds | web/pages/analytics_page.py:109-111 | every covers value collected for a day lies within the bounds of all covers |
| Analytics.AverageCoversByDay | web/pages/analytics_page.py:109-114 | the grouping loop and comprehension compute exactly the day-of-week averages |
| Analytics.DayOfWeekAverages | web/pages/analytics_page.py:109-114 | the entries are the weekdays, Monday to Sunday, that occur in the rows, each carrying the mean covers of that weekday's rows |
| Analytics.ScenarioFacts | web/pages/analytics_page.py:327-331 | over months 1-24 conservative < base < upside, each strictly increasing, and no cap is reached |
| Analytics.ScenarioOrder | web/pages/analytics_page.py:329-331 | for every month the curves keep the order conservative <= base <= upside |
| Daily.Weekday | forecasting/demand_engine.py:62 | date.weekday() of a day number is a weekday index below 7 (Monday 0) |
| Daily.Month | forecasting/demand_engine.py:71 | the calendar month of a day number lies in 1..12 |
| Daily.WeekdayPeriodic | forecasting/demand_engine.py:62 | weekdays repeat every seven days and advance by one each day |
| Daily.EpochAnchor | forecasting/demand_engine.py:62-71 | day 0 (1970-01-01) is a Thursday in January and day 365 is in January again |
| Daily.MarchAnchor | forecasting/demand_engine.py:71 | the February/March boundary of 1970 falls between days 58 and 59, and day 59 is a Sunday |
| Grouping.GroupBy | forecasting/demand_engine.py:60-63 | the defaultdict(list) append loop: keys are exactly those occurring, each holds its values in input order and is non-empty, and the key order is first appearance, without repeats |
| Grouping.ValuesForNonEmpty | forecasting/demand_engine.py:65-66 | a key occurs exactly when its value list is non-empty, so len(values) never divides by zero |
| Grouping.KeyOrderCorrect | forecasting/demand_engine.py:65 | dict iteration order: every occurring key once, in order of first appearance |
| Grouping.ArgMaxFirstCorrect | forecasting/demand_engine.py:243 | max(keys, key=f) returns a key whose score is at least every other and strictly above every earlier key (ties go to the first) |
| Grouping.ArgMinFirstCorrect | forecasting/demand_engine.py:253 | min(keys, key=f) returns a key whose score is at most every other and strictly below every earlier key |
| Sorting.SortByCorrect | inventory/optimizer.py:99 | list.sort(key=...) returns a permutation, sorted by key, that keeps equal keys in input order |
| Sorting.SortByDescCorrect | inventory/optimizer.py:162 | sort(..., reverse=True) returns a permutation in non-increasing key order, stable among equal keys |
| Sorting.SumOfSortBy | api/services/data_service.py:251-258 | sorting does not change the sum of any quantity over the rows |

## Where the code and its documentation differ

The model follows the code in each of these cases:

- **Holdout accuracy:** every holdout row is predicted with the training-set length `n` as its days-from-start input (`forecasting/demand_engine.py:117`), not with the row's own position. `ForecastModel.AccuracyOf` does the same.
- **Negative forecasts:** the predicted cover count is not clamped at zero (`forecasting/demand_engine.py:141`). A strongly negative trend yields a negative count, and the band's upper bound then lies below its lower bound, which is clamped at 0. `ForecastModel.NegativeForecastExample` exhibits this.
- **The model summary:** `get_model_summary` answers on an untrained engine too (`forecasting/demand_engine.py:306-322`).
- **All-zero covers:** training on a history whose covers are all zero stores the means and the history. It then raises ZeroDivisionError computing the weekday ratios, so the engine keeps its previous trained flag.

## Left out

- Floating point: money, ratios and rates are exact reals. Python's `round` is modelled as rounding half up (toward +∞) on those reals (`Common.Round2` and its siblings), not as IEEE-754 doubles rounded half to even.
- Number rendering: the digit string of an f-string or format specification is abstract. A formatted amount is its value, decimals, suffix and symbol (`Currency`).
- SHA-256, `secrets.token_urlsafe`, `datetime.now()`, `date.today()` and fresh uuids are parameters of the operations that use them, never interpreted.
- Stripe: whether it is configured, the checkout session, the webhook event or a bad signature, and the refund outcome are parameters. `api/services/stripe_service.py` is not part of this model.
- Persistence: each table is an in-memory object. Commits, autoflush timing (except the committed snapshot `sync_menu` reads), concurrent account creation and transaction isolation are not modelled.
- SQL ordering ties: `get_orders` (by date) and `get_revenue_stats` (by creation time, `DataPayments.NewestFirst`) sort descending with a stable sort, so equal dates or timestamps keep table order; the database's order among equal values is unspecified. `Loyalty.EvaluateAllAccounts` and the loyalty summary take the account order as a parameter, in place of the query's `order_by`.
- Read-only lookups that only filter a table are not modelled: `get_payments`, `list_api_keys`, `get_menu`, `get_inventory`, `get_order_by_uid`, `get_account(s)`, `get_account_history`, `get_tier_definitions`, `record_clock_event` and `get_clock_events`.
- The routers in `api/routers/loyalty.py`, `api/routers/pos.py` and `api/routers/health.py` are not part of this model: they re-expose the services and add 404s.
- All Streamlit and Plotly rendering, the HTML strings, and the pages other than labour, menu and analytics are not modelled. The same goes for `web/app.py`, `web/assets/images.py` and the demo data generator.
- `MenuItem.ingredients` and other record fields no modelled rule reads are omitted from the records.
- Tier names are the five ladder names. A stored tier name outside the ladder, which `_next_tier` maps to None, cannot be represented.
- `DataMenu.SyncMenu`: each sync row carries every field, so it does not model an item dictionary with missing keys (defaults supplied by `.get`).
- `Auth.AdminRecord`: the admin key's synthetic record has `request_count` None in the source. The model writes 0, since no operation reads it.
- Day names: a daily summary's and a labour forecast's day name are free strings. A name outside the seven English weekday names is handled as the pages do: `Analytics.DayOfWeekAverages` leaves it out, like the `if d in dow_data` filter, and the labour judgement gives it the `.get` default of no hours, cost or staff. Names produced from dates (`Daily.DayName`) are always one of the seven.
- `Forecast.DemandForecastEngine.Train`: requires that no item patterns are stored yet. Retraining an engine that already tracks items crashes in the source (`forecasting/demand_engine.py:88-97` append to the averaged values), and the model does not represent that crash.
- `Grouping`: `max`/`min` with a key are modelled only for non-empty sequences. The source calls them only there.
- Settings (`api/config.py:26-33`): the service reads them from `FORKAST_`-prefixed environment variables or a `.env` file. The model fixes them at their defaults, with one exception: the admin key is a parameter of `Auth.VerifyApiKey`. `Auth.IssuedKeyIsAdminIff` holds for any admin key, and `Auth.IssuedKeyIsNotDefaultAdmin` holds for the default one. The key prefix `fk-pos-` stays fixed, because `ApiKeys.IssuedPrefix` and the issued-key lemmas are stated for it.
