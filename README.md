# Inventory analytics: a verified Dafny model

This project models the analytics core of the `inventory_analytics` Frappe app, which a
hydraulics distributor uses to classify its stock items and score new products. It covers
five parts:

- **Item classification model** (`item_classification_model.dfy`, module `ItemClassification`).
  Data preparation, the five business rules (NEW_ITEM, DEAD_STOCK, FAST, SLOW, MEDIUM), the
  DBSCAN and KMeans cluster-to-label policies and the hybrid ensemble vote. It also covers the
  result record with its derived bands (days of stock, ABC category, dormancy, new-item status)
  and the recommended action. `ItemClassificationModel` is a class because `classify_items`
  updates `models_trained` and `last_trained` in place.
- **Demand pattern model** (`demand_pattern_model.dfy`, module `DemandPattern`).
  The Syntetos–Boylan–Croston (SBC) classification by ADI and CV², one forecast per pattern,
  safety stock, reorder point, EOQ and order frequency, the per-pattern recommendation and the
  batch loop.
- **Health scoring model** (`health_scoring_model.dfy`, module `HealthScoring`).
  Four component scores (sales against target, customer acquisition, stock adequacy, growth),
  the weighted composite, health status, life stage and the recommendation that status and
  stage produce together.
- **Item Classification document** (`item_classification_doc.dfy`, module `ItemClassificationDoc`).
  A class whose methods fill in derived metrics and classification fields in place. The fields
  come either from a hybrid run of the classifier or from the document's own rule fallback.
  The class also builds the recommendation and action-item lists.
- **Item classification report** (`classification_report.dfy`, module `ClassificationReport`).
  The SQL `WHERE` clause and its parameter list, built from the filters, and the summary
  (totals, counts per classification, counts per priority bucket).

`numeric.dfy` (module `Numeric`) holds the arithmetic the Python code borrows from its
runtime:

- `int()` truncation and `round()` half-to-even;
- sums, means and the population variance behind `np.std`;
- the positive-values filter;
- `Option`/`Result`.

Numbers are `real`. Python's `int()` and `round()` are written out as `Trunc` and
`RoundHalfEven`. Square roots come from a parameter `sqrt` with the contract `IsSqrt`: for
x ≥ 0 the result r satisfies r ≥ 0 and r·r = x. Cluster ids from scikit-learn, the clock, SQL
parsing helpers and the database are parameters as well; see "Left out".

The model follows the code as written, including where it departs from its own comments, names and configuration keys:

- Preparation drops rows with a non-positive annual quantity for every method, rule-based
  included.
- The ERRATIC forecast gives the 0.5 weight to the oldest of the last three months (month 10),
  not the most recent, although its comment says recent months weigh more.
- The sales ratio is 0 when the target is ≤ 0. Days of stock is 0 when the average is ≤ 0.
- DBSCAN's outlier policy hard-codes 150 days and 1.5× the FAST velocity. The SLOW rule
  hard-codes 0.5/day and 60 days. The MEDIUM cluster band hard-codes 1.0/day.
- An ESTABLISHED item always gets MAINTAIN_STANDARD_OPERATIONS with priority 2, even when its
  status is CRITICAL.
- In the hybrid and rule-based paths the rule confidence is a fraction (0.99, 0.95, …), and the
  record stores `int()` of it, which is 0.
- The document's own FAST fallback confidence is a fixed 90, while the model gives 90.5–99.
  Its MEDIUM priority is 5, while the model gives 1.
- The document hands the model no holding cost, so a SLOW item with more than 180 days of stock
  gets an expected impact of 0.
- The sample item HYD-001 ("Pump A") misses the retention bonus: 15 of 35 customers is below
  one half.

## Model

| member | source | states |
|---|---|---|
| Numeric.Trunc | inventory_analytics/models/item_classification_model.py:380 | Python `int()` on a real: the integer toward zero, within one of the argument |
| Numeric.RoundHalfEven | inventory_analytics/models/health_scoring_model.py:131 | Python `round()`: the nearest integer, with an exact half going to the even neighbour |
| Numeric.RoundStaysInRange | inventory_analytics/models/health_scoring_model.py:131-146 | rounding a value inside an integer range stays inside it, so rounded 0–100 scores stay 0–100 |
| Numeric.PopVariance | inventory_analytics/models/demand_pattern_model.py:148 | the population variance behind `np.std` is never negative |
| Numeric.Positives | inventory_analytics/models/demand_pattern_model.py:136 | the filter `[s for s in sales if s > 0]` keeps exactly the positive values and no more than the input holds (order: `PositivesAppend`) |
| Numeric.PositivesAppend | inventory_analytics/models/demand_pattern_model.py:136 | the filter keeps order: filtering a concatenation gives the filtered parts, concatenated |
| Numeric.AnyNonZeroIffPositives | inventory_analytics/models/demand_pattern_model.py:176 | for non-negative sales, `any(monthly_sales)` holds exactly when some month is positive |
| Numeric.MeanAbove | inventory_analytics/models/item_classification_model.py:355-361 | a mean of values all above a bound is above it (cluster averages follow their members) |
| Numeric.MeanAtMost | inventory_analytics/models/item_classification_model.py:355-361 | a mean of values all at most a bound is at most it |
| ItemClassification.PrepareRow | inventory_analytics/models/item_classification_model.py:126-147 | every figure is the row's own value, or 0 when missing. Without the column, velocity is the annual quantity over 365, turnover is quantity over stock (0 without stock), and consistency is 50; with it, the supplied value is kept |
| ItemClassification.Kept | inventory_analytics/models/item_classification_model.py:149-150 | the kept rows are exactly the prepared rows with a positive annual quantity |
| ItemClassification.KeptAppend | inventory_analytics/models/item_classification_model.py:149-150 | the filter keeps row order: the kept rows of a concatenation are the kept rows of each part, in order |
| ItemClassification.KeptSnoc | inventory_analytics/models/item_classification_model.py:149-150 | one more row adds its prepared form at the end exactly when its annual quantity is positive |
| ItemClassification.KeptSingleton | inventory_analytics/models/item_classification_model.py:149-150 | a single row is kept exactly when its prepared annual quantity is positive |
| ItemClassification.PrepareData | inventory_analytics/models/item_classification_model.py:118-152 | the prepared batch, every row of which has a positive annual quantity |
| ItemClassification.RulesAreFirstMatch | inventory_analytics/models/item_classification_model.py:313-341 | the rules are an ordered list whose first match wins, with MEDIUM 0.75 as the fallback |
| ItemClassification.ApplyBusinessRules | inventory_analytics/models/item_classification_model.py:313-341 | the confidence of each label: NEW_ITEM 0.99, DEAD_STOCK 0.95, FAST min(99, 70 + 5·velocity + 10·turnover)/100, SLOW 0.85, MEDIUM 0.75; FAST and SLOW only when their own rule holds |
| ItemClassification.RulePrecedence | inventory_analytics/models/item_classification_model.py:320-341 | each label is chosen exactly when its own rule holds and no earlier rule does (all five directions of the if-and-only-if) |
| ItemClassification.NewItemPrecedesDeadStock | inventory_analytics/models/item_classification_model.py:320-327 | a 10-day-old item unsold for 300 days is NEW_ITEM at 0.99, not DEAD_STOCK |
| ItemClassification.FastConfidenceRange | inventory_analytics/models/item_classification_model.py:330-333 | under the default thresholds a FAST confidence lies in (0.905, 0.99] |
| ItemClassification.RuleConfidenceRange | inventory_analytics/models/item_classification_model.py:320-341 | with non-negative FAST thresholds every rule confidence lies in (0.70, 0.99] |
| ItemClassification.RuleRecordConfidenceTruncated | inventory_analytics/models/item_classification_model.py:253-254 | a rule-based record keeps the rule's label but stores confidence 0, because `int()` of a fraction below 1 is 0 |
| ItemClassification.RuleRecord | inventory_analytics/models/item_classification_model.py:251-256 | a rule record carries the rules' label and reason under the given tag and stores `int()` of the rule confidence (0 for a fraction: `RuleRecordConfidenceTruncated`) |
| ItemClassification.DbscanRecord | inventory_analytics/models/item_classification_model.py:184-191 | a DBSCAN record carries row i's cluster label (`DbscanLabel`) at the default confidence 75 |
| ItemClassification.KmeansRecord | inventory_analytics/models/item_classification_model.py:224-240 | a KMeans record carries the member band of row i's cluster mean at 75, or `int()` of the FAST confidence, in [70, 95] for a non-negative threshold |
| ItemClassification.OutlierLabel | inventory_analytics/models/item_classification_model.py:345-352 | a noise point is DEAD_STOCK past 150 days unsold, else FAST above 1.5× the FAST velocity, else SLOW (each as an if-and-only-if) |
| ItemClassification.MemberLabel | inventory_analytics/models/item_classification_model.py:354-361 | a cluster member is FAST, MEDIUM or SLOW by its cluster's mean velocity against the FAST threshold and 1.0 |
| ItemClassification.MemberLabelMonotone | inventory_analytics/models/item_classification_model.py:354-361 | a faster cluster mean never moves a member from FAST down, nor a slower one from SLOW up |
| ItemClassification.ClusterVelocities | inventory_analytics/models/item_classification_model.py:185 | the velocities of a cluster are exactly those of the rows carrying its id (order: `ClusterVelocitiesAppend`) |
| ItemClassification.ClusterVelocitiesAppend | inventory_analytics/models/item_classification_model.py:185 | the cluster filter keeps row order: splitting the rows splits the velocity list |
| ItemClassification.ClusterVelocitiesSingleton | inventory_analytics/models/item_classification_model.py:185 | one row contributes its velocity exactly when it carries the cluster id |
| ItemClassification.ClusterMean | inventory_analytics/models/item_classification_model.py:186 | `cluster_items['sales_velocity'].mean()`: the cluster is non-empty, holds the row itself, and the mean times its size is the sum of its velocities |
| ItemClassification.DbscanLabel | inventory_analytics/models/item_classification_model.py:184-191 | noise gets the outlier policy and a member the member policy on its cluster mean. Never NEW_ITEM, MEDIUM only for a member, DEAD_STOCK exactly for noise past 150 days unsold |
| ItemClassification.UniformClusterLabel | inventory_analytics/models/item_classification_model.py:184-191 | a cluster whose members are all above the FAST threshold labels every member FAST; one whose members are all at most 1.0 labels every member SLOW |
| ItemClassification.KmeansLabel | inventory_analytics/models/item_classification_model.py:228-238 | KMeans uses the member bands; MEDIUM and SLOW get confidence 75, and FAST gets min(95, 70 + v/10), which lies in (70, 95] for a non-negative threshold |
| ItemClassification.DaysOfStock | inventory_analytics/models/item_classification_model.py:407-411 | days of stock times velocity gives the stock; without a positive velocity it is 0 |
| ItemClassification.AbcOf | inventory_analytics/models/item_classification_model.py:413-422 | A above 100000 of annual value, B above 20000, else C (each as an if-and-only-if) |
| ItemClassification.DormancyOf | inventory_analytics/models/item_classification_model.py:424-434 | ACTIVE below 90 days unsold, SLEEPY below 180, DORMANT below 365, else DEAD |
| ItemClassification.NewItemStatusOf | inventory_analytics/models/item_classification_model.py:436-446 | LAUNCH below 30 days old, LEARNING below 90, GRADUATION below 180, else ESTABLISHED |
| ItemClassification.BandsMonotone | inventory_analytics/models/item_classification_model.py:413-446 | dormancy and age bands only move forward as days grow, and ABC only moves up as value grows |
| ItemClassification.RecommendAction | inventory_analytics/models/item_classification_model.py:448-484 | the action, 1–10 priority and impact per label. SLOW reduces stock exactly when days of stock exceed 180 |
| ItemClassification.BuildResultRecord | inventory_analytics/models/item_classification_model.py:363-405 | a record carries the row's code, the label, method and reason given, the truncated confidence (75 by default, 0 below 1, in [0, 100] for one in [0, 100]), the configured holding cost, days of stock, the three bands, and the action, priority and impact for its label |
| ItemClassification.Put | inventory_analytics/models/item_classification_model.py:294-301 | a dict assignment keeps one entry per key. It adds the key, or overwrites the weight without adding an entry, and leaves every other key's lookup alone |
| ItemClassification.FirstMaxIndex | inventory_analytics/models/item_classification_model.py:304 | `max(votes, key=votes.get)`: the first entry holding the largest weight |
| ItemClassification.EnsembleVotesPositive | inventory_analytics/models/item_classification_model.py:294-301 | with positive confidences the vote dict is non-empty, keyed once per label and all positive |
| ItemClassification.EnsembleVotes | inventory_analytics/models/item_classification_model.py:294-301 | the vote dict holds each key once and at most three keys: the rule's label, DBSCAN's label and, above the FAST velocity, FAST |
| ItemClassification.FastBonusKeepsDict | inventory_analytics/models/item_classification_model.py:300-301 | the 0.15 FAST bonus keeps a dict of positive votes one |
| ItemClassification.HybridVoteArithmetic | inventory_analytics/models/item_classification_model.py:294-301 | DBSCAN's 0.35-weighted vote overwrites the rule's 0.5-weighted vote when they agree. FAST gains exactly 0.15 above the FAST velocity and nothing otherwise |
| ItemClassification.Winner | inventory_analytics/models/item_classification_model.py:304-305 | the winner's weight bounds every key's vote, and its share of the vote total lies in (0, 100] |
| ItemClassification.HybridVoteWinner | inventory_analytics/models/item_classification_model.py:294-305 | the ensemble always has a winner, and its confidence lies in (0, 100] |
| ItemClassification.SingletonDbscan | inventory_analytics/models/item_classification_model.py:282-288 | DBSCAN on the one-row batch applies the outlier policy when `min_samples` exceeds 1, else the member policy on the row's own velocity; the confidence is 75 |
| ItemClassification.HybridShortcut | inventory_analytics/models/item_classification_model.py:273-280 | a rule confidence above 0.90 is kept under the HYBRID tag (stored as 0). Under the defaults that is exactly NEW_ITEM, DEAD_STOCK and FAST |
| ItemClassification.HybridSlowExample | inventory_analytics/models/item_classification_model.py:282-309 | under the defaults a SLOW rule outcome stays SLOW, and the hybrid stores confidence 100 |
| ItemClassification.HybridRecord | inventory_analytics/models/item_classification_model.py:271-309 | a HYBRID record with confidence in [0, 100] and the action of its final label. A rule confidence above 0.90 keeps the rule's label and reason; otherwise the record is the ensemble's |
| ItemClassification.VotedRecord | inventory_analytics/models/item_classification_model.py:282-309 | the ensemble branch: a HYBRID record whose label is the rule's, DBSCAN's or FAST, with confidence in [0, 100]; the reason records the rule's outcome and DBSCAN's 0.75 (the winner itself: `VotedRecordWinner`) |
| ItemClassification.VotedRecordWinner | inventory_analytics/models/item_classification_model.py:294-305 | the voted record carries the first maximal vote of the dict (`max(votes, key=votes.get)`), and its stored confidence is `int()` of that vote's share of all votes in percent |
| ItemClassification.ResultsFor | inventory_analytics/models/item_classification_model.py:101-111 | one record per row, carrying the row's code and the method's tag; an unknown name, or a batch KMeans refuses (fewer rows than clusters, or a labelling the silhouette score refuses), is an error |
| ItemClassification.ItemClassificationModel.ClassifyRuleBased | inventory_analytics/models/item_classification_model.py:244-258 | one rule record per row, in order |
| ItemClassification.ItemClassificationModel.ClassifyDbscan | inventory_analytics/models/item_classification_model.py:154-193 | one DBSCAN record per row, labelled by its cluster id (noise or member) |
| ItemClassification.ItemClassificationModel.ClassifyKmeans | inventory_analytics/models/item_classification_model.py:195-242 | an error for a batch KMeans or the silhouette score refuses; otherwise one KMeans record per row, labelled by its cluster's mean velocity |
| ItemClassification.ItemClassificationModel.TallyVotes | inventory_analytics/models/item_classification_model.py:294-301 | the vote dict built by two insertions and the conditional FAST bonus |
| ItemClassification.ItemClassificationModel.ClassifyHybridRow | inventory_analytics/models/item_classification_model.py:271-309 | one row's hybrid record: the shortcut or the ensemble winner |
| ItemClassification.ItemClassificationModel.VoteRow | inventory_analytics/models/item_classification_model.py:282-309 | one row's ensemble branch: DBSCAN on the one-row batch, the vote dict and the winner's share give the voted record |
| ItemClassification.ItemClassificationModel.ClassifyHybrid | inventory_analytics/models/item_classification_model.py:260-311 | one hybrid record per row, in order |
| ItemClassification.ItemClassificationModel.ClassifyItems | inventory_analytics/models/item_classification_model.py:78-116 | an empty prepared batch gives no records. Otherwise the answer is the method's records, or the error for an unknown name or a refused KMeans batch; an error leaves the state alone, and records mark the model trained at `now` |
| DemandPattern.Quadrant | inventory_analytics/models/demand_pattern_model.py:152-160 | SMOOTH, ERRATIC, INTERMITTENT or LUMPY by ADI against 1.32 and CV² against 0.49, each as an if-and-only-if |
| DemandPattern.CvSquared | inventory_analytics/models/demand_pattern_model.py:146-150 | CV² of positive sales is non-negative and is 0 exactly when the spread is 0 |
| DemandPattern.Adi | inventory_analytics/models/demand_pattern_model.py:141-144 | ADI times the months with demand is 12, so it lies in [1, 12] |
| DemandPattern.SbcOfNonZero | inventory_analytics/models/demand_pattern_model.py:141-162 | for positive sales, ADI·n = 12, CV² ≥ 0 and the pattern is the quadrant they fall in |
| DemandPattern.ClassifySbc | inventory_analytics/models/demand_pattern_model.py:127-162 | no sales give (0, 0, LUMPY). Otherwise ADI·n = 12 with ADI in [1, 12], and the pattern is the quadrant of (ADI, CV²) |
| DemandPattern.AdiAboveThreshold | inventory_analytics/models/demand_pattern_model.py:144-153 | 12/n exceeds 1.32 exactly when fewer than 10 months have demand |
| DemandPattern.SparseIffFewerThanTenMonths | inventory_analytics/models/demand_pattern_model.py:136-160 | a series is on the intermittent side exactly when fewer than 10 months have sales |
| DemandPattern.NineEqualMonthsAreIntermittent | inventory_analytics/models/demand_pattern_model.py:136-160 | nine equal sales months give ADI 12/9, CV² 0 and INTERMITTENT |
| DemandPattern.AvgMonthly | inventory_analytics/models/demand_pattern_model.py:176 | the mean of the positive months, or 1 when no month sold. It is always positive |
| DemandPattern.StdDev | inventory_analytics/models/demand_pattern_model.py:182 | `np.std`: a non-negative root of the population variance |
| DemandPattern.WeightedRecent | inventory_analytics/models/demand_pattern_model.py:188-190 | 0.5·month 10 + 0.3·month 11 + 0.2·month 12, which lies between their minimum and maximum |
| DemandPattern.SmoothForecast | inventory_analytics/models/demand_pattern_model.py:178-184 | moving average at the positive-month mean, with a ±1.96σ interval clipped at 0 |
| DemandPattern.ErraticForecast | inventory_analytics/models/demand_pattern_model.py:186-193 | weighted average with the interval [0.5×, 1.5×] |
| DemandPattern.CrostonRate | inventory_analytics/models/demand_pattern_model.py:199 | mean of the positive months over their count, times 30; positive |
| DemandPattern.CrostonForecast | inventory_analytics/models/demand_pattern_model.py:195-202 | Croston's rate (0 without sales) with the interval [0, 2×] |
| DemandPattern.LumpyForecast | inventory_analytics/models/demand_pattern_model.py:204-209 | exponential smoothing at the positive-month mean with the interval [0, 3×] |
| DemandPattern.GenerateForecast | inventory_analytics/models/demand_pattern_model.py:164-211 | dispatches on the pattern. An unknown pattern gives the empty default; every interval satisfies 0 ≤ lower ≤ forecast ≤ upper |
| DemandPattern.ZScore | inventory_analytics/models/demand_pattern_model.py:232-239 | the per-pattern z-score (2.58 for LUMPY by default), with 1.65 for an unknown pattern |
| DemandPattern.SafetyStock | inventory_analytics/models/demand_pattern_model.py:228-242 | z·σ·√lead-time: its square is z²·variance·lead time and it has the sign of z, so it is never negative for the configured z-scores and 0 for a flat series |
| DemandPattern.Eoq | inventory_analytics/models/demand_pattern_model.py:250-254 | EOQ² = 2·D·50/0.20 for positive annual demand, else 0 |
| DemandPattern.OrderFrequency | inventory_analytics/models/demand_pattern_model.py:256-260 | frequency times EOQ is the annual demand. It is 12 without an EOQ and 0 without demand |
| DemandPattern.CalculateRop | inventory_analytics/models/demand_pattern_model.py:213-271 | ROP is lead-time demand plus safety stock, and EOQ is positive. The recommended quantity is the larger of EOQ and ROP |
| DemandPattern.Recommend | inventory_analytics/models/demand_pattern_model.py:273-316 | each pattern's ordering policy and priority (2, 5, 4, 8), with MAINTAIN_STOCK at 5 exactly for an unknown pattern |
| DemandPattern.MonthlySales | inventory_analytics/models/demand_pattern_model.py:88 | twelve months, each read from `month_i` or 0 when absent |
| DemandPattern.ClassifyDemandPatterns | inventory_analytics/models/demand_pattern_model.py:70-125 | one demand record per row, in order |
| DemandPattern.VariabilityPct | inventory_analytics/models/demand_pattern_model.py:108 | `demand_variability`: with a positive mean, the value times the mean is σ·100. Otherwise it is 0. It is never negative when σ is not |
| DemandPattern.DemandRecordStatistics | inventory_analytics/models/demand_pattern_model.py:100-108 | each record holds the row's code and its SBC classification. It also holds the twelve-month mean (mean·12 = sum), σ as `np.std` and the variability of that mean and σ |
| DemandPattern.DemandRecordPlans | inventory_analytics/models/demand_pattern_model.py:91-119 | each record's forecast, replenishment figures and advice are those of its pattern |
| DemandPattern.DemandRecordInvariants | inventory_analytics/models/demand_pattern_model.py:101-121 | every record has an SBC pattern, a real forecast method and a non-default action. Its interval is ordered and the recommended quantity covers both ROP and EOQ |
| HealthScoring.DefaultHealthConfigValid | inventory_analytics/models/health_scoring_model.py:30-80 | the default weights sum to 1 and every band's thresholds are ordered |
| HealthScoring.SalesRatio | inventory_analytics/models/health_scoring_model.py:175-178 | actual over target, or 0 for a non-positive target |
| HealthScoring.SalesBand | inventory_analytics/models/health_scoring_model.py:180-200 | the first band the ratio reaches decides: 100 at or above "excellent", 85 at "good", 60 at "fair", 35 at "poor", 15 at "critical", else 0 (each as an if-and-only-if) |
| HealthScoring.SalesBandMonotone | inventory_analytics/models/health_scoring_model.py:180-200 | a higher sales ratio never scores lower |
| HealthScoring.ScoreSalesPerformance | inventory_analytics/models/health_scoring_model.py:169-200 | a score in [0, 100]. With no positive target it is the band of ratio 0 |
| HealthScoring.CustomerBand | inventory_analytics/models/health_scoring_model.py:208-225 | the first band the customer count reaches decides: 100, 85, 60, 35, else 15 (each as an if-and-only-if) |
| HealthScoring.RetentionBonusIff | inventory_analytics/models/health_scoring_model.py:228-232 | the retention bonus applies exactly when more than half the customers repeat |
| HealthScoring.ScoreCustomerAcquisition | inventory_analytics/models/health_scoring_model.py:202-235 | the band score, plus 15 capped at 100 exactly when the retention bonus applies |
| HealthScoring.DaysOfStock | inventory_analytics/models/health_scoring_model.py:327-334 | days of stock times monthly sales is 30 × stock; 0 without sales |
| HealthScoring.StockBand | inventory_analytics/models/health_scoring_model.py:237-267 | 100 exactly inside the optimal range. Below it, max(30, 100 − 2 × the shortfall in percent of the minimum). Above it: 75 up to the warning limit, 45 up to the critical limit, 15 past it |
| HealthScoring.ScoreStockAdequacy | inventory_analytics/models/health_scoring_model.py:237-267 | a score in [0, 100], and 30 when there are no monthly sales |
| HealthScoring.GrowthTrend | inventory_analytics/models/health_scoring_model.py:336-343 | the relative change from last week to this week, or 0 without a prior week |
| HealthScoring.GrowthBand | inventory_analytics/models/health_scoring_model.py:269-303 | the first band the growth reaches decides: 100, 85, 70, 45, 20, else 5 (each as an if-and-only-if) |
| HealthScoring.GrowthBandMonotone | inventory_analytics/models/health_scoring_model.py:269-303 | faster growth never scores lower |
| HealthScoring.ScoreGrowthTrend | inventory_analytics/models/health_scoring_model.py:269-303 | a score in [0, 100]. Without a prior week it is the band of 0 growth |
| HealthScoring.NoPriorWeekIsStable | inventory_analytics/models/health_scoring_model.py:269-303 | with no prior-week sales the default growth score is 70 |
| HealthScoring.WeightedSumBounds | inventory_analytics/models/health_scoring_model.py:109-115 | component scores in [0, 100] with weights summing to 1 give a composite in [0, 100] |
| HealthScoring.Composite | inventory_analytics/models/health_scoring_model.py:103-115 | the weighted composite of the four component scores lies in [0, 100] |
| HealthScoring.HealthScoreBounds | inventory_analytics/models/health_scoring_model.py:131 | the rounded health score lies in [0, 100] |
| HealthScoring.StatusOf | inventory_analytics/models/health_scoring_model.py:305-314 | CRITICAL at or below the critical limit, AT_RISK up to the at-risk limit, CAUTION below the healthy minimum, else HEALTHY (each as an if-and-only-if) |
| HealthScoring.StatusMonotone | inventory_analytics/models/health_scoring_model.py:305-314 | a higher score never gives a worse status |
| HealthScoring.StageOf | inventory_analytics/models/health_scoring_model.py:316-325 | LAUNCH up to the launch limit, LEARNING up to the learning limit, GRADUATION up to the graduation limit, else ESTABLISHED (each as an if-and-only-if) |
| HealthScoring.StageMonotone | inventory_analytics/models/health_scoring_model.py:316-325 | an older item never moves back a life stage |
| HealthScoring.BaselinePriority | inventory_analytics/models/health_scoring_model.py:355-377 | status priority in [2, 10]: 10 exactly for CRITICAL and 2 exactly for HEALTHY |
| HealthScoring.BaselinePriorityMonotone | inventory_analytics/models/health_scoring_model.py:355-377 | a worse status never gets a lower priority |
| HealthScoring.BaselineWarnings | inventory_analytics/models/health_scoring_model.py:355-377 | three warnings for CRITICAL and AT_RISK, one for CAUTION, none for HEALTHY |
| HealthScoring.StageMetrics | inventory_analytics/models/health_scoring_model.py:379-402 | each life stage adds two key metrics |
| HealthScoring.StagePriority | inventory_analytics/models/health_scoring_model.py:379-402 | a stage only raises the priority, to at least 7, 6 or 4, and changes it only to that floor. ESTABLISHED resets it to 2 |
| HealthScoring.Recommend | inventory_analytics/models/health_scoring_model.py:345-404 | the action comes from the stage and the warnings from the status. The priority is the status baseline adjusted by the stage |
| HealthScoring.EstablishedForcesPriorityTwo | inventory_analytics/models/health_scoring_model.py:398-400 | an ESTABLISHED item gets priority 2 whatever its status, below a CRITICAL item's baseline of 10 |
| HealthScoring.StatusBaseline | inventory_analytics/models/health_scoring_model.py:348-377 | the status pass fills in the status action, priority and warnings |
| HealthScoring.StageOverride | inventory_analytics/models/health_scoring_model.py:379-402 | the stage pass replaces the action, adjusts the priority and appends the stage metrics |
| HealthScoring.GenerateRecommendations | inventory_analytics/models/health_scoring_model.py:345-404 | the two passes in order give the combined recommendation |
| HealthScoring.CalculateHealthScore | inventory_analytics/models/health_scoring_model.py:82-166 | the health score is the rounded composite in [0, 100], while status is read from the unrounded composite. Each component score is the rounded component, in [0, 100]; code, name, age and customers are copied; stage, action, priority, warnings and metrics follow status and stage |
| HealthScoring.PumpAHealth | inventory_analytics/models/health_scoring_model.py:407-421 | the first sample item scores 100/85/100/70, a composite of 92.5 rounded to 92. It is HEALTHY, in LAUNCH, with AGGRESSIVE_MARKETING at priority 7 |
| ItemClassificationDoc.FallbackVerdict | inventory_analytics/doctypes/item_classification/item_classification.py:203-252 | NEW_ITEM exactly below 90 days of age, DEAD_STOCK exactly when older and past 180 days unsold or under 10 sold. The result is one of the five fixed verdicts |
| ItemClassificationDoc.FallbackMatchesModelRules | inventory_analytics/doctypes/item_classification/item_classification.py:203-252 | the fallback picks the same label as the classifier's default rules, with the same confidence ×100 except FAST, whose 90 is lower |
| ItemClassificationDoc.YoungItemIsNew | inventory_analytics/doctypes/item_classification/item_classification.py:206-214 | any item under 90 days old is NEW_ITEM, 99, MARKET_MORE, priority 7 |
| ItemClassificationDoc.ItemClassificationDocument.constructor | inventory_analytics/doctypes/item_classification/item_classification.py:94-109 | a new document holds the given figures and no classification |
| ItemClassificationDoc.ItemClassificationDocument.ModelItem | inventory_analytics/doctypes/item_classification/item_classification.py:162-184 | the one-row batch handed to the model carries no holding cost. Preparation keeps it exactly when the annual quantity is positive |
| ItemClassificationDoc.ItemClassificationDocument.CalculateDerivedMetrics | inventory_analytics/doctypes/item_classification/item_classification.py:94-152 | days of stock, turnover, 20% holding cost, item age and the three bands follow the figures. The inputs and classification fields stay unchanged |
| ItemClassificationDoc.ItemClassificationDocument.UpdateStockMetrics | inventory_analytics/doctypes/item_classification/item_classification.py:96-109 | days of stock times velocity gives the stock, turnover times stock gives the quantity, and holding cost is 20% of stock value |
| ItemClassificationDoc.ItemClassificationDocument.UpdateBands | inventory_analytics/doctypes/item_classification/item_classification.py:126-152 | ABC, dormancy and new-item status are the model's bands of the current figures |
| ItemClassificationDoc.ItemClassificationDocument.SetLabel | inventory_analytics/doctypes/item_classification/item_classification.py:190-192 | sets type, confidence and method tag and leaves everything else alone |
| ItemClassificationDoc.ItemClassificationDocument.SetDecision | inventory_analytics/doctypes/item_classification/item_classification.py:193-195 | sets reason, action and priority and leaves everything else alone |
| ItemClassificationDoc.ItemClassificationDocument.SetClassification | inventory_analytics/doctypes/item_classification/item_classification.py:190-195 | sets the six classification fields and leaves figures, bands and impact alone |
| ItemClassificationDoc.ItemClassificationDocument.RunRuleBasedClassification | inventory_analytics/doctypes/item_classification/item_classification.py:203-252 | the fields become the fallback verdict with the RULE_BASED tag; figures, bands and impact do not change |
| ItemClassificationDoc.ItemClassificationDocument.RunClassification | inventory_analytics/doctypes/item_classification/item_classification.py:154-201 | a missing model or a failed lookup gives the fallback verdict and its rule reason. Otherwise the hybrid record is copied in, or nothing changes when the batch is empty. Figures, days of stock and the three bands never change |
| ItemClassificationDoc.ItemClassificationDocument.ClassifyWithModel | inventory_analytics/doctypes/item_classification/item_classification.py:180-187 | the hybrid record of the document's item, or none when its annual quantity is not positive |
| ItemClassificationDoc.ItemClassificationDocument.ApplyRecord | inventory_analytics/doctypes/item_classification/item_classification.py:189-196 | copies the record's classification, action, priority and impact and leaves the figures, days of stock and the three bands alone |
| ItemClassificationDoc.ItemClassificationDocument.GetRecommendations | inventory_analytics/doctypes/item_classification/item_classification.py:314-357 | four lines for FAST, three for SLOW (opening with "reduce orders" exactly above 180 days of stock), four for DEAD_STOCK and NEW_ITEM, none otherwise |
| ItemClassificationDoc.ItemClassificationDocument.GetActionItems | inventory_analytics/doctypes/item_classification/item_classification.py:359-378 | the recommended action today, then a priority-5 review 30 days later |
| ClassificationReport.ConditionHasOnePlaceholder | inventory_analytics/reports/item_classification_report/item_classification_report.py:169-195 | each filter condition carries exactly one `%s` |
| ClassificationReport.ConditionsMatchParams | inventory_analytics/reports/item_classification_report/item_classification_report.py:165-195 | for any filter slots, the appended conditions hold exactly as many `%s` as there are parameters, one per set filter |
| ClassificationReport.PlaceholdersMatchParams | inventory_analytics/reports/item_classification_report/item_classification_report.py:165-195 | the `WHERE` clause's placeholders match the parameter list in number |
| ClassificationReport.Slots | inventory_analytics/reports/item_classification_report/item_classification_report.py:169-195 | the seven filters in their fixed order |
| ClassificationReport.AppendConditions | inventory_analytics/reports/item_classification_report/item_classification_report.py:166-195 | the loop builds "1=1" plus the set filters' conditions and their parameters |
| ClassificationReport.GetData | inventory_analytics/reports/item_classification_report/item_classification_report.py:160-231 | the clause and parameters the filters define, with one parameter per placeholder |
| ClassificationReport.Bump | inventory_analytics/reports/item_classification_report/item_classification_report.py:252 | `d[k] = d.get(k, 0) + 1` raises k's count and the total by one and no other count |
| ClassificationReport.BumpKeepsKeysDistinct | inventory_analytics/reports/item_classification_report/item_classification_report.py:252 | counting keeps one entry per key |
| ClassificationReport.BumpKeys | inventory_analytics/reports/item_classification_report/item_classification_report.py:252 | counting a new key appends it to the keys; counting a known key keeps the key order |
| ClassificationReport.BucketOf | inventory_analytics/reports/item_classification_report/item_classification_report.py:255-262 | HIGH exactly at priority 8 or more, MEDIUM exactly at 5 to 7, LOW below 5 (missing priority reads as 5) |
| ClassificationReport.BucketsPartition | inventory_analytics/reports/item_classification_report/item_classification_report.py:255-262 | every row falls in exactly one priority bucket |
| ClassificationReport.ClassTally | inventory_analytics/reports/item_classification_report/item_classification_report.py:249-252 | one entry per classification met, in order of first appearance, each counting its rows (never 0), the counts summing to the row count |
| ClassificationReport.BucketTally | inventory_analytics/reports/item_classification_report/item_classification_report.py:254-262 | one entry per bucket met, in order of first appearance, each counting its rows (never 0), the counts summing to the row count |
| ClassificationReport.CountClasses | inventory_analytics/reports/item_classification_report/item_classification_report.py:249-252 | the counting loop gives the classification tally |
| ClassificationReport.CountBuckets | inventory_analytics/reports/item_classification_report/item_classification_report.py:254-262 | the counting loop gives the priority tally |
| ClassificationReport.CalculateSummary | inventory_analytics/reports/item_classification_report/item_classification_report.py:234-264 | no rows give no summary. Otherwise: the row count, the three column sums and both tallies |

## Left out

- scikit-learn: `StandardScaler`, `DBSCAN.fit_predict`, `KMeans.fit_predict` and `silhouette_score` are not modelled. The cluster ids they produce are an input (`clusters`, with -1 for noise). Their refusals are: KMeans with fewer rows than `kmeans_n_clusters`, and the silhouette score with fewer than 2 or more than n − 1 distinct labels; these are modelled as the error `KmeansFailed`. The hybrid's one-row DBSCAN is modelled by its known result: a lone point is noise exactly when `min_samples` exceeds 1.
- Frappe and the database: `frappe.get_doc`, `frappe.db.sql`, `frappe.utils.today`/`add_days`, whitelisting and document hooks. SQL execution is left out; the report stops at the clause and parameters. Today's date and the clock are integer parameters (`today`, `now`).
- Frappe's `cint`/`flt` string parsing is not modelled; it is given as the parameters `parseInt` and `parseReal`.
- Square roots are a parameter with the `IsSqrt` contract, because Dafny has no real square root.
- `before_save`, `after_insert`, `fetch_item_details`, `load_item_metrics`, `generate_insights`, `get_key_metrics` and the module-level whitelisted functions (`get_item_metrics`, `get_item_stock`, `run_classification`, `generate_insights`, `validate_item_data`, `get_sales_metrics`, `get_first_sale_date`): they read from or write to the database and hold no decision logic beyond what is modelled.
- `execute` and `get_columns` of the report: these are column layout and plumbing. The unreachable loop after `calculate_summary`'s return is not modelled either.
- Free-text reasons and messages are tags (`Reason`, `Advice`), not formatted strings. `model_version`, `analysis_date`, `uom`, dates and other pass-through record fields are omitted.
- The report's `ORDER BY`, `COALESCE` defaults and `docstatus` filter are in the SQL text, which is not modelled.
- NaN, infinities and floating-point rounding: numbers are exact reals. `fillna(0)` is modelled as reading a missing figure as 0.
- Exceptions inside `run_classification` are a boolean parameter (`lookupFails`), which covers the failing `frappe.get_doc`. Availability of the model import is the parameter `modelAvailable`.
- The hybrid's branch for an empty DBSCAN result (default 0.5 confidence) cannot be reached, because the one-row batch always yields a record. It is not modelled.
- Logging is left out.
- DemandPattern.ClassifyDemandPatterns: the record carries `item_code` but not `item_name`, a display field; recommendation details are not modelled.
- DemandPattern.ClassifyDemandPatterns: requires every month to be non-negative (`ValidRow`, `IsSeries`), although inventory_analytics/models/demand_pattern_model.py:88 reads the months unchecked, and its callers can pass negative net-return months or hand-edited figures. Negative months are not modelled. With them the source can average an empty list of positives to NaN (:176) when no month is positive but some is negative. It can also forecast below the floored lower bound: `[1,1,1,1,1,1,1,1,1,-100,50,50]` is ERRATIC with forecast -25 and lower bound 0. So the ordered interval that `GenerateForecast` and `DemandRecordInvariants` prove holds only on non-negative months.
- HealthScoring.CalculateHealthScore: does not state `repeat_customers_pct` and `sales_vs_target_pct`, which are display ratios computed in the body.
- ItemClassificationDoc.ItemClassificationDocument.CalculateDerivedMetrics: the item age comes from an optional parameter that stands for the `Item` lookup. `first_sale_date` and `days_to_first_sale` are not modelled.
- ItemClassificationDoc.ItemClassificationDocument.RunClassification: `model_version` is not copied.
- ItemClassification.HybridRecord: requires non-negative FAST thresholds and `dbscan_min_samples` of at least 1 (`ValidConfig`). With a negative threshold a FAST confidence can fall to 0 or below, and the vote total can then be 0; that division by zero is not modelled. DBSCAN's refusal of `min_samples` below 1 is not modelled either. The same precondition sits on `VotedRecord`, `ClassifyHybridRow` and `ClassifyHybrid`.
- ItemClassification.ResultsFor: requires `ValidConfig` for the `hybrid` name only, for the reason given under `HybridRecord`.
- ItemClassification.ItemClassificationModel.ClassifyItems: requires `ValidConfig` for the `hybrid` name only, for the reason given under `HybridRecord`.
