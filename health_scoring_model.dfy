/** The new-item health scorer: four banded component scores (sales against
    target, customer acquisition, stock adequacy, week-over-week growth), their
    weighted composite, the health status and life stage derived from it, and
    the recommendation that combines the two. */
module HealthScoring {
  import opened Numeric

  datatype HealthStatus = Critical | AtRisk | Caution | Healthy
  datatype LifeStage = Launch | Learning | Graduation | Established

  datatype HealthAction =
    | NoAction
    | UrgentInterventionRequired
    | CloseMonitoringRequired
    | OptimizeInventory
    | MaintainCurrentStrategy
    | AggressiveMarketing
    | MarketExpansion
    | OptimizeSupplyChain
    | MaintainStandardOperations

  /** The scorer's configuration dictionary (site and currency are not used by any score). */
  datatype HealthConfig = HealthConfig(
    weightSales: real, weightCustomers: real, weightStock: real, weightGrowth: real,
    salesExcellent: real, salesGood: real, salesFair: real, salesPoor: real, salesCritical: real,
    customersExcellent: int, customersGood: int, customersFair: int, customersPoor: int,
    dosOptimalMin: real, dosOptimalMax: real, dosWarningMax: real, dosCriticalMax: real,
    growthExcellent: real, growthGood: real, growthFair: real, growthPoor: real, growthCritical: real,
    launchMaxDays: int, learningMaxDays: int, graduationMaxDays: int,
    healthCriticalMax: real, healthAtRiskMax: real, healthHealthyMin: real)

  const DefaultHealthConfig := HealthConfig(
    0.40, 0.30, 0.20, 0.10,
    1.20, 0.95, 0.70, 0.50, 0.30,
    50, 30, 15, 5,
    7.0, 60.0, 90.0, 180.0,
    0.20, 0.10, 0.00, -0.10, -0.20,
    30, 90, 180,
    30.0, 60.0, 80.0)

  /** Weights that are non-negative and sum to one, band thresholds in order,
      and a positive lower bound of the optimal stock range (it is a divisor). */
  predicate ValidHealthConfig(c: HealthConfig)
  {
    && c.weightSales >= 0.0 && c.weightCustomers >= 0.0
    && c.weightStock >= 0.0 && c.weightGrowth >= 0.0
    && c.weightSales + c.weightCustomers + c.weightStock + c.weightGrowth == 1.0
    && c.salesExcellent >= c.salesGood >= c.salesFair >= c.salesPoor >= c.salesCritical
    && 0.0 < c.dosOptimalMin <= c.dosOptimalMax <= c.dosWarningMax <= c.dosCriticalMax
    && c.growthExcellent >= c.growthGood >= c.growthFair >= c.growthPoor >= c.growthCritical
    && c.launchMaxDays <= c.learningMaxDays <= c.graduationMaxDays
    && c.healthCriticalMax <= c.healthAtRiskMax < c.healthHealthyMin
  }

  lemma DefaultHealthConfigValid()
    ensures ValidHealthConfig(DefaultHealthConfig)
  {
  }

  /** One item's launch metrics; a missing key takes the default that `dict.get` supplies. */
  datatype NewItemMetrics = NewItemMetrics(
    itemCode: string,
    itemName: string,
    ageDays: Option<int>,          // default 0
    actualSales: Option<real>,     // default 0
    targetSales: Option<real>,     // default 1
    uniqueCustomers: Option<int>,  // default 0
    repeatCustomers: Option<int>,  // default 0
    currentStock: Option<real>,    // default 0
    avgMonthlySales: Option<real>, // default 1
    salesLastWeek: Option<real>,   // default 0
    salesPriorWeek: Option<real>)  // default 1

  // ---------------------------------------------------------------------------
  // Component 1: sales performance
  // ---------------------------------------------------------------------------

  /** Actual sales as a fraction of target; zero when the target is not positive. */
  function SalesRatio(actual: real, target: real): (r: real)
    ensures target > 0.0 ==> r * target == actual
    ensures target <= 0.0 ==> r == 0.0
  {
    if target > 0.0 then actual / target else 0.0
  }

  /** The first band whose threshold the ratio reaches decides the score. */
  function SalesBand(c: HealthConfig, ratio: real): (r: real)
    ensures r in {0.0, 15.0, 35.0, 60.0, 85.0, 100.0}
    ensures r == 100.0 <==> ratio >= c.salesExcellent
    ensures r == 85.0 <==> ratio < c.salesExcellent && ratio >= c.salesGood
    ensures r == 60.0 <==> ratio < c.salesExcellent && ratio < c.salesGood && ratio >= c.salesFair
    ensures r == 35.0 <==> ratio < c.salesExcellent && ratio < c.salesGood && ratio < c.salesFair
                           && ratio >= c.salesPoor
    ensures r == 15.0 <==> ratio < c.salesExcellent && ratio < c.salesGood && ratio < c.salesFair
                           && ratio < c.salesPoor && ratio >= c.salesCritical
    ensures r == 0.0 <==> ratio < c.salesCritical && ratio < c.salesPoor && ratio < c.salesFair
                          && ratio < c.salesGood && ratio < c.salesExcellent
  {
    if ratio >= c.salesExcellent then 100.0
    else if ratio >= c.salesGood then 85.0
    else if ratio >= c.salesFair then 60.0
    else if ratio >= c.salesPoor then 35.0
    else if ratio >= c.salesCritical then 15.0
    else 0.0
  }

  /** With ordered thresholds a higher achievement never scores lower. */
  lemma SalesBandMonotone(c: HealthConfig, a: real, b: real)
    requires ValidHealthConfig(c)
    requires a <= b
    ensures SalesBand(c, a) <= SalesBand(c, b)
  {
  }

  function ScoreSalesPerformance(c: HealthConfig, item: NewItemMetrics): (r: real)
    ensures 0.0 <= r <= 100.0
    ensures item.targetSales.GetOr(1.0) <= 0.0 ==> r == SalesBand(c, 0.0)
  {
    SalesBand(c, SalesRatio(item.actualSales.GetOr(0.0), item.targetSales.GetOr(1.0)))
  }

  // ---------------------------------------------------------------------------
  // Component 2: customer acquisition
  // ---------------------------------------------------------------------------

  /** The first customer-count threshold reached decides the score; below all of them it is 15. */
  function CustomerBand(c: HealthConfig, unique: int): (r: real)
    ensures r in {15.0, 35.0, 60.0, 85.0, 100.0}
    ensures r == 100.0 <==> unique >= c.customersExcellent
    ensures r == 85.0 <==> unique < c.customersExcellent && unique >= c.customersGood
    ensures r == 60.0 <==> unique < c.customersExcellent && unique < c.customersGood && unique >= c.customersFair
    ensures r == 35.0 <==> unique < c.customersExcellent && unique < c.customersGood && unique < c.customersFair
                           && unique >= c.customersPoor
    ensures r == 15.0 <==> unique < c.customersExcellent && unique < c.customersGood && unique < c.customersFair
                           && unique < c.customersPoor
  {
    if unique >= c.customersExcellent then 100.0
    else if unique >= c.customersGood then 85.0
    else if unique >= c.customersFair then 60.0
    else if unique >= c.customersPoor then 35.0
    else 15.0
  }

  /** The retention bonus applies when some customers exist and more than half of them repeat. */
  predicate RetentionBonus(unique: int, repeat: int)
  {
    unique > 0 && repeat as real / unique as real > 0.5
  }

  /** The bonus condition in whole numbers: twice the repeat count exceeds the unique count. */
  lemma RetentionBonusIff(unique: int, repeat: int)
    requires unique > 0
    ensures RetentionBonus(unique, repeat) <==> 2 * repeat > unique
  {
    var q := repeat as real / unique as real;
    assert q * unique as real == repeat as real;
    MulStrictMono(q, 0.5, unique as real);
  }

  function ScoreCustomerAcquisition(c: HealthConfig, item: NewItemMetrics): (r: real)
    ensures var u := item.uniqueCustomers.GetOr(0);
            CustomerBand(c, u) <= r <= 100.0
    ensures var u := item.uniqueCustomers.GetOr(0);
            !RetentionBonus(u, item.repeatCustomers.GetOr(0)) ==> r == CustomerBand(c, u)
    ensures var u := item.uniqueCustomers.GetOr(0);
            RetentionBonus(u, item.repeatCustomers.GetOr(0)) ==> r == Min(100.0, CustomerBand(c, u) + 15.0)
  {
    var unique := item.uniqueCustomers.GetOr(0);
    var repeat := item.repeatCustomers.GetOr(0);
    var score := CustomerBand(c, unique);
    var score := if RetentionBonus(unique, repeat) then Min(100.0, score + 15.0) else score;
    Min(100.0, score)
  }

  // ---------------------------------------------------------------------------
  // Component 3: stock adequacy
  // ---------------------------------------------------------------------------

  /** Days of stock: the stock covers `stock / avg_monthly` months of thirty days; zero without sales. */
  function DaysOfStock(stock: real, avgMonthly: real): (r: real)
    ensures avgMonthly > 0.0 ==> r * avgMonthly == 30.0 * stock
    ensures avgMonthly <= 0.0 ==> r == 0.0
  {
    if avgMonthly > 0.0 then (stock / avgMonthly) * 30.0 else 0.0
  }

  function ItemDaysOfStock(item: NewItemMetrics): real
  {
    DaysOfStock(item.currentStock.GetOr(0.0), item.avgMonthlySales.GetOr(1.0))
  }

  function StockBand(c: HealthConfig, dos: real): (r: real)
    requires c.dosOptimalMin > 0.0
    ensures 0.0 <= r <= 100.0
    ensures r == 100.0 <==> c.dosOptimalMin <= dos <= c.dosOptimalMax
    ensures dos < c.dosOptimalMin ==> 30.0 <= r < 100.0
    ensures dos < c.dosOptimalMin ==>
      r == Max(30.0, 100.0 - ((c.dosOptimalMin - dos) / c.dosOptimalMin) * 100.0 * 2.0)
    ensures c.dosOptimalMax < dos <= c.dosWarningMax && c.dosOptimalMin <= dos ==> r == 75.0
    ensures (c.dosOptimalMin <= dos && dos > c.dosOptimalMax && dos > c.dosWarningMax
             && dos <= c.dosCriticalMax) ==> r == 45.0
    ensures (c.dosOptimalMin <= dos && dos > c.dosOptimalMax && dos > c.dosWarningMax
             && dos > c.dosCriticalMax) ==> r == 15.0
  {
    if c.dosOptimalMin <= dos <= c.dosOptimalMax then 100.0
    else if dos < c.dosOptimalMin then
      var shortfall := c.dosOptimalMin - dos;
      var stockOutRisk := (shortfall / c.dosOptimalMin) * 100.0;
      assert stockOutRisk > 0.0 by {
        MulStrictMono(shortfall / c.dosOptimalMin, 0.0, c.dosOptimalMin);
      }
      Max(30.0, 100.0 - stockOutRisk * 2.0)
    else if dos <= c.dosWarningMax then 75.0
    else if dos <= c.dosCriticalMax then 45.0
    else 15.0
  }

  function ScoreStockAdequacy(c: HealthConfig, item: NewItemMetrics): (r: real)
    requires c.dosOptimalMin > 0.0
    ensures 0.0 <= r <= 100.0
    ensures item.avgMonthlySales.GetOr(1.0) <= 0.0 ==> r == 30.0
  {
    StockBand(c, ItemDaysOfStock(item))
  }

  // ---------------------------------------------------------------------------
  // Component 4: growth trend
  // ---------------------------------------------------------------------------

  /** Week-over-week growth as a fraction of the prior week; zero without prior sales. */
  function GrowthTrend(last: real, prior: real): (r: real)
    ensures prior > 0.0 ==> r * prior == last - prior
    ensures prior <= 0.0 ==> r == 0.0
  {
    if prior > 0.0 then (last - prior) / prior else 0.0
  }

  function ItemGrowthTrend(item: NewItemMetrics): real
  {
    GrowthTrend(item.salesLastWeek.GetOr(0.0), item.salesPriorWeek.GetOr(1.0))
  }

  /** The first growth threshold reached decides the score; below all of them it is 5. */
  function GrowthBand(c: HealthConfig, growth: real): (r: real)
    ensures r in {5.0, 20.0, 45.0, 70.0, 85.0, 100.0}
    ensures r == 100.0 <==> growth >= c.growthExcellent
    ensures r == 85.0 <==> growth < c.growthExcellent && growth >= c.growthGood
    ensures r == 70.0 <==> growth < c.growthExcellent && growth < c.growthGood && growth >= c.growthFair
    ensures r == 45.0 <==> growth < c.growthExcellent && growth < c.growthGood && growth < c.growthFair
                           && growth >= c.growthPoor
    ensures r == 20.0 <==> growth < c.growthExcellent && growth < c.growthGood && growth < c.growthFair
                           && growth < c.growthPoor && growth >= c.growthCritical
    ensures r == 5.0 <==> growth < c.growthExcellent && growth < c.growthGood && growth < c.growthFair
                          && growth < c.growthPoor && growth < c.growthCritical
  {
    if growth >= c.growthExcellent then 100.0
    else if growth >= c.growthGood then 85.0
    else if growth >= c.growthFair then 70.0
    else if growth >= c.growthPoor then 45.0
    else if growth >= c.growthCritical then 20.0
    else 5.0
  }

  lemma GrowthBandMonotone(c: HealthConfig, a: real, b: real)
    requires ValidHealthConfig(c)
    requires a <= b
    ensures GrowthBand(c, a) <= GrowthBand(c, b)
  {
  }

  function ScoreGrowthTrend(c: HealthConfig, item: NewItemMetrics): (r: real)
    ensures 0.0 <= r <= 100.0
    ensures item.salesPriorWeek.GetOr(1.0) <= 0.0 ==> r == GrowthBand(c, 0.0)
  {
    GrowthBand(c, ItemGrowthTrend(item))
  }

  /** With the default bands, an item without prior-week sales counts as stable. */
  lemma NoPriorWeekIsStable(item: NewItemMetrics)
    requires item.salesPriorWeek.GetOr(1.0) <= 0.0
    ensures ScoreGrowthTrend(DefaultHealthConfig, item) == 70.0
  {
  }

  // ---------------------------------------------------------------------------
  // Composite, status and life stage
  // ---------------------------------------------------------------------------

  /** A non-negative weight times a score in [0, 100] lies in [0, weight * 100]. */
  lemma WeightedScoreBounds(w: real, s: real, p: real)
    requires w >= 0.0 && 0.0 <= s <= 100.0
    requires p == s * w
    ensures 0.0 <= p <= 100.0 * w
  {
    assert 100.0 * w - p == (100.0 - s) * w;
  }

  function WeightedSum(c: HealthConfig, sales: real, customers: real, stock: real, growth: real): real
  {
    sales * c.weightSales + customers * c.weightCustomers + stock * c.weightStock + growth * c.weightGrowth
  }

  /** Four parts each within their weight's share of 100 add up to at most 100
      when the weights sum to one. */
  lemma PartsBounds(a: real, b: real, d: real, e: real, wa: real, wb: real, wd: real, we: real)
    requires 0.0 <= a <= 100.0 * wa && 0.0 <= b <= 100.0 * wb
    requires 0.0 <= d <= 100.0 * wd && 0.0 <= e <= 100.0 * we
    requires wa + wb + wd + we == 1.0
    ensures 0.0 <= a + b + d + e <= 100.0
  {
  }

  /** Non-negative weights summing to one keep the weighted sum of [0, 100] scores in [0, 100]. */
  lemma WeightedSumBounds(c: HealthConfig, sales: real, customers: real, stock: real, growth: real)
    requires ValidHealthConfig(c)
    requires 0.0 <= sales <= 100.0 && 0.0 <= customers <= 100.0
    requires 0.0 <= stock <= 100.0 && 0.0 <= growth <= 100.0
    ensures 0.0 <= WeightedSum(c, sales, customers, stock, growth) <= 100.0
  {
    var a, b, d, e := sales * c.weightSales, customers * c.weightCustomers,
                      stock * c.weightStock, growth * c.weightGrowth;
    WeightedScoreBounds(c.weightSales, sales, a);
    WeightedScoreBounds(c.weightCustomers, customers, b);
    WeightedScoreBounds(c.weightStock, stock, d);
    WeightedScoreBounds(c.weightGrowth, growth, e);
    PartsBounds(a, b, d, e, c.weightSales, c.weightCustomers, c.weightStock, c.weightGrowth);
  }

  /** The unrounded weighted composite of the four component scores. */
  function Composite(c: HealthConfig, item: NewItemMetrics): (r: real)
    requires ValidHealthConfig(c)
    ensures 0.0 <= r <= 100.0
  {
    var sales, customers := ScoreSalesPerformance(c, item), ScoreCustomerAcquisition(c, item);
    var stock, growth := ScoreStockAdequacy(c, item), ScoreGrowthTrend(c, item);
    WeightedSumBounds(c, sales, customers, stock, growth);
    WeightedSum(c, sales, customers, stock, growth)
  }

  /** `int(round(composite))` stays within [0, 100]. */
  lemma HealthScoreBounds(c: HealthConfig, item: NewItemMetrics)
    requires ValidHealthConfig(c)
    ensures 0 <= RoundHalfEven(Composite(c, item)) <= 100
  {
    RoundStaysInRange(Composite(c, item), 0, 100);
  }

  function StatusOf(c: HealthConfig, score: real): (s: HealthStatus)
    ensures s == Critical <==> score <= c.healthCriticalMax
    ensures s == AtRisk <==> score > c.healthCriticalMax && score <= c.healthAtRiskMax
    ensures s == Caution <==> score > c.healthCriticalMax && score > c.healthAtRiskMax && score < c.healthHealthyMin
    ensures s == Healthy <==> score > c.healthCriticalMax && score > c.healthAtRiskMax && score >= c.healthHealthyMin
  {
    if score <= c.healthCriticalMax then Critical
    else if score <= c.healthAtRiskMax then AtRisk
    else if score < c.healthHealthyMin then Caution
    else Healthy
  }

  function StatusRank(s: HealthStatus): nat
  {
    match s
    case Critical => 0
    case AtRisk => 1
    case Caution => 2
    case Healthy => 3
  }

  /** A higher composite never gives a worse status. */
  lemma StatusMonotone(c: HealthConfig, a: real, b: real)
    requires ValidHealthConfig(c)
    requires a <= b
    ensures StatusRank(StatusOf(c, a)) <= StatusRank(StatusOf(c, b))
  {
  }

  function StageOf(c: HealthConfig, ageDays: int): (s: LifeStage)
    ensures s == Launch <==> ageDays <= c.launchMaxDays
    ensures s == Learning <==> ageDays > c.launchMaxDays && ageDays <= c.learningMaxDays
    ensures s == Graduation <==> ageDays > c.launchMaxDays && ageDays > c.learningMaxDays
                                 && ageDays <= c.graduationMaxDays
    ensures s == Established <==> ageDays > c.launchMaxDays && ageDays > c.learningMaxDays
                                  && ageDays > c.graduationMaxDays
  {
    if ageDays <= c.launchMaxDays then Launch
    else if ageDays <= c.learningMaxDays then Learning
    else if ageDays <= c.graduationMaxDays then Graduation
    else Established
  }

  function StageRank(s: LifeStage): nat
  {
    match s
    case Launch => 0
    case Learning => 1
    case Graduation => 2
    case Established => 3
  }

  /** An older item is never in an earlier life stage. */
  lemma StageMonotone(c: HealthConfig, a: int, b: int)
    requires ValidHealthConfig(c)
    requires a <= b
    ensures StageRank(StageOf(c, a)) <= StageRank(StageOf(c, b))
  {
  }

  // ---------------------------------------------------------------------------
  // Recommendations
  // ---------------------------------------------------------------------------

  datatype Recommendations = Recommendations(
    action: HealthAction, priority: int, metrics: seq<string>, warnings: seq<string>)

  /** The action the status alone sets. */
  function BaselineAction(status: HealthStatus): HealthAction
  {
    match status
    case Critical => UrgentInterventionRequired
    case AtRisk => CloseMonitoringRequired
    case Caution => OptimizeInventory
    case Healthy => MaintainCurrentStrategy
  }

  /** The priority the status alone sets: the worse the status, the higher. */
  function BaselinePriority(status: HealthStatus): (p: int)
    ensures 2 <= p <= 10
    ensures p == 10 <==> status == Critical
    ensures p == 2 <==> status == Healthy
  {
    match status
    case Critical => 10
    case AtRisk => 8
    case Caution => 5
    case Healthy => 2
  }

  /** The warnings the status adds: three for CRITICAL and AT_RISK, one for CAUTION,
      none for a HEALTHY item. */
  function BaselineWarnings(status: HealthStatus): (w: seq<string>)
    ensures |w| == (if status == Healthy then 0 else if status == Caution then 1 else 3)
  {
    match status
    case Critical =>
      ["Health score < 30 - item may fail",
       "Review launch strategy and market positioning",
       "Consider product adjustments or discontinuation"]
    case AtRisk =>
      ["Health score 30-60 - monitor closely",
       "Increase marketing efforts",
       "Gather customer feedback for improvements"]
    case Caution => ["Health score 60-80 - needs optimization"]
    case Healthy => []
  }

  /** The life stage's action, replacing the status's. */
  function StageAction(stage: LifeStage): HealthAction
  {
    match stage
    case Launch => AggressiveMarketing
    case Learning => MarketExpansion
    case Graduation => OptimizeSupplyChain
    case Established => MaintainStandardOperations
  }

  /** The life stage's two key metrics. */
  function StageMetrics(stage: LifeStage): (m: seq<string>)
    ensures |m| == 2
  {
    match stage
    case Launch => ["Focus on customer acquisition", "Expected: 20-30% weekly growth"]
    case Learning => ["Scale marketing campaigns", "Target new customer segments"]
    case Graduation => ["Optimize ordering and inventory", "Stabilize supply from suppliers"]
    case Established => ["Monitor for market changes", "Maintain competitive pricing"]
  }

  /** The final priority: the stage raises the baseline to its floor (7, 6, 4), or,
      for ESTABLISHED, sets it to 2. */
  function StagePriority(base: int, stage: LifeStage): (p: int)
    ensures stage != Established ==> p >= base
    ensures stage == Launch ==> p >= 7
    ensures stage == Learning ==> p >= 6
    ensures stage == Graduation ==> p >= 4
    ensures stage == Established ==> p == 2
    ensures stage != Established && p != base ==> p == StageFloor(stage)
  {
    match stage
    case Launch => if base >= 7 then base else 7
    case Learning => if base >= 6 then base else 6
    case Graduation => if base >= 4 then base else 4
    case Established => 2
  }

  function StageFloor(stage: LifeStage): int
  {
    match stage
    case Launch => 7
    case Learning => 6
    case Graduation => 4
    case Established => 2
  }

  /** The recommendation for a status and a stage: the stage's action and metrics,
      the status's warnings, and the stage-adjusted priority. */
  function Recommend(status: HealthStatus, stage: LifeStage): (r: Recommendations)
    ensures r.action == StageAction(stage)
    ensures r.warnings == BaselineWarnings(status)
    ensures r.metrics == StageMetrics(stage)
    ensures r.priority == StagePriority(BaselinePriority(status), stage)
  {
    Recommendations(StageAction(stage), StagePriority(BaselinePriority(status), stage),
                    StageMetrics(stage), BaselineWarnings(status))
  }

  /** A worse status never gets a lower baseline priority. */
  lemma BaselinePriorityMonotone(better: HealthStatus, worse: HealthStatus)
    requires StatusRank(worse) <= StatusRank(better)
    ensures BaselinePriority(worse) >= BaselinePriority(better)
  {
  }

  /** ESTABLISHED sets priority 2 whatever the status, even below a CRITICAL item's 10. */
  lemma EstablishedForcesPriorityTwo(status: HealthStatus)
    ensures Recommend(status, Established).priority == 2
    ensures Recommend(Critical, Established).priority < BaselinePriority(Critical)
  {
  }

  /** Builds the status part of the recommendation step by step. */
  method StatusBaseline(status: HealthStatus) returns (action: HealthAction, priority: int, warnings: seq<string>)
    ensures action == BaselineAction(status)
    ensures priority == BaselinePriority(status)
    ensures warnings == BaselineWarnings(status)
  {
    warnings := [];
    if status == Critical {
      action := UrgentInterventionRequired;
      priority := 10;
      warnings := warnings + ["Health score < 30 - item may fail"];
      warnings := warnings + ["Review launch strategy and market positioning"];
      warnings := warnings + ["Consider product adjustments or discontinuation"];
    } else if status == AtRisk {
      action := CloseMonitoringRequired;
      priority := 8;
      warnings := warnings + ["Health score 30-60 - monitor closely"];
      warnings := warnings + ["Increase marketing efforts"];
      warnings := warnings + ["Gather customer feedback for improvements"];
    } else if status == Caution {
      action := OptimizeInventory;
      priority := 5;
      warnings := warnings + ["Health score 60-80 - needs optimization"];
    } else {
      action := MaintainCurrentStrategy;
      priority := 2;
    }
  }

  /** Builds the life stage's part of the recommendation over a baseline priority. */
  method StageOverride(stage: LifeStage, base: int) returns (action: HealthAction, priority: int, metrics: seq<string>)
    ensures action == StageAction(stage)
    ensures priority == StagePriority(base, stage)
    ensures metrics == StageMetrics(stage)
  {
    metrics := [];
    priority := base;
    if stage == Launch {
      action := AggressiveMarketing;
      priority := if priority >= 7 then priority else 7;
      metrics := metrics + ["Focus on customer acquisition"];
      metrics := metrics + ["Expected: 20-30% weekly growth"];
    } else if stage == Learning {
      action := MarketExpansion;
      priority := if priority >= 6 then priority else 6;
      metrics := metrics + ["Scale marketing campaigns"];
      metrics := metrics + ["Target new customer segments"];
    } else if stage == Graduation {
      action := OptimizeSupplyChain;
      priority := if priority >= 4 then priority else 4;
      metrics := metrics + ["Optimize ordering and inventory"];
      metrics := metrics + ["Stabilize supply from suppliers"];
    } else {
      action := MaintainStandardOperations;
      priority := 2;
      metrics := metrics + ["Monitor for market changes"];
      metrics := metrics + ["Maintain competitive pricing"];
    }
  }

  /** Builds the recommendation dictionary as the scorer does: the status part
      first, then the life stage's override of action and priority. */
  method GenerateRecommendations(status: HealthStatus, stage: LifeStage) returns (rec: Recommendations)
    ensures rec == Recommend(status, stage)
  {
    var baseAction, basePriority, warnings := StatusBaseline(status);
    var action, priority, metrics := StageOverride(stage, basePriority);
    rec := Recommendations(action, priority, metrics, warnings);
  }

  // ---------------------------------------------------------------------------
  // The health score result
  // ---------------------------------------------------------------------------

  datatype HealthScoreResult = HealthScoreResult(
    itemCode: string,
    itemName: string,
    healthScore: int,
    status: HealthStatus,
    stage: LifeStage,
    ageDays: int,
    salesScore: int,
    customerScore: int,
    stockScore: int,
    growthScore: int,
    totalCustomers: int,
    repeatCustomersPct: real,
    salesVsTargetPct: real,
    daysOfStock: real,
    growthTrend: real,
    action: HealthAction,
    priority: int,
    keyMetrics: seq<string>,
    warnings: seq<string>)

  /** Scores one item: the composite is rounded half to even, while status is
      read from the unrounded composite. */
  method CalculateHealthScore(c: HealthConfig, item: NewItemMetrics) returns (r: HealthScoreResult)
    requires ValidHealthConfig(c)
    ensures 0 <= r.healthScore <= 100
    ensures r.healthScore == RoundHalfEven(Composite(c, item))
    ensures r.status == StatusOf(c, Composite(c, item))
    ensures r.stage == StageOf(c, item.ageDays.GetOr(0))
    ensures 0 <= r.salesScore <= 100 && 0 <= r.customerScore <= 100
    ensures 0 <= r.stockScore <= 100 && 0 <= r.growthScore <= 100
    ensures r.salesScore == RoundHalfEven(ScoreSalesPerformance(c, item))
    ensures r.customerScore == RoundHalfEven(ScoreCustomerAcquisition(c, item))
    ensures r.stockScore == RoundHalfEven(ScoreStockAdequacy(c, item))
    ensures r.growthScore == RoundHalfEven(ScoreGrowthTrend(c, item))
    ensures r.action == StageAction(r.stage)
    ensures r.priority == Recommend(r.status, r.stage).priority
    ensures r.warnings == BaselineWarnings(r.status)
    ensures r.daysOfStock == ItemDaysOfStock(item) && r.growthTrend == ItemGrowthTrend(item)
    ensures r.keyMetrics == StageMetrics(r.stage)
    ensures r.itemCode == item.itemCode && r.itemName == item.itemName && r.ageDays == item.ageDays.GetOr(0)
    ensures r.totalCustomers == item.uniqueCustomers.GetOr(0)
  {
    var sales := ScoreSalesPerformance(c, item);
    var customers := ScoreCustomerAcquisition(c, item);
    var stock := ScoreStockAdequacy(c, item);
    var growth := ScoreGrowthTrend(c, item);
    var composite := WeightedSum(c, sales, customers, stock, growth);
    var status := StatusOf(c, composite);
    var stage := StageOf(c, item.ageDays.GetOr(0));
    var rec := GenerateRecommendations(status, stage);

    WeightedSumBounds(c, sales, customers, stock, growth);
    RoundStaysInRange(composite, 0, 100);
    RoundStaysInRange(sales, 0, 100);
    RoundStaysInRange(customers, 0, 100);
    RoundStaysInRange(stock, 0, 100);
    RoundStaysInRange(growth, 0, 100);

    var unique := item.uniqueCustomers.GetOr(0);
    var uniqueFloor := if unique >= 1 then unique else 1;
    var target := item.targetSales.GetOr(1.0);
    r := HealthScoreResult(
      item.itemCode, item.itemName,
      RoundHalfEven(composite), status, stage, item.ageDays.GetOr(0),
      RoundHalfEven(sales), RoundHalfEven(customers), RoundHalfEven(stock), RoundHalfEven(growth),
      unique,
      (item.repeatCustomers.GetOr(0) as real / uniqueFloor as real) * 100.0,
      (item.actualSales.GetOr(0.0) / Max(target, 1.0)) * 100.0,
      ItemDaysOfStock(item), ItemGrowthTrend(item),
      rec.action, rec.priority, rec.metrics, rec.warnings);
  }

  // ---------------------------------------------------------------------------
  // The first sample item
  // ---------------------------------------------------------------------------

  /** HYD-001 "Pump A": 15 days old, 500 sold against 400, 35 customers of whom 15 repeat. */
  const PumpA := NewItemMetrics("HYD-001", "Pump A", Some(15), Some(500.0), Some(400.0),
                                Some(35), Some(15), Some(200.0), Some(150.0), Some(60.0), Some(55.0))

  /** Pump A scores 100/85/100/70, a composite of 92.5 that rounds to the even 92:
      HEALTHY, in LAUNCH, hence AGGRESSIVE_MARKETING at priority 7. Its 15 of 35
      repeat customers fall short of the retention bonus. */
  lemma PumpAHealth()
    ensures ScoreSalesPerformance(DefaultHealthConfig, PumpA) == 100.0
    ensures !RetentionBonus(35, 15) && ScoreCustomerAcquisition(DefaultHealthConfig, PumpA) == 85.0
    ensures ScoreStockAdequacy(DefaultHealthConfig, PumpA) == 100.0
    ensures ScoreGrowthTrend(DefaultHealthConfig, PumpA) == 70.0
    ensures Composite(DefaultHealthConfig, PumpA) == 92.5
    ensures RoundHalfEven(Composite(DefaultHealthConfig, PumpA)) == 92
    ensures StatusOf(DefaultHealthConfig, 92.5) == Healthy
    ensures StageOf(DefaultHealthConfig, 15) == Launch
    ensures Recommend(Healthy, Launch).action == AggressiveMarketing
    ensures Recommend(Healthy, Launch).priority == 7
  {
    DefaultHealthConfigValid();
    RetentionBonusIff(35, 15);
    assert SalesRatio(500.0, 400.0) == 1.25;
    assert DaysOfStock(200.0, 150.0) == 40.0;
    var g := GrowthTrend(60.0, 55.0);
    assert g * 55.0 == 5.0;
    assert 0.0 <= g < 0.10;
  }
}
