/** The Syntetos-Boylan-Croston demand-pattern classifier: ADI and CV² over twelve
    monthly quantities (oldest first), the four-quadrant label, a per-pattern 30-day
    forecast with its interval, safety stock, reorder point, Harris EOQ and the
    ordering advice. Square roots come from an oracle the caller supplies. */
module DemandPattern {
  import opened Numeric

  datatype Pattern = Smooth | Erratic | Intermittent | Lumpy | Unrecognised(name: string)

  /** The four labels the SBC quadrants produce. */
  predicate IsSbcPattern(p: Pattern)
  {
    p == Smooth || p == Erratic || p == Intermittent || p == Lumpy
  }

  datatype ForecastMethod = NoMethod | MovingAverage | WeightedAverage | Crostons | ExponentialSmoothing

  datatype DemandConfig = DemandConfig(
    adiThreshold: real,
    cv2Threshold: real,
    leadTimeDays: nat,
    zSmooth: real,
    zErratic: real,
    zIntermittent: real,
    zLumpy: real)

  const DefaultDemandConfig := DemandConfig(1.32, 0.49, 7, 1.65, 2.33, 2.33, 2.58)

  /** Safety-stock multipliers are z-scores of service levels above one half. */
  predicate ValidDemandConfig(c: DemandConfig)
  {
    c.zSmooth >= 0.0 && c.zErratic >= 0.0 && c.zIntermittent >= 0.0 && c.zLumpy >= 0.0
  }

  /** A monthly series: twelve non-negative quantities. */
  predicate IsSeries(ms: seq<real>)
  {
    |ms| == 12 && AllNonNegative(ms)
  }

  // ---------------------------------------------------------------------------
  // Classification

  datatype Sbc = Sbc(adi: real, cv2: real, pattern: Pattern)

  /** The two thresholds split the (ADI, CV²) plane into four quadrants. */
  function Quadrant(c: DemandConfig, adi: real, cv2: real): (p: Pattern)
    ensures IsSbcPattern(p)
    ensures p == Smooth <==> adi <= c.adiThreshold && cv2 <= c.cv2Threshold
    ensures p == Erratic <==> adi <= c.adiThreshold && cv2 > c.cv2Threshold
    ensures p == Intermittent <==> adi > c.adiThreshold && cv2 <= c.cv2Threshold
    ensures p == Lumpy <==> adi > c.adiThreshold && cv2 > c.cv2Threshold
  {
    if adi <= c.adiThreshold && cv2 <= c.cv2Threshold then Smooth
    else if adi <= c.adiThreshold && cv2 > c.cv2Threshold then Erratic
    else if adi > c.adiThreshold && cv2 <= c.cv2Threshold then Intermittent
    else Lumpy
  }

  /** `(np.std(nz) / np.mean(nz)) ** 2` for positive values: the population variance
      divided twice by the mean. */
  function CvSquared(nz: seq<real>): (cv2: real)
    requires |nz| > 0 && forall i :: 0 <= i < |nz| ==> nz[i] > 0.0
    ensures cv2 >= 0.0
    ensures PopVariance(nz) == 0.0 <==> cv2 == 0.0
  {
    MeanAbove(nz, 0.0);
    PopVariance(nz) / Mean(nz) / Mean(nz)
  }

  /** `12 / len(non_zero)`: the average demand interval over a year with `n` non-zero
      months, between 1 and 12 when there are at most twelve. */
  function Adi(n: nat): (adi: real)
    requires n > 0
    ensures adi * n as real == 12.0
    ensures n <= 12 ==> 1.0 <= adi <= 12.0
  {
    var k := n as real;
    var adi := 12.0 / k;
    MulStrictMono(1.0, adi, k);
    MulStrictMono(adi, 12.0, k);
    adi
  }

  /** ADI and CV² of the non-zero months of a year and the quadrant they fall in. */
  function SbcOfNonZero(c: DemandConfig, nz: seq<real>): (r: Sbc)
    requires |nz| > 0 && forall i :: 0 <= i < |nz| ==> nz[i] > 0.0
    ensures r.adi * |nz| as real == 12.0 && r.cv2 >= 0.0
    ensures |nz| <= 12 ==> 1.0 <= r.adi <= 12.0
    ensures r.pattern == Quadrant(c, r.adi, r.cv2)
  {
    var adi := Adi(|nz|);
    var cv2 := CvSquared(nz);
    Sbc(adi, cv2, Quadrant(c, adi, cv2))
  }

  /** `_classify_sbc` */
  function ClassifySbc(c: DemandConfig, ms: seq<real>): (r: Sbc)
    ensures IsSbcPattern(r.pattern)
    ensures |Positives(ms)| == 0 ==> r == Sbc(0.0, 0.0, Lumpy)
    ensures |Positives(ms)| > 0 ==> r.adi * |Positives(ms)| as real == 12.0 && r.cv2 >= 0.0
    ensures |Positives(ms)| > 0 ==> r.pattern == Quadrant(c, r.adi, r.cv2)
    ensures |ms| == 12 && |Positives(ms)| > 0 ==> 1.0 <= r.adi <= 12.0
  {
    var nz := Positives(ms);
    if |nz| == 0 then Sbc(0.0, 0.0, Lumpy)
    else SbcOfNonZero(c, nz)
  }

  /** With the default threshold 1.32, demand is sparse (ADI above the threshold) exactly
      when fewer than ten of the twelve months had sales. */
  lemma SparseIffFewerThanTenMonths(ms: seq<real>)
    requires |Positives(ms)| > 0
    ensures ClassifySbc(DefaultDemandConfig, ms).adi > 1.32 <==> |Positives(ms)| < 10
  {
    AdiAboveThreshold(|Positives(ms)|);
  }

  /** The interval 12 / n exceeds 1.32 exactly when `n < 10`. */
  lemma AdiAboveThreshold(n: nat)
    requires n > 0
    ensures Adi(n) > 1.32 <==> n < 10
  {
    var k, adi := n as real, Adi(n);
    MulStrictMono(adi, 1.32, k);
    if n < 10 {
      assert 1.32 * k <= 1.32 * 9.0;
    } else {
      assert 1.32 * k >= 1.32 * 10.0;
    }
  }

  /** A sum of equal values. */
  lemma {:induction false} SumConstant(s: seq<real>, v: real)
    requires forall i :: 0 <= i < |s| ==> s[i] == v
    ensures Sum(s) == |s| as real * v
  {
    if s != [] {
      SumConstant(s[1..], v);
    }
  }

  /** Equal values have no spread: their mean is the value and their variance is 0. */
  lemma ConstantVariance(s: seq<real>, v: real)
    requires |s| > 0 && forall i :: 0 <= i < |s| ==> s[i] == v
    ensures Mean(s) == v && PopVariance(s) == 0.0
  {
    SumConstant(s, v);
    var d := SquaredDeviations(s, Mean(s));
    SumConstant(d, 0.0);
  }

  /** Nine equal non-zero months and three empty ones: ADI = 12/9 > 1.32 and CV² = 0,
      so the series is INTERMITTENT. */
  lemma NineEqualMonthsAreIntermittent(ms: seq<real>, v: real)
    requires v > 0.0 && |Positives(ms)| == 9
    requires forall i :: 0 <= i < |ms| ==> ms[i] == 0.0 || ms[i] == v
    ensures ClassifySbc(DefaultDemandConfig, ms) == Sbc(12.0 / 9.0, 0.0, Intermittent)
  {
    var nz := Positives(ms);
    forall i | 0 <= i < |nz| ensures nz[i] == v {
      assert nz[i] in nz;
    }
    ConstantVariance(nz, v);
    assert CvSquared(nz) == 0.0;
    var r := ClassifySbc(DefaultDemandConfig, ms);
    assert r.adi == 12.0 / 9.0;
    assert r.cv2 == 0.0;
  }

  // ---------------------------------------------------------------------------
  // Forecast

  /** `np.mean([s for s in ms if s > 0]) if any(ms) else 1` */
  function AvgMonthly(ms: seq<real>): (avg: real)
    requires AllNonNegative(ms)
    ensures avg > 0.0
    ensures |Positives(ms)| == 0 ==> avg == 1.0
    ensures |Positives(ms)| > 0 ==> avg * |Positives(ms)| as real == Sum(Positives(ms))
  {
    AnyNonZeroIffPositives(ms);
    if AnyNonZero(ms) then
      MeanAbove(Positives(ms), 0.0);
      Mean(Positives(ms))
    else 1.0
  }

  /** `np.std(ms)`: the population standard deviation. */
  function StdDev(ms: seq<real>, sqrt: real -> real): (sd: real)
    requires |ms| > 0 && IsSqrt(sqrt)
    ensures sd >= 0.0 && sd * sd == PopVariance(ms)
    ensures PopVariance(ms) == 0.0 ==> sd == 0.0
  {
    sqrt(PopVariance(ms))
  }

  datatype Forecast = Forecast(technique: ForecastMethod, forecast30d: real, ciLower: real, ciUpper: real)

  /** `sum(x * w for x, w in zip(xs, ws))` */
  function Dot(xs: seq<real>, ws: seq<real>): real
    requires |xs| == |ws|
  {
    if xs == [] then 0.0 else xs[0] * ws[0] + Dot(xs[1..], ws[1..])
  }

  /** The weights [0.5, 0.3, 0.2] applied in index order to `ms[-3:]`: the oldest of the
      three months weighs most. The result is a weighted average of those three months. */
  function WeightedRecent(ms: seq<real>): (w: real)
    requires |ms| == 12
    ensures w == 0.5 * ms[9] + 0.3 * ms[10] + 0.2 * ms[11]
    ensures Min(ms[9], Min(ms[10], ms[11])) <= w <= Max(ms[9], Max(ms[10], ms[11]))
  {
    var recent := ms[|ms| - 3..];
    var weights := [0.5, 0.3, 0.2];
    assert recent[1..][1..][1..] == [] && weights[1..][1..][1..] == [];
    assert Dot(recent[2..], weights[2..]) == ms[11] * 0.2 + Dot([], []);
    assert Dot(recent[1..], weights[1..]) == ms[10] * 0.3 + Dot(recent[2..], weights[2..]);
    Dot(recent, weights)
  }

  /** SMOOTH: the mean of the demand months, plus or minus 1.96 standard deviations of
      all twelve, the lower end floored at 0. */
  function SmoothForecast(ms: seq<real>, sqrt: real -> real): (f: Forecast)
    requires IsSeries(ms) && IsSqrt(sqrt)
    ensures f.technique == MovingAverage && f.forecast30d == AvgMonthly(ms)
    ensures 0.0 <= f.ciLower <= f.forecast30d <= f.ciUpper
    ensures f.ciUpper - f.forecast30d == 1.96 * StdDev(ms, sqrt)
    ensures f.ciLower == 0.0 || f.forecast30d - f.ciLower == 1.96 * StdDev(ms, sqrt)
  {
    var avg := AvgMonthly(ms);
    var sd := StdDev(ms, sqrt);
    Forecast(MovingAverage, avg, Max(0.0, avg - 1.96 * sd), avg + 1.96 * sd)
  }

  /** ERRATIC: the weighted recent months, with the interval [0.5f, 1.5f]. */
  function ErraticForecast(ms: seq<real>): (f: Forecast)
    requires IsSeries(ms)
    ensures f == Forecast(WeightedAverage, WeightedRecent(ms), 0.5 * WeightedRecent(ms), 1.5 * WeightedRecent(ms))
    ensures 0.0 <= f.ciLower <= f.forecast30d <= f.ciUpper
  {
    var w := WeightedRecent(ms);
    Forecast(WeightedAverage, w, Max(0.0, w * 0.5), w * 1.5)
  }

  /** `np.mean(nz) / len(nz) * 30`: thirty times the demand total over the squared count. */
  function CrostonRate(nz: seq<real>): (f: real)
    requires |nz| > 0 && forall i :: 0 <= i < |nz| ==> nz[i] > 0.0
    ensures f > 0.0
    ensures f * (|nz| * |nz|) as real == 30.0 * Sum(nz)
  {
    var k := |nz| as real;
    var m := Mean(nz);
    var q := m / k;
    MeanAbove(nz, 0.0);
    assert m * k == Sum(nz);
    assert q * k == m;
    assert q * 30.0 * (k * k) == 30.0 * ((q * k) * k);
    q * 30.0
  }

  /** INTERMITTENT: Croston's rate, with the interval [0, 2f]; 0 when no month had demand. */
  function CrostonForecast(ms: seq<real>): (f: Forecast)
    requires IsSeries(ms)
    ensures f.technique == Crostons && f.ciLower == 0.0 && f.ciUpper == 2.0 * f.forecast30d
    ensures |Positives(ms)| > 0 ==> f.forecast30d == CrostonRate(Positives(ms))
    ensures |Positives(ms)| == 0 ==> f.forecast30d == 0.0
    ensures 0.0 <= f.ciLower <= f.forecast30d <= f.ciUpper
  {
    var nz := Positives(ms);
    if |nz| > 0 then
      var f := CrostonRate(nz);
      Forecast(Crostons, f, 0.0, f * 2.0)
    else Forecast(Crostons, 0.0, 0.0, 0.0)
  }

  /** LUMPY: the mean of the demand months, with the interval [0, 3f]. */
  function LumpyForecast(ms: seq<real>): (f: Forecast)
    requires IsSeries(ms)
    ensures f == Forecast(ExponentialSmoothing, AvgMonthly(ms), 0.0, 3.0 * AvgMonthly(ms))
    ensures 0.0 <= f.ciLower <= f.forecast30d <= f.ciUpper
  {
    var avg := AvgMonthly(ms);
    Forecast(ExponentialSmoothing, avg, 0.0, avg * 3.0)
  }

  /** `_generate_forecast`: the pattern picks the method; an unrecognised label leaves the
      empty record (no method, zeros). */
  function GenerateForecast(ms: seq<real>, p: Pattern, sqrt: real -> real): (f: Forecast)
    requires IsSeries(ms) && IsSqrt(sqrt)
    ensures 0.0 <= f.ciLower <= f.forecast30d <= f.ciUpper
    ensures f.technique == NoMethod <==> p.Unrecognised?
    ensures p.Unrecognised? ==> f == Forecast(NoMethod, 0.0, 0.0, 0.0)
    ensures p == Smooth ==> f == SmoothForecast(ms, sqrt)
    ensures p == Erratic ==> f == ErraticForecast(ms)
    ensures p == Intermittent ==> f == CrostonForecast(ms)
    ensures p == Lumpy ==> f == LumpyForecast(ms)
  {
    match p
    case Smooth => SmoothForecast(ms, sqrt)
    case Erratic => ErraticForecast(ms)
    case Intermittent => CrostonForecast(ms)
    case Lumpy => LumpyForecast(ms)
    case Unrecognised(_) => Forecast(NoMethod, 0.0, 0.0, 0.0)
  }

  // ---------------------------------------------------------------------------
  // Safety stock, reorder point and order quantity

  /** `z_scores.get(label, 1.65)` */
  function ZScore(c: DemandConfig, p: Pattern): (z: real)
    ensures p.Unrecognised? ==> z == 1.65
    ensures ValidDemandConfig(c) ==> z >= 0.0
    ensures c == DefaultDemandConfig && p == Lumpy ==> z == 2.58
  {
    match p
    case Smooth => c.zSmooth
    case Erratic => c.zErratic
    case Intermittent => c.zIntermittent
    case Lumpy => c.zLumpy
    case Unrecognised(_) => 1.65
  }

  /** `z * np.std(ms) * np.sqrt(lead_time)`: its square is z² · variance · lead time, with the
      sign of z, so it is z·σ·√lead-time; 0 for a series without spread. */
  function SafetyStock(c: DemandConfig, ms: seq<real>, p: Pattern, sqrt: real -> real): (ss: real)
    requires |ms| > 0 && IsSqrt(sqrt)
    ensures ss * ss == ZScore(c, p) * ZScore(c, p) * PopVariance(ms) * (c.leadTimeDays as real)
    ensures ZScore(c, p) >= 0.0 ==> ss >= 0.0
    ensures ZScore(c, p) <= 0.0 ==> ss <= 0.0
    ensures PopVariance(ms) == 0.0 ==> ss == 0.0
  {
    var sd := StdDev(ms, sqrt);
    var rootLead := sqrt(c.leadTimeDays as real);
    var z := ZScore(c, p);
    assert (z * (sd * rootLead)) * (z * (sd * rootLead)) == (z * z) * (sd * sd) * (rootLead * rootLead);
    z * (sd * rootLead)
  }

  const OrderingCost: real := 50.0
  const HoldingCostRate: real := 0.20

  /** Harris EOQ, `sqrt(2 * D * S / H)` for positive annual demand, else 0. */
  function Eoq(annualDemand: real, sqrt: real -> real): (e: real)
    requires IsSqrt(sqrt)
    ensures annualDemand > 0.0 ==> e > 0.0 && e * e == 2.0 * annualDemand * OrderingCost / HoldingCostRate
    ensures annualDemand <= 0.0 ==> e == 0.0
  {
    if annualDemand > 0.0 then
      var x := (2.0 * annualDemand * OrderingCost) / (HoldingCostRate * 1.0);
      sqrt(x)
    else 0.0
  }

  /** Orders per year: annual demand over EOQ (12 when EOQ is 0), or 0 without demand. */
  function OrderFrequency(avgMonthly: real, annualDemand: real, eoq: real): (n: real)
    ensures avgMonthly > 0.0 && eoq > 0.0 ==> n * eoq == annualDemand
    ensures avgMonthly > 0.0 && eoq <= 0.0 ==> n == 12.0
    ensures avgMonthly <= 0.0 ==> n == 0.0
  {
    if avgMonthly > 0.0 then (if eoq > 0.0 then annualDemand / eoq else 12.0) else 0.0
  }

  datatype Replenishment = Replenishment(
    reorderPoint: real,
    safetyStock: real,
    eoq: real,
    recommendedQty: real,
    orderFrequency: real)

  /** `_calculate_rop` */
  function CalculateRop(c: DemandConfig, ms: seq<real>, p: Pattern, sqrt: real -> real): (r: Replenishment)
    requires IsSeries(ms) && IsSqrt(sqrt)
    ensures var demandDuringLeadTime := AvgMonthly(ms) / 30.0 * c.leadTimeDays as real;
      && r.reorderPoint == demandDuringLeadTime + r.safetyStock
      && (ValidDemandConfig(c) ==> r.safetyStock >= 0.0 && r.reorderPoint >= demandDuringLeadTime)
      && (PopVariance(ms) == 0.0 ==> r.reorderPoint == demandDuringLeadTime)
    ensures r.safetyStock == SafetyStock(c, ms, p, sqrt)
    ensures r.eoq > 0.0 && r.eoq * r.eoq == 2.0 * (AvgMonthly(ms) * 12.0) * OrderingCost / HoldingCostRate
    ensures r.orderFrequency * r.eoq == AvgMonthly(ms) * 12.0
    ensures r.recommendedQty >= r.eoq && r.recommendedQty >= r.reorderPoint
    ensures r.recommendedQty == r.eoq || r.recommendedQty == r.reorderPoint
  {
    var avgMonthly := AvgMonthly(ms);
    var avgDaily := avgMonthly / 30.0;
    var demandDuringLeadTime := avgDaily * c.leadTimeDays as real;
    var safetyStock := SafetyStock(c, ms, p, sqrt);
    var rop := demandDuringLeadTime + safetyStock;
    var annualDemand := avgMonthly * 12.0;
    var eoq := Eoq(annualDemand, sqrt);
    var frequency := OrderFrequency(avgMonthly, annualDemand, eoq);
    Replenishment(rop, safetyStock, eoq, Max(eoq, rop), frequency)
  }

  // ---------------------------------------------------------------------------
  // Advice

  datatype OrderingAdvice = RegularOrdering | FlexibleOrdering | PeriodicOrdering | SpecialOrdering | MaintainStock

  datatype Recommendation = Recommendation(action: OrderingAdvice, priority: int)

  /** `_get_recommendations`: one ordering policy per pattern, MAINTAIN_STOCK/5 otherwise. */
  function Recommend(p: Pattern): (r: Recommendation)
    ensures p == Smooth <==> r == Recommendation(RegularOrdering, 2)
    ensures p == Erratic <==> r == Recommendation(FlexibleOrdering, 5)
    ensures p == Intermittent <==> r == Recommendation(PeriodicOrdering, 4)
    ensures p == Lumpy <==> r == Recommendation(SpecialOrdering, 8)
    ensures p.Unrecognised? <==> r == Recommendation(MaintainStock, 5)
  {
    match p
    case Smooth => Recommendation(RegularOrdering, 2)
    case Erratic => Recommendation(FlexibleOrdering, 5)
    case Intermittent => Recommendation(PeriodicOrdering, 4)
    case Lumpy => Recommendation(SpecialOrdering, 8)
    case Unrecognised(_) => Recommendation(MaintainStock, 5)
  }

  // ---------------------------------------------------------------------------
  // The per-row loop

  /** An input row: the item code and whichever `month_1` .. `month_12` columns it has. */
  datatype DemandRow = DemandRow(itemCode: string, months: map<int, real>)

  /** `[row.get(f'month_{i}', 0) for i in range(1, 13)]` */
  function MonthlySales(row: DemandRow): (ms: seq<real>)
    ensures |ms| == 12
    ensures forall i :: 0 <= i < 12 ==> ms[i] == if i + 1 in row.months then row.months[i + 1] else 0.0
  {
    seq(12, i requires 0 <= i < 12 => if i + 1 in row.months then row.months[i + 1] else 0.0)
  }

  /** A row whose recorded months are all non-negative. */
  predicate ValidRow(row: DemandRow)
  {
    forall m :: m in row.months ==> row.months[m] >= 0.0
  }

  datatype DemandResult = DemandResult(
    itemCode: string,
    demandPattern: Pattern,
    adi: real,
    cvSquared: real,
    avgMonthlyDemand: real,
    stdDevDemand: real,
    demandVariability: real,
    forecast30d: real,
    confidenceIntervalLower: real,
    confidenceIntervalUpper: real,
    forecastMethod: ForecastMethod,
    reorderPoint: real,
    safetyStock: real,
    economicOrderQty: real,
    recommendedOrderQty: real,
    orderFrequency: real,
    recommendation: OrderingAdvice,
    recommendationPriority: int)

  /** The coefficient of variation in percent, 0 when the mean is not positive. */
  function VariabilityPct(mean: real, sd: real): (v: real)
    ensures mean > 0.0 ==> v * mean == sd * 100.0
    ensures mean <= 0.0 ==> v == 0.0
    ensures sd >= 0.0 ==> v >= 0.0
  {
    if mean > 0.0 then sd / mean * 100.0 else 0.0
  }

  /** The per-row record of `classify_demand_patterns`; `DemandRecordStatistics` and
      `DemandRecordPlans` say what it holds. */
  function DemandRecord(c: DemandConfig, row: DemandRow, sqrt: real -> real): DemandResult
    requires ValidRow(row) && IsSqrt(sqrt)
  {
    var ms := MonthlySales(row);
    assert IsSeries(ms);
    var sbc := ClassifySbc(c, ms);
    var f := GenerateForecast(ms, sbc.pattern, sqrt);
    var r := CalculateRop(c, ms, sbc.pattern, sqrt);
    var advice := Recommend(sbc.pattern);
    var mean := Mean(ms);
    var sd := StdDev(ms, sqrt);
    DemandResult(
      row.itemCode, sbc.pattern, sbc.adi, sbc.cv2, mean, sd, VariabilityPct(mean, sd),
      f.forecast30d, f.ciLower, f.ciUpper, f.technique,
      r.reorderPoint, r.safetyStock, r.eoq, r.recommendedQty, r.orderFrequency,
      advice.action, advice.priority)
  }

  lemma QuotientTimesDivisor(x: real, d: real)
    requires d > 0.0
    ensures x / d * d == x
  {
  }

  /** One row's record holds its code, the SBC classification of its twelve months, their
      mean and σ, and the variability as σ in percent of the mean (0 without a mean). */
  lemma DemandRecordStatistics(c: DemandConfig, row: DemandRow, sqrt: real -> real)
    requires ValidRow(row) && IsSqrt(sqrt)
    ensures var ms := MonthlySales(row); var r := DemandRecord(c, row, sqrt);
      && IsSeries(ms)
      && r.itemCode == row.itemCode
      && Sbc(r.adi, r.cvSquared, r.demandPattern) == ClassifySbc(c, ms)
      && r.avgMonthlyDemand == Mean(ms) && r.avgMonthlyDemand * 12.0 == Sum(ms)
      && r.stdDevDemand == StdDev(ms, sqrt)
      && r.demandVariability == VariabilityPct(r.avgMonthlyDemand, r.stdDevDemand)
  {
    var ms := MonthlySales(row);
    assert IsSeries(ms);
    QuotientTimesDivisor(Sum(ms), 12.0);
  }

  /** One row's record holds the forecast, the replenishment figures and the ordering advice
      of its pattern. */
  lemma DemandRecordPlans(c: DemandConfig, row: DemandRow, sqrt: real -> real)
    requires ValidRow(row) && IsSqrt(sqrt)
    ensures var ms := MonthlySales(row); var r := DemandRecord(c, row, sqrt);
      && IsSeries(ms)
      && Forecast(r.forecastMethod, r.forecast30d, r.confidenceIntervalLower, r.confidenceIntervalUpper)
         == GenerateForecast(ms, r.demandPattern, sqrt)
      && Replenishment(r.reorderPoint, r.safetyStock, r.economicOrderQty, r.recommendedOrderQty, r.orderFrequency)
         == CalculateRop(c, ms, r.demandPattern, sqrt)
      && Recommendation(r.recommendation, r.recommendationPriority) == Recommend(r.demandPattern)
  {
    var ms := MonthlySales(row);
    assert IsSeries(ms);
  }

  /** `classify_demand_patterns`: one record per input row, in order. */
  method ClassifyDemandPatterns(c: DemandConfig, rows: seq<DemandRow>, sqrt: real -> real)
    returns (results: seq<DemandResult>)
    requires forall i :: 0 <= i < |rows| ==> ValidRow(rows[i])
    requires IsSqrt(sqrt)
    ensures |results| == |rows|
    ensures forall i :: 0 <= i < |rows| ==> results[i] == DemandRecord(c, rows[i], sqrt)
  {
    results := [];
    var i := 0;
    while i < |rows|
      invariant 0 <= i <= |rows|
      invariant |results| == i
      invariant forall j :: 0 <= j < i ==> results[j] == DemandRecord(c, rows[j], sqrt)
    {
      results := results + [DemandRecord(c, rows[i], sqrt)];
      i := i + 1;
    }
  }

  /** Every record of the batch carries an SBC label with its specific ordering policy, an
      ordered forecast interval, a recommended quantity covering both EOQ and ROP, and a
      non-negative variability. */
  lemma DemandRecordInvariants(c: DemandConfig, row: DemandRow, sqrt: real -> real)
    requires ValidRow(row) && IsSqrt(sqrt)
    ensures var r := DemandRecord(c, row, sqrt);
      && IsSbcPattern(r.demandPattern)
      && r.recommendation != MaintainStock
      && r.forecastMethod != NoMethod
      && 0.0 <= r.confidenceIntervalLower <= r.forecast30d <= r.confidenceIntervalUpper
      && r.recommendedOrderQty >= r.reorderPoint && r.recommendedOrderQty >= r.economicOrderQty
      && r.demandVariability >= 0.0
  {
    var ms := MonthlySales(row);
    assert IsSeries(ms);
    var sbc := ClassifySbc(c, ms);
    var mean := Mean(ms);
    assert Sum(ms) >= 0.0 by {
      AllNonNegativeSum(ms);
    }
    if mean > 0.0 {
      var sd := StdDev(ms, sqrt);
      assert sd / mean >= 0.0;
    }
  }
}
