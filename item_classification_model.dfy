/** The multi-method item classifier: feature preparation, the ordered business
    rules, the cluster label policies, the hybrid ensemble vote and the result
    enrichment (days of stock, ABC class, dormancy, new-item status, action).
    The clustering itself (scaling, DBSCAN, KMeans) is external: its cluster ids
    are inputs, and -1 marks a DBSCAN noise point. */
module ItemClassification {
  import opened Numeric

  datatype Label = Fast | Slow | Medium | NewItem | DeadStock
  datatype MethodTag = RuleBased | DbscanClustering | KmeansClustering | Hybrid
  datatype AbcCategory = A | B | C
  datatype Dormancy = Active | Sleepy | Dormant | Dead
  datatype NewItemStatus = Launch | Learning | Graduation | Established
  datatype Action = IncreaseStock | ReduceStock | MaintainStock | Liquidation | MarketMore

  /** The configuration keys the classifier reads. */
  datatype Config = Config(
    fastMinSalesVelocity: real,
    fastMinTurnoverRatio: real,
    newItemMaxAgeDays: real,
    deadStockMinDaysNoSales: real,
    deadStockMaxAnnualSales: real,
    dbscanMinSamples: int,
    kmeansNClusters: int,
    holdingCostPctPerYear: real)

  const DefaultConfig := Config(2.7, 0.7, 90.0, 180.0, 10.0, 3, 3, 0.20)

  /** The FAST thresholds are non-negative, so every FAST confidence is at least 70%, and
      `min_samples` is at least 1, the least DBSCAN accepts. */
  predicate ValidConfig(c: Config)
  {
    c.fastMinSalesVelocity >= 0.0 && c.fastMinTurnoverRatio >= 0.0 && c.dbscanMinSamples >= 1
  }

  // ---------------------------------------------------------------------------
  // Feature preparation

  /** One input row; `None` is a missing column or a missing value (both become 0). */
  datatype RawItem = RawItem(
    itemCode: string,
    annualSalesQty: Option<real>,
    annualSalesValue: Option<real>,
    currentStock: Option<real>,
    stockValue: Option<real>,
    itemAgeDays: Option<real>,
    daysSinceLastSale: Option<real>,
    salesVelocity: Option<real>,
    turnoverRatio: Option<real>,
    consistencyScore: Option<real>,
    demandVariability: Option<real>,
    holdingCostAnnually: Option<real>)

  /** An input batch; the flags say whether the optional derived columns exist in it. */
  datatype Frame = Frame(rows: seq<RawItem>, hasVelocity: bool, hasTurnover: bool, hasConsistency: bool)

  /** A prepared row: every feature is a number. */
  datatype Item = Item(
    itemCode: string,
    annualSalesQty: real,
    annualSalesValue: real,
    currentStock: real,
    stockValue: real,
    itemAgeDays: real,
    daysSinceLastSale: real,
    salesVelocity: real,
    turnoverRatio: real,
    consistencyScore: real,
    demandVariability: real,
    holdingCostAnnually: real)

  /** Fills missing values with 0, then derives the features a frame lacks. */
  function PrepareRow(f: Frame, r: RawItem): (it: Item)
    ensures it.itemCode == r.itemCode
    ensures it.annualSalesQty == r.annualSalesQty.GetOr(0.0)
    ensures it.annualSalesValue == r.annualSalesValue.GetOr(0.0)
    ensures it.currentStock == r.currentStock.GetOr(0.0) && it.stockValue == r.stockValue.GetOr(0.0)
    ensures it.itemAgeDays == r.itemAgeDays.GetOr(0.0) && it.daysSinceLastSale == r.daysSinceLastSale.GetOr(0.0)
    ensures it.demandVariability == r.demandVariability.GetOr(0.0)
    ensures it.holdingCostAnnually == r.holdingCostAnnually.GetOr(0.0)
    ensures f.hasVelocity ==> it.salesVelocity == r.salesVelocity.GetOr(0.0)
    ensures f.hasTurnover ==> it.turnoverRatio == r.turnoverRatio.GetOr(0.0)
    ensures f.hasConsistency ==> it.consistencyScore == r.consistencyScore.GetOr(0.0)
    ensures !f.hasVelocity ==> it.salesVelocity * 365.0 == it.annualSalesQty
    ensures !f.hasTurnover && it.currentStock > 0.0 ==> it.turnoverRatio * it.currentStock == it.annualSalesQty
    ensures !f.hasTurnover && it.currentStock <= 0.0 ==> it.turnoverRatio == 0.0
    ensures !f.hasConsistency ==> it.consistencyScore == 50.0
  {
    var qty := r.annualSalesQty.GetOr(0.0);
    var stock := r.currentStock.GetOr(0.0);
    Item(
      r.itemCode, qty, r.annualSalesValue.GetOr(0.0), stock, r.stockValue.GetOr(0.0),
      r.itemAgeDays.GetOr(0.0), r.daysSinceLastSale.GetOr(0.0),
      if f.hasVelocity then r.salesVelocity.GetOr(0.0) else qty / 365.0,
      if f.hasTurnover then r.turnoverRatio.GetOr(0.0) else if stock > 0.0 then qty / stock else 0.0,
      if f.hasConsistency then r.consistencyScore.GetOr(0.0) else 50.0,
      r.demandVariability.GetOr(0.0),
      r.holdingCostAnnually.GetOr(0.0))
  }

  /** The prepared rows of `rows` that have positive annual sales, in input order. */
  function Kept(f: Frame, rows: seq<RawItem>): (r: seq<Item>)
    ensures |r| <= |rows|
    ensures forall i :: 0 <= i < |r| ==> r[i].annualSalesQty > 0.0
    ensures forall j :: 0 <= j < |rows| && PrepareRow(f, rows[j]).annualSalesQty > 0.0 ==> PrepareRow(f, rows[j]) in r
    ensures forall it :: it in r ==> exists j :: 0 <= j < |rows| && it == PrepareRow(f, rows[j])
  {
    if rows == [] then []
    else
      var rest := Kept(f, rows[..|rows| - 1]);
      var it := PrepareRow(f, rows[|rows| - 1]);
      assert forall j :: 0 <= j < |rows| - 1 ==> rows[..|rows| - 1][j] == rows[j];
      if it.annualSalesQty > 0.0 then rest + [it] else rest
  }

  /** Row preparation is a stable filter: the kept rows of a concatenation are the kept rows
      of each part, in order. */
  lemma {:induction false} KeptAppend(f: Frame, a: seq<RawItem>, b: seq<RawItem>)
    ensures Kept(f, a + b) == Kept(f, a) + Kept(f, b)
  {
    if b == [] {
      assert a + b == a;
    } else {
      var b', x := b[..|b| - 1], b[|b| - 1];
      assert b == b' + [x];
      assert a + b == (a + b') + [x];
      KeptAppend(f, a, b');
      KeptSnoc(f, a + b', x);
      KeptSnoc(f, b', x);
    }
  }

  /** Appending one row appends its prepared form exactly when its quantity is positive. */
  lemma KeptSnoc(f: Frame, rows: seq<RawItem>, x: RawItem)
    ensures Kept(f, rows + [x]) ==
      if PrepareRow(f, x).annualSalesQty > 0.0 then Kept(f, rows) + [PrepareRow(f, x)] else Kept(f, rows)
  {
    assert (rows + [x])[..|rows|] == rows;
  }

  /** A single row is kept exactly when its prepared quantity is positive. */
  lemma KeptSingleton(f: Frame, r: RawItem)
    ensures Kept(f, [r]) == if PrepareRow(f, r).annualSalesQty > 0.0 then [PrepareRow(f, r)] else []
  {
    assert [r][..0] == [];
  }

  function PreparedRows(f: Frame): seq<Item>
  {
    Kept(f, f.rows)
  }

  /** Every rule and every method sees the same rows: those with positive sales. */
  method PrepareData(f: Frame) returns (items: seq<Item>)
    ensures items == PreparedRows(f)
    ensures forall i :: 0 <= i < |items| ==> items[i].annualSalesQty > 0.0
  {
    items := [];
    var i := 0;
    while i < |f.rows|
      invariant 0 <= i <= |f.rows|
      invariant items == Kept(f, f.rows[..i])
    {
      var it := PrepareRow(f, f.rows[i]);
      assert f.rows[..i + 1][..i] == f.rows[..i];
      if it.annualSalesQty > 0.0 {
        items := items + [it];
      }
      i := i + 1;
    }
    assert f.rows[..i] == f.rows;
  }

  // ---------------------------------------------------------------------------
  // Business rules

  datatype RuleOutcome = RuleOutcome(kind: Label, confidence: real)

  function FastConfidence(it: Item): real
  {
    Min(99.0, 70.0 + it.salesVelocity * 5.0 + it.turnoverRatio * 10.0) / 100.0
  }

  predicate IsNewItem(c: Config, it: Item) { it.itemAgeDays < c.newItemMaxAgeDays }
  predicate IsDeadStock(c: Config, it: Item)
  {
    it.daysSinceLastSale > c.deadStockMinDaysNoSales || it.annualSalesQty < c.deadStockMaxAnnualSales
  }
  predicate IsFast(c: Config, it: Item)
  {
    it.salesVelocity > c.fastMinSalesVelocity && it.turnoverRatio > c.fastMinTurnoverRatio
  }
  predicate IsSlow(it: Item) { it.salesVelocity < 0.5 && it.daysSinceLastSale < 60.0 }

  /** The five business rules; the first that matches decides. */
  function ApplyBusinessRules(c: Config, it: Item): (o: RuleOutcome)
    ensures o.kind == NewItem ==> o.confidence == 0.99
    ensures o.kind == DeadStock ==> o.confidence == 0.95
    ensures o.kind == Fast ==> o.confidence * 100.0 == Min(99.0, 70.0 + it.salesVelocity * 5.0 + it.turnoverRatio * 10.0)
    ensures o.kind == Slow ==> o.confidence == 0.85
    ensures o.kind == Medium ==> o.confidence == 0.75
    ensures o.kind == Fast ==> IsFast(c, it)
    ensures o.kind == Slow ==> IsSlow(it)
  {
    if IsNewItem(c, it) then RuleOutcome(NewItem, 0.99)
    else if IsDeadStock(c, it) then RuleOutcome(DeadStock, 0.95)
    else if IsFast(c, it) then RuleOutcome(Fast, FastConfidence(it))
    else if IsSlow(it) then RuleOutcome(Slow, 0.85)
    else RuleOutcome(Medium, 0.75)
  }

  /** A rule as a (guard, outcome) pair; `RuleList` is the decision list written out. */
  datatype Rule = Rule(guard: Item -> bool, outcome: Item -> RuleOutcome)

  function RuleList(c: Config): seq<Rule>
  {
    [ Rule(it => IsNewItem(c, it), _ => RuleOutcome(NewItem, 0.99)),
      Rule(it => IsDeadStock(c, it), _ => RuleOutcome(DeadStock, 0.95)),
      Rule(it => IsFast(c, it), it => RuleOutcome(Fast, FastConfidence(it))),
      Rule(it => IsSlow(it), _ => RuleOutcome(Slow, 0.85)) ]
  }

  /** Short-circuit evaluation of a decision list with a fallback outcome. */
  function FirstMatch(rules: seq<Rule>, it: Item, fallback: RuleOutcome): RuleOutcome
  {
    if rules == [] then fallback
    else if rules[0].guard(it) then rules[0].outcome(it)
    else FirstMatch(rules[1..], it, fallback)
  }

  /** The rule chain is exactly the ordered decision list NEW_ITEM, DEAD_STOCK, FAST, SLOW, else MEDIUM. */
  lemma RulesAreFirstMatch(c: Config, it: Item)
    ensures ApplyBusinessRules(c, it) == FirstMatch(RuleList(c), it, RuleOutcome(Medium, 0.75))
  {
    var fallback := RuleOutcome(Medium, 0.75);
    var r0 := RuleList(c);
    var r1, r2, r3 := r0[1..], r0[2..], r0[3..];
    assert r0[1..][1..] == r2 && r0[2..][1..] == r3 && r0[3..][1..] == [];
    assert FirstMatch(r3, it, fallback) == if IsSlow(it) then RuleOutcome(Slow, 0.85) else fallback;
    assert FirstMatch(r2, it, fallback) == if IsFast(c, it) then RuleOutcome(Fast, FastConfidence(it)) else FirstMatch(r3, it, fallback);
    assert FirstMatch(r1, it, fallback) == if IsDeadStock(c, it) then RuleOutcome(DeadStock, 0.95) else FirstMatch(r2, it, fallback);
  }

  /** Which label the rules give, stated as precedence: a rule fires only when every earlier one fails. */
  lemma RulePrecedence(c: Config, it: Item)
    ensures ApplyBusinessRules(c, it).kind == NewItem <==> IsNewItem(c, it)
    ensures ApplyBusinessRules(c, it).kind == DeadStock <==> !IsNewItem(c, it) && IsDeadStock(c, it)
    ensures ApplyBusinessRules(c, it).kind == Fast <==> !IsNewItem(c, it) && !IsDeadStock(c, it) && IsFast(c, it)
    ensures ApplyBusinessRules(c, it).kind == Slow <==>
      !IsNewItem(c, it) && !IsDeadStock(c, it) && !IsFast(c, it) && IsSlow(it)
    ensures ApplyBusinessRules(c, it).kind == Medium <==>
      !IsNewItem(c, it) && !IsDeadStock(c, it) && !IsFast(c, it) && !IsSlow(it)
  {
  }

  /** A 10-day-old item unsold for 300 days is NEW_ITEM: rule 1 precedes rule 2. */
  lemma NewItemPrecedesDeadStock(it: Item)
    requires it.itemAgeDays == 10.0 && it.daysSinceLastSale == 300.0
    ensures ApplyBusinessRules(DefaultConfig, it) == RuleOutcome(NewItem, 0.99)
  {
  }

  /** Under the default thresholds a FAST confidence lies in (0.905, 0.99]. */
  lemma FastConfidenceRange(it: Item)
    requires ApplyBusinessRules(DefaultConfig, it).kind == Fast
    ensures 0.905 < ApplyBusinessRules(DefaultConfig, it).confidence <= 0.99
  {
  }

  /** Every rule confidence is a fraction in [0.70, 0.99] when the FAST thresholds are non-negative. */
  lemma RuleConfidenceRange(c: Config, it: Item)
    requires ValidConfig(c)
    ensures 0.70 < ApplyBusinessRules(c, it).confidence <= 0.99
  {
  }

  // ---------------------------------------------------------------------------
  // Cluster kind policies

  /** A DBSCAN noise point: DEAD_STOCK if long unsold, FAST if very fast, else SLOW. */
  function OutlierLabel(c: Config, it: Item): (l: Label)
    ensures l == DeadStock <==> it.daysSinceLastSale > 150.0
    ensures l == Fast <==> it.daysSinceLastSale <= 150.0 && it.salesVelocity > c.fastMinSalesVelocity * 1.5
    ensures l == Slow <==> it.daysSinceLastSale <= 150.0 && it.salesVelocity <= c.fastMinSalesVelocity * 1.5
  {
    if it.daysSinceLastSale > 150.0 then DeadStock
    else if it.salesVelocity > c.fastMinSalesVelocity * 1.5 then Fast
    else Slow
  }

  /** A cluster member follows its cluster's mean velocity. */
  function MemberLabel(c: Config, avgVelocity: real): (l: Label)
    ensures l == Fast <==> avgVelocity > c.fastMinSalesVelocity
    ensures l == Medium <==> avgVelocity <= c.fastMinSalesVelocity && avgVelocity > 1.0
    ensures l == Slow <==> avgVelocity <= c.fastMinSalesVelocity && avgVelocity <= 1.0
  {
    if avgVelocity > c.fastMinSalesVelocity then Fast
    else if avgVelocity > 1.0 then Medium
    else Slow
  }

  /** Member labels never go down as the cluster's mean velocity goes up. */
  lemma MemberLabelMonotone(c: Config, v1: real, v2: real)
    requires v1 <= v2
    ensures MemberLabel(c, v1) == Fast ==> MemberLabel(c, v2) == Fast
    ensures MemberLabel(c, v2) == Slow ==> MemberLabel(c, v1) == Slow
  {
  }

  /** The velocities of the rows in cluster `cid`, in row order. */
  function ClusterVelocities(items: seq<Item>, clusters: seq<int>, cid: int): (vs: seq<real>)
    requires |clusters| == |items|
    ensures |vs| <= |items|
    ensures forall j :: 0 <= j < |items| && clusters[j] == cid ==> items[j].salesVelocity in vs
    ensures forall v :: v in vs ==> exists j :: 0 <= j < |items| && clusters[j] == cid && v == items[j].salesVelocity
  {
    if items == [] then []
    else
      var rest := ClusterVelocities(items[1..], clusters[1..], cid);
      assert forall j :: 1 <= j < |items| ==> items[1..][j - 1] == items[j] && clusters[1..][j - 1] == clusters[j];
      if clusters[0] == cid then [items[0].salesVelocity] + rest else rest
  }

  /** The cluster filter keeps row order: splitting the rows splits the velocity list. */
  lemma {:induction false} ClusterVelocitiesAppend(items1: seq<Item>, clusters1: seq<int>, items2: seq<Item>, clusters2: seq<int>, cid: int)
    requires |clusters1| == |items1| && |clusters2| == |items2|
    ensures ClusterVelocities(items1 + items2, clusters1 + clusters2, cid)
      == ClusterVelocities(items1, clusters1, cid) + ClusterVelocities(items2, clusters2, cid)
  {
    if items1 == [] {
      assert items1 + items2 == items2 && clusters1 + clusters2 == clusters2;
    } else {
      assert (items1 + items2)[1..] == items1[1..] + items2;
      assert (clusters1 + clusters2)[1..] == clusters1[1..] + clusters2;
      ClusterVelocitiesAppend(items1[1..], clusters1[1..], items2, clusters2, cid);
    }
  }

  /** One row contributes its velocity exactly when it is in the cluster. */
  lemma ClusterVelocitiesSingleton(it: Item, cl: int, cid: int)
    ensures ClusterVelocities([it], [cl], cid) == if cl == cid then [it.salesVelocity] else []
  {
    assert [it][1..] == [] && [cl][1..] == [];
  }

  /** The mean velocity of row `i`'s cluster, the row itself included. */
  function ClusterMean(items: seq<Item>, clusters: seq<int>, i: int): (m: real)
    requires |clusters| == |items| && 0 <= i < |items|
    ensures var vs := ClusterVelocities(items, clusters, clusters[i]);
      && |vs| > 0 && items[i].salesVelocity in vs && m * |vs| as real == Sum(vs)
  {
    var vs := ClusterVelocities(items, clusters, clusters[i]);
    assert items[i].salesVelocity in vs;
    Mean(vs)
  }

  /** `_determine_classification_from_cluster`: the outlier policy, else the member policy. */
  function DbscanLabel(c: Config, items: seq<Item>, clusters: seq<int>, i: int): (l: Label)
    requires |clusters| == |items| && 0 <= i < |items|
    ensures l != NewItem
    ensures l == Medium ==> clusters[i] != -1
    ensures l == DeadStock <==> clusters[i] == -1 && items[i].daysSinceLastSale > 150.0
    ensures clusters[i] == -1 ==> l == OutlierLabel(c, items[i])
    ensures clusters[i] != -1 ==> l == MemberLabel(c, ClusterMean(items, clusters, i))
  {
    if clusters[i] == -1 then OutlierLabel(c, items[i])
    else MemberLabel(c, ClusterMean(items, clusters, i))
  }

  /** If every row of a (non-noise) cluster sells faster than the FAST threshold, the whole
      cluster is FAST; if none sells faster than 1 unit/day, the whole cluster is SLOW. */
  lemma UniformClusterLabel(c: Config, items: seq<Item>, clusters: seq<int>, i: int)
    requires |clusters| == |items| && 0 <= i < |items| && clusters[i] != -1
    ensures (forall j :: 0 <= j < |items| && clusters[j] == clusters[i] ==> items[j].salesVelocity > c.fastMinSalesVelocity)
      ==> DbscanLabel(c, items, clusters, i) == Fast
    ensures (forall j :: 0 <= j < |items| && clusters[j] == clusters[i] ==> items[j].salesVelocity <= 1.0)
      && c.fastMinSalesVelocity >= 1.0
      ==> DbscanLabel(c, items, clusters, i) == Slow
  {
    var vs := ClusterVelocities(items, clusters, clusters[i]);
    assert items[i].salesVelocity in vs;
    if forall j :: 0 <= j < |items| && clusters[j] == clusters[i] ==> items[j].salesVelocity > c.fastMinSalesVelocity {
      forall k | 0 <= k < |vs| ensures vs[k] > c.fastMinSalesVelocity {
        assert vs[k] in vs;
      }
      MeanAbove(vs, c.fastMinSalesVelocity);
    }
    if forall j :: 0 <= j < |items| && clusters[j] == clusters[i] ==> items[j].salesVelocity <= 1.0 {
      forall k | 0 <= k < |vs| ensures vs[k] <= 1.0 {
        assert vs[k] in vs;
      }
      MeanAtMost(vs, 1.0);
    }
  }

  datatype KmeansOutcome = KmeansOutcome(kind: Label, confidence: real)

  /** The KMeans velocity bands and confidences: KMeans uses the same bands as DBSCAN cluster
      members; its FAST confidence lies in (70, 95] for a non-negative threshold and every
      other confidence is 75. */
  function KmeansLabel(c: Config, avgVelocity: real): (o: KmeansOutcome)
    ensures o.kind == MemberLabel(c, avgVelocity)
    ensures o.kind != Fast ==> o.confidence == 75.0
    ensures o.kind == Fast ==> o.confidence == Min(95.0, 70.0 + avgVelocity / 10.0)
    ensures o.kind == Fast && c.fastMinSalesVelocity >= 0.0 ==> 70.0 < o.confidence <= 95.0
  {
    if avgVelocity > c.fastMinSalesVelocity then KmeansOutcome(Fast, Min(95.0, 70.0 + avgVelocity / 10.0))
    else if avgVelocity > 1.0 then KmeansOutcome(Medium, 75.0)
    else KmeansOutcome(Slow, 75.0)
  }

  // ---------------------------------------------------------------------------
  // Result enrichment

  /** Days of stock: stock divided by daily velocity, 0 when nothing sells. */
  function DaysOfStock(it: Item): (d: real)
    ensures it.salesVelocity > 0.0 ==> d * it.salesVelocity == it.currentStock
    ensures it.salesVelocity <= 0.0 ==> d == 0.0
  {
    if it.salesVelocity > 0.0 then it.currentStock / it.salesVelocity else 0.0
  }

  function AbcOf(annualValue: real): (k: AbcCategory)
    ensures k == A <==> annualValue > 100000.0
    ensures k == B <==> 20000.0 < annualValue <= 100000.0
    ensures k == C <==> annualValue <= 20000.0
  {
    if annualValue > 100000.0 then A
    else if annualValue > 20000.0 then B
    else C
  }

  function DormancyOf(days: real): (d: Dormancy)
    ensures d == Active <==> days < 90.0
    ensures d == Sleepy <==> 90.0 <= days < 180.0
    ensures d == Dormant <==> 180.0 <= days < 365.0
    ensures d == Dead <==> days >= 365.0
  {
    if days < 90.0 then Active
    else if days < 180.0 then Sleepy
    else if days < 365.0 then Dormant
    else Dead
  }

  function NewItemStatusOf(age: real): (s: NewItemStatus)
    ensures s == Launch <==> age < 30.0
    ensures s == Learning <==> 30.0 <= age < 90.0
    ensures s == Graduation <==> 90.0 <= age < 180.0
    ensures s == Established <==> age >= 180.0
  {
    if age < 30.0 then Launch
    else if age < 90.0 then Learning
    else if age < 180.0 then Graduation
    else Established
  }

  function DormancyRank(d: Dormancy): nat
  {
    match d
    case Active => 0
    case Sleepy => 1
    case Dormant => 2
    case Dead => 3
  }

  function StatusRank(s: NewItemStatus): nat
  {
    match s
    case Launch => 0
    case Learning => 1
    case Graduation => 2
    case Established => 3
  }

  /** Longer without a sale never looks more active; an older item never looks newer. */
  lemma BandsMonotone(x: real, y: real)
    requires x <= y
    ensures DormancyRank(DormancyOf(x)) <= DormancyRank(DormancyOf(y))
    ensures StatusRank(NewItemStatusOf(x)) <= StatusRank(NewItemStatusOf(y))
    ensures AbcOf(y) == C ==> AbcOf(x) == C
    ensures AbcOf(x) == A ==> AbcOf(y) == A
  {
  }

  datatype ActionPlan = ActionPlan(action: Action, priority: int, impact: real)

  /** The action, priority and expected impact for a kind. */
  function RecommendAction(it: Item, kind: Label): (p: ActionPlan)
    ensures 1 <= p.priority <= 10
    ensures kind == Fast ==> p == ActionPlan(IncreaseStock, 8, it.annualSalesValue * 0.10)
    ensures kind == DeadStock ==> p == ActionPlan(Liquidation, 10, it.stockValue * 0.3)
    ensures kind == NewItem ==> p == ActionPlan(MarketMore, 7, it.annualSalesValue * 0.20)
    ensures kind == Slow ==> (p.action == ReduceStock <==> DaysOfStock(it) > 180.0)
    ensures kind == Slow && DaysOfStock(it) > 180.0 ==> p.priority == 5 && p.impact == -(it.holdingCostAnnually * 0.5)
    ensures kind == Slow && DaysOfStock(it) <= 180.0 ==> p == ActionPlan(MaintainStock, 2, 0.0)
    ensures kind == Medium ==> p == ActionPlan(MaintainStock, 1, 0.0)
  {
    match kind
    case Fast => ActionPlan(IncreaseStock, 8, it.annualSalesValue * 0.10)
    case Slow =>
      if DaysOfStock(it) > 180.0 then ActionPlan(ReduceStock, 5, -(it.holdingCostAnnually * 0.5))
      else ActionPlan(MaintainStock, 2, 0.0)
    case DeadStock => ActionPlan(Liquidation, 10, it.stockValue * 0.3)
    case NewItem => ActionPlan(MarketMore, 7, it.annualSalesValue * 0.20)
    case Medium => ActionPlan(MaintainStock, 1, 0.0)
  }

  /** Where the stored reason text came from (the text itself is formatted prose). */
  datatype Reason =
    | NoReason
    | RuleReason(rule: Label)
    | EnsembleReason(ruleLabel: Label, ruleConfidence: real, dbscanConfidence: real, winner: Label)

  datatype ClassificationResult = ClassificationResult(
    itemCode: string,
    classificationType: Label,
    classificationConfidence: int,
    classificationMethod: MethodTag,
    classificationReason: Reason,
    annualSalesQty: real,
    annualSalesValue: real,
    salesVelocity: real,
    turnoverRatio: real,
    holdingCostAnnually: real,
    currentStock: real,
    stockValue: real,
    daysOfStock: real,
    abcCategory: AbcCategory,
    consistencyScore: real,
    demandVariability: real,
    daysSinceLastSale: real,
    itemAgeDays: real,
    dormancyStatus: Dormancy,
    newItemStatus: NewItemStatus,
    recommendedAction: Action,
    actionPriority: int,
    expectedImpact: real)

  /** `_build_result_record`: the stored confidence is `int(confidence)`, 75 by default and 0
      for any fraction below 1; the enrichment fields follow the item and the final kind. */
  function BuildResultRecord(c: Config, it: Item, kind: Label, m: MethodTag, confidence: Option<real>, reason: Reason): (r: ClassificationResult)
    ensures r.itemCode == it.itemCode && r.classificationType == kind
    ensures r.classificationMethod == m && r.classificationReason == reason
    ensures confidence == None ==> r.classificationConfidence == 75
    ensures confidence.Some? && 0.0 <= confidence.value < 1.0 ==> r.classificationConfidence == 0
    ensures confidence.Some? && 0.0 <= confidence.value <= 100.0 ==>
      && 0 <= r.classificationConfidence <= 100
      && r.classificationConfidence as real <= confidence.value < r.classificationConfidence as real + 1.0
    ensures r.holdingCostAnnually == it.stockValue * c.holdingCostPctPerYear
    ensures r.daysOfStock == DaysOfStock(it) && r.abcCategory == AbcOf(it.annualSalesValue)
    ensures r.dormancyStatus == DormancyOf(it.daysSinceLastSale) && r.newItemStatus == NewItemStatusOf(it.itemAgeDays)
    ensures 1 <= r.actionPriority <= 10
    ensures ActionPlan(r.recommendedAction, r.actionPriority, r.expectedImpact) == RecommendAction(it, kind)
  {
    var plan := RecommendAction(it, kind);
    ClassificationResult(
      it.itemCode, kind, Trunc(confidence.GetOr(75.0)), m, reason,
      it.annualSalesQty, it.annualSalesValue, it.salesVelocity, it.turnoverRatio,
      it.stockValue * c.holdingCostPctPerYear,
      it.currentStock, it.stockValue, DaysOfStock(it), AbcOf(it.annualSalesValue),
      it.consistencyScore, it.demandVariability, it.daysSinceLastSale, it.itemAgeDays,
      DormancyOf(it.daysSinceLastSale), NewItemStatusOf(it.itemAgeDays),
      plan.action, plan.priority, plan.impact)
  }

  // ---------------------------------------------------------------------------
  // Per-method records

  /** A rule-based record: the rules' label and reason under tag `m`, storing `int()` of
      the rule confidence. */
  function RuleRecord(c: Config, m: MethodTag, it: Item): (r: ClassificationResult)
    ensures r.itemCode == it.itemCode && r.classificationMethod == m
    ensures r.classificationType == ApplyBusinessRules(c, it).kind
    ensures r.classificationReason == RuleReason(r.classificationType)
    ensures r.classificationConfidence == Trunc(ApplyBusinessRules(c, it).confidence)
  {
    var o := ApplyBusinessRules(c, it);
    BuildResultRecord(c, it, o.kind, m, Some(o.confidence), RuleReason(o.kind))
  }

  /** A DBSCAN record: row `i`'s cluster label at the default confidence 75. */
  function DbscanRecord(c: Config, items: seq<Item>, clusters: seq<int>, i: int): (r: ClassificationResult)
    requires |clusters| == |items| && 0 <= i < |items|
    ensures r.itemCode == items[i].itemCode && r.classificationMethod == DbscanClustering
    ensures r.classificationType == DbscanLabel(c, items, clusters, i)
    ensures r.classificationConfidence == 75 && r.classificationReason == NoReason
  {
    BuildResultRecord(c, items[i], DbscanLabel(c, items, clusters, i), DbscanClustering, None, NoReason)
  }

  /** A KMeans record: the member band of row `i`'s cluster mean, at confidence 75, or
      `int()` of the FAST confidence, which lies in [70, 95] for a non-negative threshold. */
  function KmeansRecord(c: Config, items: seq<Item>, clusters: seq<int>, i: int): (r: ClassificationResult)
    requires |clusters| == |items| && 0 <= i < |items|
    ensures r.itemCode == items[i].itemCode && r.classificationMethod == KmeansClustering
    ensures r.classificationType == MemberLabel(c, ClusterMean(items, clusters, i))
    ensures r.classificationType != Fast ==> r.classificationConfidence == 75
    ensures r.classificationType == Fast && c.fastMinSalesVelocity >= 0.0 ==> 70 <= r.classificationConfidence <= 95
    ensures r.classificationReason == NoReason
  {
    var o := KmeansLabel(c, ClusterMean(items, clusters, i));
    BuildResultRecord(c, items[i], o.kind, KmeansClustering, Some(o.confidence), NoReason)
  }

  /** Rule-based records always carry a fractional confidence, so the stored confidence is 0. */
  lemma RuleRecordConfidenceTruncated(c: Config, it: Item)
    requires ValidConfig(c)
    ensures RuleRecord(c, RuleBased, it).classificationConfidence == 0
    ensures RuleRecord(c, RuleBased, it).classificationType == ApplyBusinessRules(c, it).kind
  {
  }

  // ---------------------------------------------------------------------------
  // The hybrid ensemble: the votes dict as an association list in insertion order

  datatype Vote = Vote(kind: Label, weight: real)

  /** `votes.get(k, default)` */
  function Get(votes: seq<Vote>, k: Label, default: real): real
  {
    if votes == [] then default
    else if votes[0].kind == k then votes[0].weight
    else Get(votes[1..], k, default)
  }

  /** The keys of the dict. */
  function Keys(votes: seq<Vote>): set<Label>
  {
    if votes == [] then {} else {votes[0].kind} + Keys(votes[1..])
  }

  /** A dict holds each key once. */
  predicate Distinct(votes: seq<Vote>)
  {
    votes == [] || (votes[0].kind !in Keys(votes[1..]) && Distinct(votes[1..]))
  }

  predicate PositiveWeights(votes: seq<Vote>)
  {
    forall i :: 0 <= i < |votes| ==> votes[i].weight > 0.0
  }

  /** `votes[k] = w`: overwrites an existing key where it stands, or appends a new one. */
  function Put(votes: seq<Vote>, k: Label, w: real): (r: seq<Vote>)
    ensures |r| > 0
    ensures Keys(r) == Keys(votes) + {k}
    ensures k in Keys(votes) ==> |r| == |votes|
    ensures k !in Keys(votes) ==> r == votes + [Vote(k, w)]
    ensures Distinct(votes) ==> Distinct(r)
    ensures forall d :: Get(r, k, d) == w
    ensures forall k', d :: k' != k ==> Get(r, k', d) == Get(votes, k', d)
    ensures PositiveWeights(votes) && w > 0.0 ==> PositiveWeights(r)
  {
    if votes == [] then [Vote(k, w)]
    else if votes[0].kind == k then
      assert ([Vote(k, w)] + votes[1..])[1..] == votes[1..];
      [Vote(k, w)] + votes[1..]
    else
      var rest := Put(votes[1..], k, w);
      assert ([votes[0]] + rest)[1..] == rest;
      assert k !in Keys(votes) ==> [votes[0]] + rest == votes + [Vote(k, w)] by {
        if k !in Keys(votes) {
          assert [votes[0]] + (votes[1..] + [Vote(k, w)]) == votes + [Vote(k, w)];
        }
      }
      [votes[0]] + rest
  }

  /** A lookup in a dict of positive votes, with a non-negative default, is non-negative. */
  lemma {:induction false} GetNonNegative(votes: seq<Vote>, k: Label, d: real)
    requires PositiveWeights(votes) && d >= 0.0
    ensures Get(votes, k, d) >= 0.0
  {
    if votes != [] && votes[0].kind != k {
      GetNonNegative(votes[1..], k, d);
    }
  }

  /** A lookup of a present key is bounded by any bound on the stored weights. */
  lemma {:induction false} GetBounded(votes: seq<Vote>, k: Label, d: real, m: real)
    requires k in Keys(votes)
    requires forall j :: 0 <= j < |votes| ==> votes[j].weight <= m
    ensures Get(votes, k, d) <= m
  {
    if votes[0].kind != k {
      GetBounded(votes[1..], k, d, m);
    }
  }

  /** In a dict, looking up an entry's key yields that entry's weight. */
  lemma {:induction false} GetAt(votes: seq<Vote>, i: nat, d: real)
    requires Distinct(votes) && i < |votes|
    ensures Get(votes, votes[i].kind, d) == votes[i].weight
  {
    if i > 0 {
      KeyAt(votes[1..], i - 1);
      GetAt(votes[1..], i - 1, d);
    }
  }

  /** The stored key of an entry is a key of the dict. */
  lemma {:induction false} KeyAt(votes: seq<Vote>, i: nat)
    requires i < |votes|
    ensures votes[i].kind in Keys(votes)
  {
    if i > 0 {
      KeyAt(votes[1..], i - 1);
    }
  }

  function TotalWeight(votes: seq<Vote>): real
  {
    if votes == [] then 0.0 else votes[0].weight + TotalWeight(votes[1..])
  }

  /** `sum(votes.values())` is at least any one positive vote. */
  lemma {:induction false} TotalWeightBounds(votes: seq<Vote>, k: nat)
    requires PositiveWeights(votes) && k < |votes|
    ensures TotalWeight(votes) >= votes[k].weight > 0.0
  {
    assert PositiveWeights(votes[1..]);
    if k > 0 {
      TotalWeightBounds(votes[1..], k - 1);
    } else if |votes| > 1 {
      TotalWeightBounds(votes[1..], 0);
    }
  }

  /** A positive part of a total, as a percentage, lies in (0, 100]. */
  lemma ShareOfTotal(w: real, t: real)
    requires 0.0 < w <= t
    ensures 0.0 < w / t * 100.0 <= 100.0
  {
    assert (1.0 - w / t) * t == t - w;
  }

  /** `max(votes, key=votes.get)`: a largest entry, the first one among equals. */
  predicate IsFirstMax(votes: seq<Vote>, k: int)
  {
    && 0 <= k < |votes|
    && (forall j :: 0 <= j < |votes| ==> votes[j].weight <= votes[k].weight)
    && (forall j :: 0 <= j < k ==> votes[j].weight < votes[k].weight)
  }

  function FirstMaxIndex(votes: seq<Vote>): (k: nat)
    requires |votes| > 0
    ensures IsFirstMax(votes, k)
  {
    if |votes| == 1 then 0
    else
      var k := FirstMaxIndex(votes[..|votes| - 1]);
      if votes[|votes| - 1].weight > votes[k].weight then |votes| - 1 else k
  }

  /** The dict literal `{rule_class: ..., dbscan_class: ...}` and the FAST bonus. */
  function EnsembleVotes(c: Config, it: Item, rule: RuleOutcome, dbscanKind: Label, dbscanConf: real): (votes: seq<Vote>)
    ensures Distinct(votes) && 0 < |votes| <= 3
    ensures Keys(votes) == {rule.kind, dbscanKind} + (if it.salesVelocity > c.fastMinSalesVelocity then {Fast} else {})
  {
    FastBonus(c, it, Put([Vote(rule.kind, rule.confidence * 0.5)], dbscanKind, dbscanConf * 0.35))
  }

  /** A fast-moving item adds 0.15 to the FAST vote, creating it if absent. */
  function FastBonus(c: Config, it: Item, votes: seq<Vote>): seq<Vote>
  {
    if it.salesVelocity > c.fastMinSalesVelocity then Put(votes, Fast, Get(votes, Fast, 0.0) + 0.15) else votes
  }

  /** With positive confidences the ensemble is a non-empty dict of positive votes. */
  lemma EnsembleVotesPositive(c: Config, it: Item, rule: RuleOutcome, dbscanKind: Label, dbscanConf: real)
    requires rule.confidence > 0.0 && dbscanConf > 0.0
    ensures var votes := EnsembleVotes(c, it, rule, dbscanKind, dbscanConf);
      |votes| > 0 && PositiveWeights(votes) && Distinct(votes)
  {
    var first := [Vote(rule.kind, rule.confidence * 0.5)];
    assert first[1..] == [];
    assert Distinct(first) && PositiveWeights(first);
    FastBonusKeepsDict(c, it, Put(first, dbscanKind, dbscanConf * 0.35));
  }

  /** The FAST bonus keeps a dict of positive votes a non-empty dict of positive votes. */
  lemma FastBonusKeepsDict(c: Config, it: Item, votes: seq<Vote>)
    requires |votes| > 0 && Distinct(votes) && PositiveWeights(votes)
    ensures var r := FastBonus(c, it, votes); |r| > 0 && Distinct(r) && PositiveWeights(r)
  {
    GetNonNegative(votes, Fast, 0.0);
  }

  /** The DBSCAN cluster id of a lone row: a point is its own only neighbour, so it is
      noise exactly when `min_samples` asks for more than one. */
  function SingletonCluster(c: Config): int
  {
    if c.dbscanMinSamples > 1 then -1 else 0
  }

  /** The DBSCAN step of the hybrid, run on the one-row batch: the outlier policy when
      the row is noise, else the member policy on its own velocity; the default 75%
      confidence either way. */
  lemma SingletonDbscan(c: Config, it: Item)
    ensures DbscanRecord(c, [it], [SingletonCluster(c)], 0).classificationConfidence == 75
    ensures DbscanRecord(c, [it], [SingletonCluster(c)], 0).classificationType ==
      if c.dbscanMinSamples > 1 then OutlierLabel(c, it) else MemberLabel(c, it.salesVelocity)
  {
    if c.dbscanMinSamples <= 1 {
      var vs := ClusterVelocities([it], [0], 0);
      assert ClusterVelocities([it][1..], [0][1..], 0) == [];
      assert vs == [it.salesVelocity];
      assert Sum(vs) == it.salesVelocity + Sum([]);
    }
  }

  /** The hybrid's record for one row: the rule's outcome when its confidence exceeds 0.90,
      else the weighted vote. */
  function HybridRecord(c: Config, it: Item): (r: ClassificationResult)
    requires ValidConfig(c)
    ensures r.itemCode == it.itemCode && r.classificationMethod == Hybrid
    ensures 0 <= r.classificationConfidence <= 100
    ensures ActionPlan(r.recommendedAction, r.actionPriority, r.expectedImpact) == RecommendAction(it, r.classificationType)
    ensures ApplyBusinessRules(c, it).confidence > 0.90 ==>
      r.classificationType == ApplyBusinessRules(c, it).kind && r.classificationReason == RuleReason(r.classificationType)
    ensures ApplyBusinessRules(c, it).confidence <= 0.90 ==> r == VotedRecord(c, it)
  {
    var rule := ApplyBusinessRules(c, it);
    if rule.confidence > 0.90 then
      BuildResultRecord(c, it, rule.kind, Hybrid, Some(rule.confidence), RuleReason(rule.kind))
    else
      VotedRecord(c, it)
  }

  /** The ensemble branch of the hybrid: the rule votes with half its confidence, DBSCAN on
      the one-row batch with 0.35 of 0.75, and a fast mover adds 0.15 to FAST; the winner is
      one of those three kinds, and its confidence is its share of all votes. */
  function VotedRecord(c: Config, it: Item): (r: ClassificationResult)
    requires ValidConfig(c)
    ensures r.itemCode == it.itemCode && r.classificationMethod == Hybrid
    ensures 0 <= r.classificationConfidence <= 100
    ensures ActionPlan(r.recommendedAction, r.actionPriority, r.expectedImpact) == RecommendAction(it, r.classificationType)
    ensures r.classificationType in {ApplyBusinessRules(c, it).kind, DbscanLabel(c, [it], [SingletonCluster(c)], 0), Fast}
    ensures r.classificationReason ==
      EnsembleReason(ApplyBusinessRules(c, it).kind, ApplyBusinessRules(c, it).confidence, 0.75, r.classificationType)
  {
    var rule := ApplyBusinessRules(c, it);
    var d := DbscanRecord(c, [it], [SingletonCluster(c)], 0);
    var dConf := d.classificationConfidence as real / 100.0;
    SingletonDbscan(c, it);
    RuleConfidenceRange(c, it);
    var votes := EnsembleVotes(c, it, rule, d.classificationType, dConf);
    EnsembleVotesPositive(c, it, rule, d.classificationType, dConf);
    var k := FirstMaxIndex(votes);
    TotalWeightBounds(votes, k);
    KeyAt(votes, k);
    assert votes[k].kind in {rule.kind, d.classificationType, Fast};
    var conf := votes[k].weight / TotalWeight(votes) * 100.0;
    ShareOfTotal(votes[k].weight, TotalWeight(votes));
    BuildResultRecord(c, it, votes[k].kind, Hybrid, Some(conf),
      EnsembleReason(rule.kind, rule.confidence, dConf, votes[k].kind))
  }

  /** The voted record carries the dict's first maximal vote (`max(votes, key=votes.get)`), and
      its stored confidence is `int()` of that vote's share of all votes, in percent. */
  lemma VotedRecordWinner(c: Config, it: Item)
    requires ValidConfig(c)
    ensures var votes := EnsembleVotes(c, it, ApplyBusinessRules(c, it), DbscanLabel(c, [it], [SingletonCluster(c)], 0), 0.75);
      && |votes| > 0
      && var k := FirstMaxIndex(votes);
      && IsFirstMax(votes, k) && WinnerFacts(votes, k)
      && VotedRecord(c, it).classificationType == votes[k].kind
      && var share := votes[k].weight / TotalWeight(votes) * 100.0;
      && share * TotalWeight(votes) == votes[k].weight * 100.0
      && VotedRecord(c, it).classificationConfidence as real <= share < VotedRecord(c, it).classificationConfidence as real + 1.0
  {
    var rule := ApplyBusinessRules(c, it);
    SingletonDbscan(c, it);
    RuleConfidenceRange(c, it);
    HybridVoteWinner(c, it, rule, DbscanLabel(c, [it], [SingletonCluster(c)], 0), 0.75);
  }

  /** A rule confidence above 0.90 is kept verbatim under the HYBRID tag. Under the default
      thresholds that covers NEW_ITEM, DEAD_STOCK and FAST, so only SLOW and MEDIUM are voted on. */
  lemma HybridShortcut(c: Config, it: Item)
    requires ValidConfig(c)
    ensures ApplyBusinessRules(c, it).confidence > 0.90 ==>
      && HybridRecord(c, it).classificationType == ApplyBusinessRules(c, it).kind
      && HybridRecord(c, it).classificationMethod == Hybrid
      && HybridRecord(c, it).classificationConfidence == 0
    ensures c == DefaultConfig ==>
      (ApplyBusinessRules(c, it).confidence > 0.90 <==> ApplyBusinessRules(c, it).kind in {NewItem, DeadStock, Fast})
  {
  }

  /** The ensemble's winner holds the largest vote of the dict, strictly larger than every
      key inserted before it, and its confidence, its share of all votes, lies in (0, 100]. */
  lemma HybridVoteWinner(c: Config, it: Item, rule: RuleOutcome, dbscanKind: Label, dbscanConf: real)
    requires rule.confidence > 0.0 && dbscanConf > 0.0
    ensures var votes := EnsembleVotes(c, it, rule, dbscanKind, dbscanConf);
      |votes| > 0 && WinnerFacts(votes, FirstMaxIndex(votes))
  {
    var votes := EnsembleVotes(c, it, rule, dbscanKind, dbscanConf);
    EnsembleVotesPositive(c, it, rule, dbscanKind, dbscanConf);
    Winner(votes);
  }

  /** What `max(votes, key=votes.get)` and `votes[w] / sum(votes.values()) * 100` give. */
  predicate WinnerFacts(votes: seq<Vote>, k: int)
  {
    && 0 <= k < |votes|
    && Get(votes, votes[k].kind, 0.0) == votes[k].weight
    && (forall l :: l in Keys(votes) ==> Get(votes, l, 0.0) <= votes[k].weight)
    && TotalWeight(votes) > 0.0
    && 0.0 < votes[k].weight / TotalWeight(votes) * 100.0 <= 100.0
  }

  lemma Winner(votes: seq<Vote>)
    requires |votes| > 0 && PositiveWeights(votes) && Distinct(votes)
    ensures WinnerFacts(votes, FirstMaxIndex(votes))
  {
    var k := FirstMaxIndex(votes);
    TotalWeightBounds(votes, k);
    ShareOfTotal(votes[k].weight, TotalWeight(votes));
    GetAt(votes, k, 0.0);
    forall l | l in Keys(votes) ensures Get(votes, l, 0.0) <= votes[k].weight {
      GetBounded(votes, l, 0.0, votes[k].weight);
    }
  }

  /** The dict literal keeps one entry per key: when the rule and DBSCAN agree, DBSCAN's
      weight replaces the rule's instead of adding to it. FAST gains exactly 0.15 when the
      velocity passes the FAST threshold, and nothing otherwise. */
  lemma HybridVoteArithmetic(c: Config, it: Item, rule: RuleOutcome, dbscanKind: Label, dbscanConf: real)
    ensures var votes := EnsembleVotes(c, it, rule, dbscanKind, dbscanConf);
      var base := Put([Vote(rule.kind, rule.confidence * 0.5)], dbscanKind, dbscanConf * 0.35);
      && Get(base, dbscanKind, 0.0) == dbscanConf * 0.35
      && (rule.kind != dbscanKind ==> Get(base, rule.kind, 0.0) == rule.confidence * 0.5)
      && (rule.kind == dbscanKind ==> |base| == 1)
      && (it.salesVelocity > c.fastMinSalesVelocity ==> Get(votes, Fast, 0.0) == Get(base, Fast, 0.0) + 0.15)
      && (it.salesVelocity <= c.fastMinSalesVelocity ==> votes == base)
  {
  }

  /** Default thresholds, a SLOW rule outcome: DBSCAN also says SLOW, the rule's 0.425 is
      overwritten by 0.2625, and the record is SLOW with confidence 100. */
  lemma HybridSlowExample(it: Item)
    requires ApplyBusinessRules(DefaultConfig, it).kind == Slow
    ensures HybridRecord(DefaultConfig, it).classificationType == Slow
    ensures HybridRecord(DefaultConfig, it).classificationConfidence == 100
  {
    var c := DefaultConfig;
    var rule := ApplyBusinessRules(c, it);
    SingletonDbscan(c, it);
    var d := DbscanRecord(c, [it], [SingletonCluster(c)], 0);
    assert d.classificationType == Slow;
    var votes := EnsembleVotes(c, it, rule, Slow, 0.75);
    assert votes == [Vote(Slow, 0.75 * 0.35)];
    assert FirstMaxIndex(votes) == 0;
    assert TotalWeight(votes) == 0.75 * 0.35 + TotalWeight([]);
  }

  // ---------------------------------------------------------------------------
  // The model object and its batch methods

  datatype ClassifyError = UnknownMethod(name: string) | KmeansFailed

  /** The distinct cluster ids of a batch. */
  function ClusterIds(clusters: seq<int>): set<int>
  {
    set i | 0 <= i < |clusters| :: clusters[i]
  }

  /** KMeans refuses fewer rows than clusters, and the silhouette score refuses a labelling
      with fewer than 2 or more than n - 1 distinct clusters: `_classify_kmeans` raises. */
  predicate KmeansRejects(c: Config, n: int, clusters: seq<int>)
  {
    n < c.kmeansNClusters || |ClusterIds(clusters)| < 2 || |ClusterIds(clusters)| > n - 1
  }

  function MethodTagOf(name: string): MethodTag
  {
    if name == "dbscan" then DbscanClustering
    else if name == "kmeans" then KmeansClustering
    else if name == "rule_based" then RuleBased
    else Hybrid
  }

  predicate KnownMethod(name: string)
  {
    name == "dbscan" || name == "kmeans" || name == "rule_based" || name == "hybrid"
  }

  /** What `classify_items` answers for prepared rows: one record per row, in row order,
      tagged with the method; an error for an unknown name or a batch KMeans refuses. */
  function ResultsFor(c: Config, name: string, items: seq<Item>, clusters: seq<int>): (r: Result<seq<ClassificationResult>, ClassifyError>)
    requires name == "dbscan" || name == "kmeans" ==> |clusters| == |items|
    requires name == "hybrid" ==> ValidConfig(c)
    ensures !KnownMethod(name) ==> r == Err(UnknownMethod(name))
    ensures name == "kmeans" ==> (r == Err(KmeansFailed) <==> KmeansRejects(c, |items|, clusters))
    ensures r.Ok? <==> KnownMethod(name) && !(name == "kmeans" && KmeansRejects(c, |items|, clusters))
    ensures r.Ok? ==> |r.value| == |items|
    ensures r.Ok? ==> forall i :: 0 <= i < |items| ==>
      r.value[i].itemCode == items[i].itemCode && r.value[i].classificationMethod == MethodTagOf(name)
  {
    if name == "dbscan" then Ok(seq(|items|, i requires 0 <= i < |items| => DbscanRecord(c, items, clusters, i)))
    else if name == "kmeans" then
      if KmeansRejects(c, |items|, clusters) then Err(KmeansFailed)
      else Ok(seq(|items|, i requires 0 <= i < |items| => KmeansRecord(c, items, clusters, i)))
    else if name == "rule_based" then Ok(seq(|items|, i requires 0 <= i < |items| => RuleRecord(c, RuleBased, items[i])))
    else if name == "hybrid" then Ok(seq(|items|, i requires 0 <= i < |items| => HybridRecord(c, items[i])))
    else Err(UnknownMethod(name))
  }

  class ItemClassificationModel {
    const config: Config
    var modelsTrained: bool
    /** The time of the last successful run; the clock reading is supplied by the caller. */
    var lastTrained: Option<int>

    constructor (config: Config)
      ensures this.config == config && !modelsTrained && lastTrained == None
    {
      this.config := config;
      modelsTrained := false;
      lastTrained := None;
    }

    method ClassifyRuleBased(items: seq<Item>) returns (results: seq<ClassificationResult>)
      ensures |results| == |items|
      ensures forall i :: 0 <= i < |items| ==> results[i] == RuleRecord(config, RuleBased, items[i])
    {
      results := [];
      for i := 0 to |items|
        invariant |results| == i
        invariant forall j :: 0 <= j < i ==> results[j] == RuleRecord(config, RuleBased, items[j])
      {
        var o := ApplyBusinessRules(config, items[i]);
        var r := BuildResultRecord(config, items[i], o.kind, RuleBased, Some(o.confidence), NoReason);
        r := r.(classificationReason := RuleReason(o.kind));
        results := results + [r];
      }
    }

    method ClassifyDbscan(items: seq<Item>, clusters: seq<int>) returns (results: seq<ClassificationResult>)
      requires |clusters| == |items|
      ensures |results| == |items|
      ensures forall i :: 0 <= i < |items| ==> results[i] == DbscanRecord(config, items, clusters, i)
    {
      results := [];
      for i := 0 to |items|
        invariant |results| == i
        invariant forall j :: 0 <= j < i ==> results[j] == DbscanRecord(config, items, clusters, j)
      {
        var kind := DbscanLabel(config, items, clusters, i);
        results := results + [BuildResultRecord(config, items[i], kind, DbscanClustering, None, NoReason)];
      }
    }

    method ClassifyKmeans(items: seq<Item>, clusters: seq<int>) returns (r: Result<seq<ClassificationResult>, ClassifyError>)
      requires |clusters| == |items|
      ensures KmeansRejects(config, |items|, clusters) ==> r == Err(KmeansFailed)
      ensures !KmeansRejects(config, |items|, clusters) ==> r.Ok? && |r.value| == |items|
      ensures r.Ok? ==> forall i :: 0 <= i < |items| ==> r.value[i] == KmeansRecord(config, items, clusters, i)
    {
      if KmeansRejects(config, |items|, clusters) {
        return Err(KmeansFailed);
      }
      var results := [];
      for i := 0 to |items|
        invariant |results| == i
        invariant forall j :: 0 <= j < i ==> results[j] == KmeansRecord(config, items, clusters, j)
      {
        var o := KmeansLabel(config, ClusterMean(items, clusters, i));
        results := results + [BuildResultRecord(config, items[i], o.kind, KmeansClustering, Some(o.confidence), NoReason)];
      }
      r := Ok(results);
    }

    /** Builds the votes dict: the rule's and DBSCAN's weighted confidences, then the FAST bonus. */
    method TallyVotes(it: Item, rule: RuleOutcome, dbscanKind: Label, dbscanConf: real) returns (votes: seq<Vote>)
      ensures votes == EnsembleVotes(config, it, rule, dbscanKind, dbscanConf)
    {
      var ruleVote := [Vote(rule.kind, rule.confidence * 0.5)];
      var paired := Put(ruleVote, dbscanKind, dbscanConf * 0.35);
      if it.salesVelocity > config.fastMinSalesVelocity {
        votes := Put(paired, Fast, Get(paired, Fast, 0.0) + 0.15);
      } else {
        votes := paired;
      }
    }

    /** One row of the hybrid: the rule shortcut, else a weighted vote held in a dict. */
    method ClassifyHybridRow(it: Item) returns (result: ClassificationResult)
      requires ValidConfig(config)
      ensures result == HybridRecord(config, it)
    {
      var rule := ApplyBusinessRules(config, it);
      if rule.confidence > 0.90 {
        result := BuildResultRecord(config, it, rule.kind, Hybrid, Some(rule.confidence), NoReason);
        result := result.(classificationReason := RuleReason(rule.kind));
      } else {
        result := VoteRow(it, rule);
      }
    }

    /** The ensemble branch of one hybrid row: DBSCAN on the one-row batch, the votes,
        and the winner's share of them. */
    method VoteRow(it: Item, rule: RuleOutcome) returns (result: ClassificationResult)
      requires ValidConfig(config) && rule == ApplyBusinessRules(config, it)
      ensures result == VotedRecord(config, it)
    {
      var dbscan := ClassifyDbscan([it], [SingletonCluster(config)]);
      var dbscanKind := dbscan[0].classificationType;
      var dbscanConf := dbscan[0].classificationConfidence as real / 100.0;
      SingletonDbscan(config, it);
      assert dbscan[0] == DbscanRecord(config, [it], [SingletonCluster(config)], 0);
      assert dbscanConf == 0.75;
      RuleConfidenceRange(config, it);
      var votes := TallyVotes(it, rule, dbscanKind, dbscanConf);
      EnsembleVotesPositive(config, it, rule, dbscanKind, dbscanConf);
      var k := FirstMaxIndex(votes);
      TotalWeightBounds(votes, k);
      var finalConf := votes[k].weight / TotalWeight(votes) * 100.0;
      result := BuildResultRecord(config, it, votes[k].kind, Hybrid, Some(finalConf), NoReason);
      result := result.(classificationReason := EnsembleReason(rule.kind, rule.confidence, dbscanConf, votes[k].kind));
    }

    method ClassifyHybrid(items: seq<Item>) returns (results: seq<ClassificationResult>)
      requires ValidConfig(config)
      ensures |results| == |items|
      ensures forall i :: 0 <= i < |items| ==> results[i] == HybridRecord(config, items[i])
    {
      results := [];
      for i := 0 to |items|
        invariant |results| == i
        invariant forall j :: 0 <= j < i ==> results[j] == HybridRecord(config, items[j])
      {
        var r := ClassifyHybridRow(items[i]);
        results := results + [r];
      }
    }

    /** `classify_items`: prepare, dispatch on the method name, record the run. An empty
        prepared batch returns no records before the name is looked at; an unknown name or
        a batch KMeans refuses is an error; neither touches the model's state. */
    method ClassifyItems(frame: Frame, name: string, clusters: seq<int>, now: int)
      returns (r: Result<seq<ClassificationResult>, ClassifyError>)
      requires name == "dbscan" || name == "kmeans" ==> |clusters| == |PreparedRows(frame)|
      requires name == "hybrid" ==> ValidConfig(config)
      modifies this
      ensures PreparedRows(frame) == [] ==> r == Ok([]) && unchanged(this)
      ensures PreparedRows(frame) != [] ==> r == ResultsFor(config, name, PreparedRows(frame), clusters)
      ensures PreparedRows(frame) != [] && r.Err? ==> unchanged(this)
      ensures PreparedRows(frame) != [] && r.Ok? ==> modelsTrained && lastTrained == Some(now)
    {
      var items := PrepareData(frame);
      if |items| == 0 {
        return Ok([]);
      }
      var results: seq<ClassificationResult>;
      if name == "dbscan" {
        results := ClassifyDbscan(items, clusters);
      } else if name == "kmeans" {
        var k := ClassifyKmeans(items, clusters);
        if k.Err? {
          return k;
        }
        results := k.value;
      } else if name == "rule_based" {
        results := ClassifyRuleBased(items);
      } else if name == "hybrid" {
        results := ClassifyHybrid(items);
      } else {
        return Err(UnknownMethod(name));
      }
      assert ResultsFor(config, name, items, clusters).Ok?;
      assert results == ResultsFor(config, name, items, clusters).value;
      lastTrained := Some(now);
      modelsTrained := true;
      r := Ok(results);
    }
  }
}
