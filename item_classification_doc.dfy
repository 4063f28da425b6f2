/** The Item Classification document: a record whose methods fill in derived
    metrics and classification fields in place, either from the classifier's
    hybrid run or from its own hard-coded rule fallback, and the insight lists
    built from those fields. */
module ItemClassificationDoc {
  import opened Numeric
  import opened ItemClassification

  /** What the document's own fallback decides: kind, a 0-100 confidence, action and priority. */
  datatype Verdict = Verdict(kind: Label, confidence: int, action: Action, priority: int)

  /** The fallback rules with their hard-coded thresholds, first match wins. */
  function FallbackVerdict(it: Item): (v: Verdict)
    ensures v.kind == NewItem <==> it.itemAgeDays < 90.0
    ensures v.kind == DeadStock <==>
      it.itemAgeDays >= 90.0 && (it.daysSinceLastSale > 180.0 || it.annualSalesQty < 10.0)
    ensures v == Verdict(NewItem, 99, MarketMore, 7) || v == Verdict(DeadStock, 95, Liquidation, 10)
         || v == Verdict(Fast, 90, IncreaseStock, 8) || v == Verdict(Slow, 85, MaintainStock, 2)
         || v == Verdict(Medium, 75, MaintainStock, 5)
  {
    if it.itemAgeDays < 90.0 then Verdict(NewItem, 99, MarketMore, 7)
    else if it.daysSinceLastSale > 180.0 || it.annualSalesQty < 10.0 then Verdict(DeadStock, 95, Liquidation, 10)
    else if it.salesVelocity > 2.7 && it.turnoverRatio > 0.7 then Verdict(Fast, 90, IncreaseStock, 8)
    else if it.salesVelocity < 0.5 && it.daysSinceLastSale < 60.0 then Verdict(Slow, 85, MaintainStock, 2)
    else Verdict(Medium, 75, MaintainStock, 5)
  }

  /** The fallback picks the same kind as the classifier's rules under the default
      configuration. Its confidence is the rule's fraction times 100, except for
      FAST, where the fixed 90 lies below the classifier's (90.5, 99]. */
  lemma FallbackMatchesModelRules(it: Item)
    ensures FallbackVerdict(it).kind == ApplyBusinessRules(DefaultConfig, it).kind
    ensures FallbackVerdict(it).kind != Fast ==>
      FallbackVerdict(it).confidence as real == ApplyBusinessRules(DefaultConfig, it).confidence * 100.0
    ensures FallbackVerdict(it).kind == Fast ==>
      FallbackVerdict(it).confidence as real < ApplyBusinessRules(DefaultConfig, it).confidence * 100.0
  {
    RulePrecedence(DefaultConfig, it);
    if FallbackVerdict(it).kind == Fast {
      FastConfidenceRange(it);
    }
  }

  /** An item younger than 90 days is NEW_ITEM whatever its other figures. */
  lemma YoungItemIsNew(it: Item)
    requires it.itemAgeDays < 90.0
    ensures FallbackVerdict(it) == Verdict(NewItem, 99, MarketMore, 7)
  {
  }

  /** One line of the recommendation list; the numbered lines carry their figure. */
  datatype Advice =
    | Line(text: string)
    | ReduceOrders(daysOfStock: real)
    | LiquidateToRecover(amount: real)
    | HoldingCosts(amount: real)
    | ExpectedGrowth(percent: real)

  datatype ActionName = Recommended(action: Option<Action>) | ScheduleReview
  datatype Impact = ImpactAmount(amount: real) | DataDrivenInsights

  /** One action item; `date` is a day number, today's supplied by the caller. */
  datatype ActionItem = ActionItem(name: ActionName, priority: int, impact: Impact, date: int)

  class ItemClassificationDocument {
    var itemCode: string
    var annualSalesQty: real
    var annualSalesValue: real
    var currentStock: real
    var stockValue: real
    var itemAgeDays: real
    var daysSinceLastSale: real
    var salesVelocity: real
    var turnoverRatio: real
    var consistencyScore: real
    var demandVariability: real

    var daysOfStock: real
    var holdingCostAnnually: real
    var abcCategory: AbcCategory
    var dormancyStatus: Dormancy
    var newItemStatus: NewItemStatus

    var classificationType: Option<Label>
    var classificationConfidence: int
    var classificationMethod: Option<MethodTag>
    var classificationReason: Reason
    var recommendedAction: Option<Action>
    var actionPriority: int
    var expectedImpact: real

    /** A fresh document holding an item's figures; every number field not given starts at 0. */
    constructor (itemCode: string, annualSalesQty: real, annualSalesValue: real, currentStock: real,
                 stockValue: real, itemAgeDays: real, daysSinceLastSale: real, salesVelocity: real,
                 turnoverRatio: real, consistencyScore: real, demandVariability: real)
      ensures Figures() == Item(itemCode, annualSalesQty, annualSalesValue, currentStock, stockValue,
                                itemAgeDays, daysSinceLastSale, salesVelocity, turnoverRatio,
                                consistencyScore, demandVariability, 0.0)
      ensures classificationType == None && recommendedAction == None && expectedImpact == 0.0
    {
      this.itemCode := itemCode;
      this.annualSalesQty := annualSalesQty;
      this.annualSalesValue := annualSalesValue;
      this.currentStock := currentStock;
      this.stockValue := stockValue;
      this.itemAgeDays := itemAgeDays;
      this.daysSinceLastSale := daysSinceLastSale;
      this.salesVelocity := salesVelocity;
      this.turnoverRatio := turnoverRatio;
      this.consistencyScore := consistencyScore;
      this.demandVariability := demandVariability;
      daysOfStock := 0.0;
      holdingCostAnnually := 0.0;
      abcCategory := C;
      dormancyStatus := Active;
      newItemStatus := Launch;
      classificationType := None;
      classificationConfidence := 0;
      classificationMethod := None;
      classificationReason := NoReason;
      recommendedAction := None;
      actionPriority := 0;
      expectedImpact := 0.0;
    }

    /** The document's figures in the classifier's row shape. */
    function Figures(): Item
      reads this
    {
      Item(itemCode, annualSalesQty, annualSalesValue, currentStock, stockValue, itemAgeDays,
           daysSinceLastSale, salesVelocity, turnoverRatio, consistencyScore, demandVariability,
           holdingCostAnnually)
    }

    /** The one-row batch handed to the classifier: every column present, a zero
        consistency replaced by 50, and no holding-cost column. */
    function ModelFrame(): Frame
      reads this
    {
      Frame([RawItem(itemCode, Some(annualSalesQty), Some(annualSalesValue), Some(currentStock),
                     Some(stockValue), Some(itemAgeDays), Some(daysSinceLastSale), Some(salesVelocity),
                     Some(turnoverRatio), Some(if consistencyScore != 0.0 then consistencyScore else 50.0),
                     Some(demandVariability), None)],
            true, true, true)
    }

    /** The row the classifier actually sees after preparing that batch. */
    function ModelItem(): (it: Item)
      reads this
      ensures it.annualSalesQty == annualSalesQty && it.salesVelocity == salesVelocity
      ensures it.holdingCostAnnually == 0.0
      ensures annualSalesQty > 0.0 ==> PreparedRows(ModelFrame()) == [it]
      ensures annualSalesQty <= 0.0 ==> PreparedRows(ModelFrame()) == []
    {
      var f := ModelFrame();
      assert f.rows[..0] == [];
      PrepareRow(f, f.rows[0])
    }

    /** Days of stock, turnover, 20% holding cost, the item age (when the lookup
        supplies one) and the ABC, dormancy and new-item bands, in that order. */
    method CalculateDerivedMetrics(age: Option<real>)
      modifies this
      ensures salesVelocity > 0.0 ==> daysOfStock * salesVelocity == currentStock
      ensures salesVelocity <= 0.0 ==> daysOfStock == 0.0
      ensures currentStock > 0.0 ==> turnoverRatio * currentStock == annualSalesQty
      ensures currentStock <= 0.0 ==> turnoverRatio == 0.0
      ensures holdingCostAnnually == stockValue * 0.20
      ensures itemAgeDays == age.GetOr(old(itemAgeDays))
      ensures abcCategory == AbcOf(annualSalesValue)
      ensures dormancyStatus == DormancyOf(daysSinceLastSale)
      ensures newItemStatus == NewItemStatusOf(itemAgeDays)
      ensures daysOfStock == DaysOfStock(Figures())
      ensures Inputs() == old(Inputs())
      ensures Classification() == old(Classification())
    {
      UpdateStockMetrics();
      if age.Some? {
        itemAgeDays := age.value;
      }
      UpdateBands();
    }

    /** The input figures that the derived metrics never change. */
    function Inputs(): (string, real, real, real, real, real, real, real, real)
      reads this
    {
      (itemCode, annualSalesQty, annualSalesValue, currentStock, stockValue, daysSinceLastSale,
       salesVelocity, consistencyScore, demandVariability)
    }

    /** The classification fields, which the derived metrics never change. */
    function Classification(): (Option<Label>, int, Option<MethodTag>, Reason, Option<Action>, int, real)
      reads this
    {
      (classificationType, classificationConfidence, classificationMethod, classificationReason,
       recommendedAction, actionPriority, expectedImpact)
    }

    method UpdateStockMetrics()
      modifies this
      ensures salesVelocity > 0.0 ==> daysOfStock * salesVelocity == currentStock
      ensures salesVelocity <= 0.0 ==> daysOfStock == 0.0
      ensures currentStock > 0.0 ==> turnoverRatio * currentStock == annualSalesQty
      ensures currentStock <= 0.0 ==> turnoverRatio == 0.0
      ensures holdingCostAnnually == stockValue * 0.20
      ensures daysOfStock == DaysOfStock(Figures())
      ensures Inputs() == old(Inputs()) && Classification() == old(Classification())
      ensures itemAgeDays == old(itemAgeDays)
    {
      if salesVelocity > 0.0 {
        daysOfStock := currentStock / salesVelocity;
      } else {
        daysOfStock := 0.0;
      }

      if currentStock > 0.0 {
        turnoverRatio := annualSalesQty / currentStock;
      } else {
        turnoverRatio := 0.0;
      }

      holdingCostAnnually := stockValue * 0.20;
    }

    method UpdateBands()
      modifies this
      ensures abcCategory == AbcOf(annualSalesValue)
      ensures dormancyStatus == DormancyOf(daysSinceLastSale)
      ensures newItemStatus == NewItemStatusOf(itemAgeDays)
      ensures Figures() == old(Figures()) && daysOfStock == old(daysOfStock)
      ensures Classification() == old(Classification())
    {
      if annualSalesValue > 100000.0 {
        abcCategory := A;
      } else if annualSalesValue > 20000.0 {
        abcCategory := B;
      } else {
        abcCategory := C;
      }

      if daysSinceLastSale < 90.0 {
        dormancyStatus := Active;
      } else if daysSinceLastSale < 180.0 {
        dormancyStatus := Sleepy;
      } else if daysSinceLastSale < 365.0 {
        dormancyStatus := Dormant;
      } else {
        dormancyStatus := Dead;
      }

      if itemAgeDays < 30.0 {
        newItemStatus := Launch;
      } else if itemAgeDays < 90.0 {
        newItemStatus := Learning;
      } else if itemAgeDays < 180.0 {
        newItemStatus := Graduation;
      } else {
        newItemStatus := Established;
      }
    }

    /** The fields a classification leaves alone: the figures, the bands and the
        expected impact. */
    function Untouched(): (Item, real, AbcCategory, Dormancy, NewItemStatus, real)
      reads this
    {
      (Figures(), daysOfStock, abcCategory, dormancyStatus, newItemStatus, expectedImpact)
    }

    /** Writes the type, confidence and method tag. */
    method SetLabel(kind: Label, confidence: int, tag: MethodTag)
      modifies this
      ensures classificationType == Some(kind) && classificationConfidence == confidence
      ensures classificationMethod == Some(tag)
      ensures classificationReason == old(classificationReason)
      ensures recommendedAction == old(recommendedAction) && actionPriority == old(actionPriority)
      ensures Untouched() == old(Untouched())
    {
      classificationType := Some(kind);
      classificationConfidence := confidence;
      classificationMethod := Some(tag);
    }

    /** Writes the reason, action and priority. */
    method SetDecision(reason: Reason, action: Action, priority: int)
      modifies this
      ensures classificationReason == reason
      ensures recommendedAction == Some(action) && actionPriority == priority
      ensures classificationType == old(classificationType)
      ensures classificationConfidence == old(classificationConfidence)
      ensures classificationMethod == old(classificationMethod)
      ensures Untouched() == old(Untouched())
    {
      classificationReason := reason;
      recommendedAction := Some(action);
      actionPriority := priority;
    }

    /** Writes the six classification fields that every classification path sets;
        the figures, the bands and the expected impact stay as they are. */
    method SetClassification(kind: Label, confidence: int, tag: MethodTag, reason: Reason,
                             action: Action, priority: int)
      modifies this
      ensures classificationType == Some(kind) && classificationConfidence == confidence
      ensures classificationMethod == Some(tag) && classificationReason == reason
      ensures recommendedAction == Some(action) && actionPriority == priority
      ensures Untouched() == old(Untouched())
    {
      SetLabel(kind, confidence, tag);
      SetDecision(reason, action, priority);
    }

    /** The fallback: exactly one rule fires and sets type, confidence, the
        RULE_BASED tag, reason, action and priority; nothing else changes. */
    method RunRuleBasedClassification()
      modifies this
      ensures var v := FallbackVerdict(old(Figures()));
        && classificationType == Some(v.kind)
        && classificationConfidence == v.confidence
        && classificationMethod == Some(RuleBased)
        && classificationReason == RuleReason(v.kind)
        && recommendedAction == Some(v.action)
        && actionPriority == v.priority
      ensures Untouched() == old(Untouched())
    {
      if itemAgeDays < 90.0 {
        SetClassification(NewItem, 99, RuleBased, RuleReason(NewItem), MarketMore, 7);
        return;
      }
      if daysSinceLastSale > 180.0 || annualSalesQty < 10.0 {
        SetClassification(DeadStock, 95, RuleBased, RuleReason(DeadStock), Liquidation, 10);
        return;
      }
      if salesVelocity > 2.7 && turnoverRatio > 0.7 {
        SetClassification(Fast, 90, RuleBased, RuleReason(Fast), IncreaseStock, 8);
        return;
      }
      if salesVelocity < 0.5 && daysSinceLastSale < 60.0 {
        SetClassification(Slow, 85, RuleBased, RuleReason(Slow), MaintainStock, 2);
        return;
      }
      SetClassification(Medium, 75, RuleBased, RuleReason(Medium), MaintainStock, 5);
    }

    /** Runs the classifier's hybrid method on this one item and copies its record
        in; falls back to the document's rules when the classifier is not available
        or the item lookup that builds the batch fails. A non-positive annual
        quantity leaves the batch empty, and then nothing is copied. */
    method RunClassification(modelAvailable: bool, lookupFails: bool, now: int)
      modifies this
      ensures Figures() == old(Figures())
      ensures daysOfStock == old(daysOfStock) && abcCategory == old(abcCategory)
      ensures dormancyStatus == old(dormancyStatus) && newItemStatus == old(newItemStatus)
      ensures !modelAvailable || lookupFails ==>
        var v := FallbackVerdict(old(Figures()));
        && classificationType == Some(v.kind)
        && classificationConfidence == v.confidence
        && classificationMethod == Some(RuleBased)
        && classificationReason == RuleReason(v.kind)
        && recommendedAction == Some(v.action)
        && actionPriority == v.priority
        && expectedImpact == old(expectedImpact)
      ensures modelAvailable && !lookupFails && old(annualSalesQty) > 0.0 ==>
        var rec := HybridRecord(DefaultConfig, old(ModelItem()));
        && classificationType == Some(rec.classificationType)
        && classificationConfidence == rec.classificationConfidence
        && classificationMethod == Some(rec.classificationMethod)
        && classificationReason == rec.classificationReason
        && recommendedAction == Some(rec.recommendedAction)
        && actionPriority == rec.actionPriority
        && expectedImpact == rec.expectedImpact
      ensures modelAvailable && !lookupFails && old(annualSalesQty) <= 0.0 ==>
        && classificationType == old(classificationType)
        && classificationConfidence == old(classificationConfidence)
        && classificationMethod == old(classificationMethod)
        && classificationReason == old(classificationReason)
        && recommendedAction == old(recommendedAction)
        && actionPriority == old(actionPriority)
        && expectedImpact == old(expectedImpact)
    {
      if !modelAvailable || lookupFails {
        RunRuleBasedClassification();
        return;
      }
      var rec := ClassifyWithModel(now);
      if rec.Some? {
        ApplyRecord(rec.value);
      }
    }

    /** The hybrid classifier on the one-row batch: the item's record, or none
        when preparation drops the row. */
    method ClassifyWithModel(now: int) returns (rec: Option<ClassificationResult>)
      ensures annualSalesQty > 0.0 ==> rec == Some(HybridRecord(DefaultConfig, ModelItem()))
      ensures annualSalesQty <= 0.0 ==> rec == None
    {
      var model := new ItemClassificationModel(DefaultConfig);
      var r := model.ClassifyItems(ModelFrame(), "hybrid", [], now);
      if r.Ok? && |r.value| > 0 {
        rec := Some(r.value[0]);
      } else {
        rec := None;
      }
    }

    /** Copies a classifier record's classification fields into the document. */
    method ApplyRecord(rec: ClassificationResult)
      modifies this
      ensures classificationType == Some(rec.classificationType)
      ensures classificationConfidence == rec.classificationConfidence
      ensures classificationMethod == Some(rec.classificationMethod)
      ensures classificationReason == rec.classificationReason
      ensures recommendedAction == Some(rec.recommendedAction)
      ensures actionPriority == rec.actionPriority
      ensures expectedImpact == rec.expectedImpact
      ensures Figures() == old(Figures())
      ensures daysOfStock == old(daysOfStock) && abcCategory == old(abcCategory)
      ensures dormancyStatus == old(dormancyStatus) && newItemStatus == old(newItemStatus)
    {
      SetClassification(rec.classificationType, rec.classificationConfidence, rec.classificationMethod,
                        rec.classificationReason, rec.recommendedAction, rec.actionPriority);
      expectedImpact := rec.expectedImpact;
    }

    /** The recommendation lines for the stored classification. */
    function GetRecommendations(): (r: seq<Advice>)
      reads this
      ensures classificationType == Some(Fast) ==> |r| == 4
      ensures classificationType == Some(Slow) ==> |r| == 3 && (r[0] == ReduceOrders(daysOfStock) <==> daysOfStock > 180.0)
      ensures classificationType == Some(DeadStock) ==>
        |r| == 4 && r[0] == LiquidateToRecover(expectedImpact) && r[1] == HoldingCosts(holdingCostAnnually)
      ensures classificationType == Some(NewItem) ==>
        |r| == 4 && r[1].ExpectedGrowth? && r[1].percent * Max(annualSalesValue, 1.0) == expectedImpact * 100.0
      ensures classificationType !in {Some(Fast), Some(Slow), Some(DeadStock), Some(NewItem)} ==> r == []
    {
      match classificationType
      case Some(Fast) =>
        [Line("Increase safety stock by 20-30%"), Line("Implement more frequent reordering"),
         Line("Negotiate better supplier terms"), Line("Consider bulk purchasing discounts")]
      case Some(Slow) =>
        if daysOfStock > 180.0 then
          [ReduceOrders(daysOfStock), Line("Review with procurement"), Line("Consider sales promotion")]
        else
          [Line("Maintain current stock levels"), Line("Monitor demand trends"), Line("Plan quarterly reviews")]
      case Some(DeadStock) =>
        [LiquidateToRecover(expectedImpact), HoldingCosts(holdingCostAnnually),
         Line("Consider donation for tax benefit"), Line("Update demand forecast")]
      case Some(NewItem) =>
        [Line("Increase marketing efforts"),
         ExpectedGrowth((expectedImpact / Max(annualSalesValue, 1.0)) * 100.0),
         Line("Monitor sales closely (weekly reviews)"), Line("Gather customer feedback")]
      case _ => []
    }

    /** Always two items: the stored action now, then a review thirty days later. */
    function GetActionItems(today: int): (r: seq<ActionItem>)
      reads this
      ensures |r| == 2
      ensures r[0] == ActionItem(Recommended(recommendedAction), actionPriority, ImpactAmount(expectedImpact), today)
      ensures r[1].name == ScheduleReview && r[1].priority == 5 && r[1].date - r[0].date == 30
    {
      [ActionItem(Recommended(recommendedAction), actionPriority, ImpactAmount(expectedImpact), today),
       ActionItem(ScheduleReview, 5, DataDrivenInsights, today + 30)]
    }
  }
}
