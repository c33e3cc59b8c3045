/**
 * Star and chain clearing of one order, the 50/50 profit split, the
 * debit/credit check on the generated records and the clearing run that
 * chains them with the rule engine (ClearingEngineImpl).
 */
module ClearingEngine {
  import opened Wrappers
  import opened Money
  import opened Clearing
  import opened RuleEngine

  /** The entity that receives the customer's money in star mode: the payment entity if set, else the sales entity. */
  function ReceivingEntity(o: Order): (e: string)
    ensures o.paymentEntityId.Some? ==> e == o.paymentEntityId.value
    ensures o.paymentEntityId.None? ==> e == o.salesEntityId
  {
    if o.paymentEntityId.Some? then o.paymentEntityId.value else o.salesEntityId
  }

  /** The order's cost, zero when it is not set. */
  function CostOrZero(o: Order): real {
    if o.totalCost.Some? then o.totalCost.value else 0.0
  }

  predicate HasPositiveCost(o: Order) {
    o.totalCost.Some? && o.totalCost.value > 0.0
  }

  function TotalProfit(o: Order): real {
    o.totalAmount - CostOrZero(o)
  }

  /** The sales share: half the profit, rounded HALF_UP to cents. */
  function SalesProfit(o: Order): (p: real)
    ensures IsCents(p)
    ensures Abs(p - TotalProfit(o) * 0.5) <= 0.005
  {
    Round2(TotalProfit(o) * 0.5)
  }

  /** The delivery share: what is left of the profit after the sales share. */
  function DeliveryProfit(o: Order): (p: real)
    ensures SalesProfit(o) + p == TotalProfit(o)
  {
    TotalProfit(o) - SalesProfit(o)
  }

  /** The profit map as (entity, share) pairs; a delivery entity equal to the sales entity overwrites the sales share. */
  function ProfitShares(o: Order): (m: seq<(string, real)>)
    ensures forall j, k :: 0 <= j < k < |m| ==> m[j].0 != m[k].0
    ensures o.deliveryEntityId.None? ==> m == [(o.salesEntityId, SalesProfit(o))]
    ensures o.deliveryEntityId == Some(o.salesEntityId) ==> m == [(o.salesEntityId, DeliveryProfit(o))]
  {
    if o.deliveryEntityId.None? then [(o.salesEntityId, SalesProfit(o))]
    else if o.deliveryEntityId.value == o.salesEntityId then [(o.salesEntityId, DeliveryProfit(o))]
    else [(o.salesEntityId, SalesProfit(o)), (o.deliveryEntityId.value, DeliveryProfit(o))]
  }

  function ShareSum(m: seq<(string, real)>): real {
    if m == [] then 0.0 else ShareSum(m[..|m| - 1]) + m[|m| - 1].1
  }

  /** With two distinct entities the shares add up to exactly the profit, each within half a cent of half of it. */
  lemma SharesSplitProfit(o: Order)
    requires o.deliveryEntityId.Some? && o.deliveryEntityId.value != o.salesEntityId
    ensures |ProfitShares(o)| == 2
    ensures ShareSum(ProfitShares(o)) == TotalProfit(o)
    ensures Abs(ProfitShares(o)[0].1 - TotalProfit(o) * 0.5) <= 0.005
    ensures Abs(ProfitShares(o)[1].1 - TotalProfit(o) * 0.5) <= 0.005
  {
    var m := ProfitShares(o);
    assert m[..1][..0] == [];
    assert ShareSum(m[..1]) == m[0].1;
    assert ShareSum(m) == SalesProfit(o) + DeliveryProfit(o);
  }

  /** The record of one nonzero share: receivable if positive, payable if negative. */
  function ProfitRecord(o: Order, share: (string, real)): (r: ClearingResult)
  {
    Record(o, share.0, share.1,
           if share.1 > 0.0 then Receivable else Payable,
           if share.1 > 0.0 then InternalReceivable else InternalPayable)
  }

  /** The records step 4 of starModeClearing emits, in map order: one per nonzero share. */
  function ProfitRecords(o: Order, m: seq<(string, real)>): (rs: seq<ClearingResult>)
    ensures |rs| <= |m|
    ensures forall k :: 0 <= k < |rs| ==> rs[k].amount != 0.0
    ensures forall k :: 0 <= k < |rs| ==>
      (rs[k].amount > 0.0 <==> rs[k].transactionType == Receivable && rs[k].accountType == InternalReceivable)
    ensures forall k :: 0 <= k < |rs| ==>
      (rs[k].amount < 0.0 <==> rs[k].transactionType == Payable && rs[k].accountType == InternalPayable)
    ensures forall k :: 0 <= k < |m| && m[k].1 != 0.0 ==> ProfitRecord(o, m[k]) in rs
    ensures AmountSum(rs) == ShareSum(m)
  {
    if m == [] then []
    else
      var init := ProfitRecords(o, m[..|m| - 1]);
      var last := m[|m| - 1];
      var rs := if last.1 != 0.0 then init + [ProfitRecord(o, last)] else init;
      SumsAppend(init, [ProfitRecord(o, last)]);
      assert forall k :: 0 <= k < |m| - 1 ==> m[..|m| - 1][k] == m[k];
      rs
  }

  /** The supplier payable: -totalCost from the given entity, only when the cost is positive. */
  function SupplierPayable(o: Order, payer: string): (rs: seq<ClearingResult>)
    ensures HasPositiveCost(o) <==> |rs| == 1
    ensures !HasPositiveCost(o) ==> rs == []
    ensures HasPositiveCost(o) ==>
      rs[0].entityId == payer && rs[0].amount == -o.totalCost.value &&
      rs[0].transactionType == Payable && rs[0].accountType == ExternalPayable
  {
    if HasPositiveCost(o) then [Record(o, payer, -o.totalCost.value, Payable, ExternalPayable)] else []
  }

  /** What starModeClearing returns: the customer receivable, the profit records, the supplier payable. */
  function StarResults(o: Order): (rs: seq<ClearingResult>)
    ensures |rs| >= 1
    ensures rs[0] == Record(o, ReceivingEntity(o), o.totalAmount, Receivable, ExternalReceivable)
  {
    [Record(o, ReceivingEntity(o), o.totalAmount, Receivable, ExternalReceivable)]
      + ProfitRecords(o, ProfitShares(o)) + SupplierPayable(o, ReceivingEntity(o))
  }

  /** starModeClearing: appends one record per nonzero entry of the profit map. */
  method StarModeClearing(o: Order) returns (results: seq<ClearingResult>)
    ensures results == StarResults(o)
  {
    var receiving := ReceivingEntity(o);
    var shares := ProfitShares(o);
    var profit: seq<ClearingResult> := [];
    var i := 0;
    while i < |shares|
      invariant 0 <= i <= |shares|
      invariant profit == ProfitRecords(o, shares[..i])
    {
      ProfitRecordsSnoc(o, shares, i);
      if shares[i].1 != 0.0 {
        profit := profit + [ProfitRecord(o, shares[i])];
      }
      i := i + 1;
    }
    assert shares[..|shares|] == shares;
    results := [Record(o, receiving, o.totalAmount, Receivable, ExternalReceivable)] + profit;
    if o.totalCost.Some? && o.totalCost.value > 0.0 {
      results := results + [Record(o, receiving, -o.totalCost.value, Payable, ExternalPayable)];
    }
  }

  /** One more entry of the profit map adds its record when its amount is nonzero. */
  lemma ProfitRecordsSnoc(o: Order, m: seq<(string, real)>, i: nat)
    requires i < |m|
    ensures ProfitRecords(o, m[..i + 1]) ==
      ProfitRecords(o, m[..i]) + (if m[i].1 != 0.0 then [ProfitRecord(o, m[i])] else [])
  {
    assert m[..i + 1][..i] == m[..i];
  }

  /** chainModeClearing: customer to sales, sales to delivery with its matching payment, delivery (else sales) to supplier. */
  function ChainModeClearing(o: Order): (rs: seq<ClearingResult>)
    ensures |rs| == 1 + (if o.deliveryEntityId.Some? then 2 else 0) + (if HasPositiveCost(o) then 1 else 0)
    ensures rs[0] == Record(o, o.salesEntityId, o.totalAmount, Receivable, ExternalReceivable)
    ensures o.deliveryEntityId.Some? ==>
      rs[1].entityId == o.deliveryEntityId.value && rs[1].accountType == InternalReceivable &&
      rs[2].entityId == o.salesEntityId && rs[2].accountType == InternalPayable &&
      rs[1].amount == o.totalAmount - SalesProfit(o) && rs[1].amount + rs[2].amount == 0.0
    ensures HasPositiveCost(o) ==>
      rs[|rs| - 1] == Record(o, if o.deliveryEntityId.Some? then o.deliveryEntityId.value else o.salesEntityId,
                             -o.totalCost.value, Payable, ExternalPayable)
  {
    var transfer := o.totalAmount - SalesProfit(o);
    var middle :=
      if o.deliveryEntityId.Some? then
        [Record(o, o.deliveryEntityId.value, transfer, Receivable, InternalReceivable),
         Record(o, o.salesEntityId, -transfer, Payable, InternalPayable)]
      else [];
    var payer := if o.deliveryEntityId.Some? then o.deliveryEntityId.value else o.salesEntityId;
    [Record(o, o.salesEntityId, o.totalAmount, Receivable, ExternalReceivable)] + middle + SupplierPayable(o, payer)
  }

  /** validateClearingResults: the positive amounts must equal the magnitudes of the negative ones, i.e. the amounts sum to zero. */
  function ValidateClearingResults(rs: seq<ClearingResult>): (ok: bool)
    ensures ok <==> AmountSum(rs) == 0.0
  {
    SidesDifference(rs);
    PositiveSum(rs) == NegativeSum(rs)
  }

  /** The net of the records star mode emits for two distinct entities. */
  lemma {:induction false} StarNet(o: Order)
    requires o.deliveryEntityId.Some? && o.deliveryEntityId.value != o.salesEntityId
    ensures AmountSum(StarResults(o)) == 2.0 * o.totalAmount - CostOrZero(o) - (if HasPositiveCost(o) then o.totalCost.value else 0.0)
  {
    var head := [Record(o, ReceivingEntity(o), o.totalAmount, Receivable, ExternalReceivable)];
    var profits := ProfitRecords(o, ProfitShares(o));
    var supplier := SupplierPayable(o, ReceivingEntity(o));
    SumsAppend(head, profits);
    SumsAppend(head + profits, supplier);
    SharesSplitProfit(o);
    assert AmountSum(head) == o.totalAmount;
    assert AmountSum(supplier) == if HasPositiveCost(o) then -o.totalCost.value else 0.0;
  }

  /** Star output with a positive cost and two distinct entities passes validateClearingResults exactly when revenue equals cost. */
  lemma StarBalancedIff(o: Order)
    requires o.deliveryEntityId.Some? && o.deliveryEntityId.value != o.salesEntityId
    requires HasPositiveCost(o)
    ensures ValidateClearingResults(StarResults(o)) <==> o.totalAmount == o.totalCost.value
  {
    StarNet(o);
  }

  /** The net of the chain records: the transfer pair cancels, leaving revenue minus any positive cost. */
  lemma {:induction false} ChainNet(o: Order)
    ensures AmountSum(ChainModeClearing(o)) == o.totalAmount - (if HasPositiveCost(o) then o.totalCost.value else 0.0)
  {
    var rs := ChainModeClearing(o);
    var k := if o.deliveryEntityId.Some? then 3 else 1;
    SumsAppend(rs[..k], rs[k..]);
    assert rs[..k] + rs[k..] == rs;
    if o.deliveryEntityId.Some? {
      SumsAppend(rs[..1], rs[1..3]);
      assert rs[..1] + rs[1..3] == rs[..3];
      var pair := rs[1..3];
      assert pair[1..][1..] == [];
      assert AmountSum(pair) == rs[1].amount + rs[2].amount;
    }
    assert AmountSum(rs[..1]) == o.totalAmount;
    assert AmountSum(rs[k..]) == if HasPositiveCost(o) then -o.totalCost.value else 0.0;
  }

  /** Chain output passes validateClearingResults exactly when revenue equals the positive cost (or is zero without one). */
  lemma ChainBalancedIff(o: Order)
    ensures ValidateClearingResults(ChainModeClearing(o)) <==> o.totalAmount == (if HasPositiveCost(o) then o.totalCost.value else 0.0)
  {
    ChainNet(o);
  }

  /** The records of the order's clearing mode: star for STAR, chain for everything else, a missing mode included. */
  function ModeResults(o: Order): seq<ClearingResult> {
    if o.clearingMode == Some(Star) then StarResults(o) else ChainModeClearing(o)
  }

  /** calculateClearing: the mode's records, then the rule engine over them. */
  method CalculateClearing(o: Order, active: seq<ClearingRule>, amountText: string) returns (results: seq<ClearingResult>)
    ensures results == AllRulesApplied(o, ModeResults(o), active, amountText)
  {
    if o.clearingMode == Some(Star) {
      results := StarModeClearing(o);
    } else {
      results := ChainModeClearing(o);
    }
    results := ApplyRules(o, results, active, amountText);
  }

  datatype ClearingFailure = ValidationFailed

  datatype ClearingResponse = Cleared(results: seq<ClearingResult>) | NotCleared(failure: ClearingFailure)

  /**
   * executeClearing: the calculated records are returned, and the order is
   * marked cleared, exactly when they pass validateClearingResults.
   */
  method ExecuteClearing(o: Order, active: seq<ClearingRule>, amountText: string)
    returns (response: ClearingResponse, markedCleared: bool)
    ensures markedCleared <==> response.Cleared?
    ensures response.Cleared? <==> AmountSum(AllRulesApplied(o, ModeResults(o), active, amountText)) == 0.0
    ensures response.Cleared? ==> response.results == AllRulesApplied(o, ModeResults(o), active, amountText)
  {
    var results := CalculateClearing(o, active, amountText);
    if !ValidateClearingResults(results) {
      return NotCleared(ValidationFailed), false;
    }
    return Cleared(results), true;
  }

  /** With no active rules a chain order clears exactly when its revenue equals its positive cost (or is zero without one). */
  lemma ChainClearsWithoutRulesIff(o: Order, amountText: string)
    requires o.clearingMode != Some(Star)
    ensures AmountSum(AllRulesApplied(o, ModeResults(o), [], amountText)) == 0.0 <==>
            o.totalAmount == (if HasPositiveCost(o) then o.totalCost.value else 0.0)
  {
    NoRulesNoChange(o, ModeResults(o), amountText);
    ChainNet(o);
  }

  /** Transit and reporting rules move or annotate amounts only: with rules of just those kinds the total stays that of the mode's records, so clearing succeeds exactly when those balance. */
  lemma ConservingRulesKeepBalance(o: Order, active: seq<ClearingRule>, amountText: string)
    requires forall r :: r in active ==> r.ruleType == TransitEntityRule || r.ruleType == RetentionRule
    ensures AmountSum(AllRulesApplied(o, ModeResults(o), active, amountText)) == AmountSum(ModeResults(o))
  {
    var rs := ModeResults(o);
    var transit := GetApplicableRules(o, active, TransitEntityRule, amountText);
    var afterTransit := ApplyTransitRules(rs, transit);
    TransitRulesConserve(rs, transit);
    NoRulesOfType(o, active, CrossBorderRule, amountText);
    NoRulesOfType(o, active, NettingRule, amountText);
    ReportingKeepsAmounts(afterTransit, GetApplicableRules(o, active, RetentionRule, amountText));
  }
}
