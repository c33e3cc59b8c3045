/**
 * Cross-border flows ("过账"): an order's money routed from a payer entity
 * through a transit entity to a receiver entity, with a retention for the
 * transit company, and the netting of a group of orders
 * (CrossBorderFlowServiceImpl). The repository's active flows, ordered by
 * flow id, are the parameter `active`.
 */
module CrossBorderFlows {
  import opened Wrappers
  import opened Money
  import opened Strings
  import opened Sorting
  import opened Clearing

  datatype ProcessingType = FlatTransfer | NetTransfer | SegmentedTransfer

  datatype RetentionCalculationType = NoRetention | PercentageRetention | FixedAmountRetention | TieredRetention

  /** The conditions JSON as the object mapper reads it; the regions list is read but never checked. */
  datatype FlowConditions =
    | Unparseable
    | Parsed(businessTypes: Option<seq<string>>, currencies: Option<seq<string>>)

  datatype CrossBorderFlow = CrossBorderFlow(
    flowId: string,
    payerEntityId: string,
    transitEntityId: string,
    receiverEntityId: string,
    processingType: ProcessingType,
    nettingEnabled: bool,
    transitRetentionRate: Option<real>,
    transitFixedRetention: Option<real>,
    retentionCalculationType: Option<RetentionCalculationType>,
    conditionsText: Option<string>,
    conditions: FlowConditions)

  /** calculateTieredRetention: 1% up to 10000, 2% up to 100000, 3% above; the product is not rounded. */
  function TieredRetentionAmount(amount: real): (r: real)
    ensures amount <= 10000.0 ==> r == amount * 0.01
    ensures 10000.0 < amount <= 100000.0 ==> r == amount * 0.02
    ensures amount > 100000.0 ==> r == amount * 0.03
  {
    if amount <= 10000.0 then amount * 0.01
    else if amount <= 100000.0 then amount * 0.02
    else amount * 0.03
  }

  /** A non-negative amount keeps between 1% and 3% of itself under the tiers. */
  lemma TieredRetentionBounds(amount: real)
    requires amount >= 0.0
    ensures amount * 0.01 <= TieredRetentionAmount(amount) <= amount * 0.03
    ensures amount - TieredRetentionAmount(amount) >= 0.0
  {
  }

  /** calculateTransitRetention. */
  function TransitRetention(flow: CrossBorderFlow, amount: real): (r: real)
    ensures flow.retentionCalculationType.None? || flow.retentionCalculationType == Some(NoRetention) ==> r == 0.0
    ensures flow.retentionCalculationType == Some(PercentageRetention) ==>
      r == (if flow.transitRetentionRate.Some? then Round2(amount * flow.transitRetentionRate.value) else 0.0)
    ensures flow.retentionCalculationType == Some(FixedAmountRetention) ==>
      r == (if flow.transitFixedRetention.Some? then Min(flow.transitFixedRetention.value, amount) else 0.0)
    ensures flow.retentionCalculationType == Some(TieredRetention) ==> r == TieredRetentionAmount(amount)
  {
    match flow.retentionCalculationType
    case None => 0.0
    case Some(NoRetention) => 0.0
    case Some(PercentageRetention) =>
      if flow.transitRetentionRate.Some? then Round2(amount * flow.transitRetentionRate.value) else 0.0
    case Some(FixedAmountRetention) =>
      if flow.transitFixedRetention.Some? then Min(flow.transitFixedRetention.value, amount) else 0.0
    case Some(TieredRetention) => TieredRetentionAmount(amount)
  }

  /** A fixed retention never exceeds the amount. */
  lemma FixedRetentionBounded(flow: CrossBorderFlow, amount: real)
    requires flow.retentionCalculationType == Some(FixedAmountRetention) && flow.transitFixedRetention.Some?
    ensures TransitRetention(flow, amount) <= amount
  {
  }

  /** isFlowApplicable: blank or unreadable conditions apply; otherwise the listed business types and currencies must contain the order's. */
  function IsFlowApplicable(flow: CrossBorderFlow, o: Order): (b: bool)
    ensures IsBlank(flow.conditionsText) || flow.conditions.Unparseable? ==> b
    ensures flow.conditions.Parsed? && !IsBlank(flow.conditionsText) ==>
      (b <==> (flow.conditions.businessTypes.Some? ==> o.businessType.Some? && o.businessType.value in flow.conditions.businessTypes.value) &&
              (flow.conditions.currencies.Some? ==> o.currency in flow.conditions.currencies.value))
  {
    if IsBlank(flow.conditionsText) then true
    else match flow.conditions
      case Unparseable => true
      case Parsed(businessTypes, currencies) =>
        if businessTypes.Some? && !(o.businessType.Some? && o.businessType.value in businessTypes.value) then false
        else if currencies.Some? && o.currency !in currencies.value then false
        else true
  }

  /** A record of createCrossBorderClearingResult, tagged with the flow id. */
  function FlowRecord(o: Order, flow: CrossBorderFlow, entityId: string, amount: real, t: TransactionType, a: AccountType): (r: ClearingResult)
    ensures r.entityId == entityId && r.amount == amount && r.transactionType == t && r.accountType == a
    ensures r.crossBorderFlowId == Some(flow.flowId) && !r.isTransitRetention
  {
    Record(o, entityId, amount, t, a).(crossBorderFlowId := Some(flow.flowId))
  }

  /** The retention note of the transit company: amount zero, flagged and carrying the retention. */
  function RetentionNote(o: Order, flow: CrossBorderFlow, retention: real): (rs: seq<ClearingResult>)
    ensures retention > 0.0 <==> |rs| == 1
    ensures retention > 0.0 ==>
      rs[0].entityId == flow.transitEntityId && rs[0].amount == 0.0 && rs[0].accountType == Retention &&
      rs[0].isTransitRetention && rs[0].retentionAmount == Some(retention)
    ensures AmountSum(rs) == 0.0
  {
    if retention > 0.0 then
      [FlowRecord(o, flow, flow.transitEntityId, 0.0, Receivable, Retention).(retentionAmount := Some(retention), isTransitRetention := true)]
    else []
  }

  /** A receivable for `to` and the matching payment by `from`. */
  function Pair(o: Order, flow: CrossBorderFlow, to: string, from: string, amount: real): (rs: seq<ClearingResult>)
    ensures |rs| == 2 && rs[0].entityId == to && rs[1].entityId == from
    ensures rs[0].amount == amount && rs[1].amount == -amount
    ensures rs[0].accountType == CrossBorderReceivable && rs[1].accountType == CrossBorderPayable
    ensures AmountSum(rs) == 0.0
  {
    var rs := [FlowRecord(o, flow, to, amount, Receivable, CrossBorderReceivable),
               FlowRecord(o, flow, from, -amount, Payable, CrossBorderPayable)];
    assert rs[1..][1..] == [];
    assert AmountSum(rs[1..]) == -amount;
    rs
  }

  /** processFlatTransfer: payer to transit in full, transit to receiver after the retention, then the retention note. */
  function FlatTransferRecords(o: Order, flow: CrossBorderFlow, amount: real): (rs: seq<ClearingResult>)
    ensures |rs| >= 2 && rs[0].entityId == flow.transitEntityId && rs[1].entityId == flow.payerEntityId
    ensures rs[0].amount == amount && rs[0].amount + rs[1].amount == 0.0
    ensures var transfer := amount - TransitRetention(flow, amount);
      |rs| == 2 + (if transfer > 0.0 then 2 else 0) + (if TransitRetention(flow, amount) > 0.0 then 1 else 0) &&
      (transfer > 0.0 ==> rs[2].entityId == flow.receiverEntityId && rs[3].entityId == flow.transitEntityId &&
                          rs[2].amount == transfer && rs[2].amount + rs[3].amount == 0.0)
    ensures TransitRetention(flow, amount) > 0.0 ==> rs[|rs| - 1].amount == 0.0 && rs[|rs| - 1].accountType == Retention
    ensures AmountSum(rs) == 0.0
  {
    var retention := TransitRetention(flow, amount);
    var transfer := amount - retention;
    var first := Pair(o, flow, flow.transitEntityId, flow.payerEntityId, amount);
    var second := if transfer > 0.0 then Pair(o, flow, flow.receiverEntityId, flow.transitEntityId, transfer) else [];
    var note := RetentionNote(o, flow, retention);
    SumsAppend(first, second);
    SumsAppend(first + second, note);
    first + second + note
  }

  /** processNetTransfer: only the net after the retention moves, payer to receiver, when positive; then the retention note. */
  function NetTransferRecords(o: Order, flow: CrossBorderFlow, amount: real): (rs: seq<ClearingResult>)
    ensures var net := amount - TransitRetention(flow, amount);
      (net > 0.0 ==> |rs| >= 2 && rs[0].entityId == flow.receiverEntityId && rs[0].amount == net &&
                     rs[1].entityId == flow.payerEntityId && rs[1].amount == -net) &&
      |rs| == (if net > 0.0 then 2 else 0) + (if TransitRetention(flow, amount) > 0.0 then 1 else 0)
    ensures AmountSum(rs) == 0.0
  {
    var retention := TransitRetention(flow, amount);
    var net := amount - retention;
    var pair := if net > 0.0 then Pair(o, flow, flow.receiverEntityId, flow.payerEntityId, net) else [];
    var note := RetentionNote(o, flow, retention);
    SumsAppend(pair, note);
    pair + note
  }

  /** processSegmentedTransfer: a flat transfer of half the amount, rounded HALF_UP to cents; the other half is not booked. */
  function SegmentedTransferRecords(o: Order, flow: CrossBorderFlow, amount: real): (rs: seq<ClearingResult>)
    ensures rs == FlatTransferRecords(o, flow, Round2(amount / 2.0))
    ensures Abs(rs[0].amount - amount / 2.0) <= 0.005
  {
    FlatTransferRecords(o, flow, Round2(amount / 2.0))
  }

  function FlowRecords(o: Order, flow: CrossBorderFlow, amount: real): (rs: seq<ClearingResult>)
    ensures AmountSum(rs) == 0.0
  {
    match flow.processingType
    case FlatTransfer => FlatTransferRecords(o, flow, amount)
    case NetTransfer => NetTransferRecords(o, flow, amount)
    case SegmentedTransfer => SegmentedTransferRecords(o, flow, amount)
  }

  function AllFlowRecords(o: Order, flows: seq<CrossBorderFlow>, amount: real): (rs: seq<ClearingResult>)
    ensures AmountSum(rs) == 0.0
  {
    if flows == [] then []
    else
      var init := AllFlowRecords(o, flows[..|flows| - 1], amount);
      var last := FlowRecords(o, flows[|flows| - 1], amount);
      SumsAppend(init, last);
      init + last
  }

  lemma FlowStep(o: Order, flows: seq<CrossBorderFlow>, amount: real, i: nat)
    requires i < |flows|
    ensures AllFlowRecords(o, flows[..i + 1], amount) == AllFlowRecords(o, flows[..i], amount) + FlowRecords(o, flows[i], amount)
  {
    assert flows[..i + 1][..i] == flows[..i];
  }

  /** processCrossBorderFlow: every applicable flow's records, by its processing type; every flow leaves the books balanced. */
  method ProcessCrossBorderFlow(o: Order, amount: real, active: seq<CrossBorderFlow>) returns (results: seq<ClearingResult>)
    ensures results == AllFlowRecords(o, Filter(active, (f: CrossBorderFlow) => IsFlowApplicable(f, o)), amount)
    ensures AmountSum(results) == 0.0
  {
    var flows := Filter(active, (f: CrossBorderFlow) => IsFlowApplicable(f, o));
    results := [];
    var i := 0;
    while i < |flows|
      invariant 0 <= i <= |flows|
      invariant results == AllFlowRecords(o, flows[..i], amount)
    {
      FlowStep(o, flows, amount, i);
      results := results + FlowRecords(o, flows[i], amount);
      i := i + 1;
    }
    assert flows[..i] == flows;
  }

  /** canApplyNetting: netting enabled, at least two orders, all on the first order's date. */
  function CanApplyNetting(orders: seq<Order>, flow: CrossBorderFlow): (b: bool)
    ensures !flow.nettingEnabled || |orders| < 2 ==> !b
    ensures flow.nettingEnabled && |orders| >= 2 ==> (b <==> forall i :: 0 <= i < |orders| ==> orders[i].orderDate == orders[0].orderDate)
  {
    if !flow.nettingEnabled || |orders| < 2 then false
    else forall i :: 0 <= i < |orders| ==> orders[i].orderDate == orders[0].orderDate
  }

  /** The orders isReceivableOrder accepts (positive total) summed, and the others summed. */
  function ReceivableTotal(orders: seq<Order>): real {
    if orders == [] then 0.0
    else ReceivableTotal(orders[..|orders| - 1]) + (if orders[|orders| - 1].totalAmount > 0.0 then orders[|orders| - 1].totalAmount else 0.0)
  }

  function PayableTotal(orders: seq<Order>): real {
    if orders == [] then 0.0
    else PayableTotal(orders[..|orders| - 1]) + (if orders[|orders| - 1].totalAmount > 0.0 then 0.0 else orders[|orders| - 1].totalAmount)
  }

  /** The sum of all order totals and of their magnitudes. */
  function TotalSum(orders: seq<Order>): real {
    if orders == [] then 0.0 else TotalSum(orders[..|orders| - 1]) + orders[|orders| - 1].totalAmount
  }

  function MagnitudeSum(orders: seq<Order>): real {
    if orders == [] then 0.0 else MagnitudeSum(orders[..|orders| - 1]) + Abs(orders[|orders| - 1].totalAmount)
  }

  /** The netting record for a net amount: to the receiver when positive, from the payer when negative. */
  function NettingRecord(representative: Order, flow: CrossBorderFlow, net: real): (r: ClearingResult)
    ensures r.amount == net && r.accountType == NettingAccount
    ensures net > 0.0 ==> r.entityId == flow.receiverEntityId && r.transactionType == Receivable
    ensures net <= 0.0 ==> r.entityId == flow.payerEntityId && r.transactionType == Payable
  {
    FlowRecord(representative, flow, if net > 0.0 then flow.receiverEntityId else flow.payerEntityId, net,
               if net > 0.0 then Receivable else Payable, NettingAccount)
  }

  /** performNetting as written: accumulates both totals in one loop and emits one record of their difference when it is nonzero. */
  method PerformNetting(orders: seq<Order>, flow: CrossBorderFlow) returns (results: seq<ClearingResult>)
    ensures var net := ReceivableTotal(orders) - PayableTotal(orders);
      (net == 0.0 ==> results == []) &&
      (net != 0.0 ==> |orders| > 0 && results == [NettingRecord(orders[0], flow, net)])
  {
    var totalReceivable := 0.0;
    var totalPayable := 0.0;
    var i := 0;
    while i < |orders|
      invariant 0 <= i <= |orders|
      invariant totalReceivable == ReceivableTotal(orders[..i])
      invariant totalPayable == PayableTotal(orders[..i])
    {
      assert orders[..i + 1][..i] == orders[..i];
      if orders[i].totalAmount > 0.0 {
        totalReceivable := totalReceivable + orders[i].totalAmount;
      } else {
        totalPayable := totalPayable + orders[i].totalAmount;
      }
      i := i + 1;
    }
    assert orders[..i] == orders;
    var net := totalReceivable - totalPayable;
    results := [];
    assert orders == [] ==> net == 0.0;
    if Abs(net) > 0.0 {
      results := [NettingRecord(orders[0], flow, net)];
    }
  }

  /** As written, the payable total is a sum of non-positive totals that is then subtracted: the "net" is the sum of the magnitudes. */
  lemma {:induction false} NettingNetIsMagnitudeSum(orders: seq<Order>)
    ensures ReceivableTotal(orders) - PayableTotal(orders) == MagnitudeSum(orders)
  {
    if orders != [] {
      NettingNetIsMagnitudeSum(orders[..|orders| - 1]);
    }
  }

  /** Two opposite orders do not cancel as written: 100 and -100 net to 200. */
  lemma OppositeOrdersDoNotCancel(a: Order, b: Order)
    requires a.totalAmount == 100.0 && b.totalAmount == -100.0
    ensures ReceivableTotal([a, b]) - PayableTotal([a, b]) == 200.0
  {
    assert [a, b][..1] == [a];
    assert [a][..0] == [];
    assert ReceivableTotal([a]) == 100.0 && PayableTotal([a]) == 0.0;
    assert ReceivableTotal([a, b]) == 100.0 && PayableTotal([a, b]) == -100.0;
  }

  /** The netting amount with the payable side taken as a credit, so receivables and payables offset: the plain sum of the totals. */
  function CorrectedNettingAmount(orders: seq<Order>): (net: real)
    ensures net == TotalSum(orders)
  {
    NettingSplit(orders);
    ReceivableTotal(orders) + PayableTotal(orders)
  }

  lemma {:induction false} NettingSplit(orders: seq<Order>)
    ensures ReceivableTotal(orders) + PayableTotal(orders) == TotalSum(orders)
  {
    if orders != [] {
      NettingSplit(orders[..|orders| - 1]);
    }
  }

  /** performNetting with the offset: one record of the net when it is nonzero. */
  function CorrectedPerformNetting(orders: seq<Order>, flow: CrossBorderFlow): (rs: seq<ClearingResult>)
    ensures CorrectedNettingAmount(orders) == 0.0 <==> rs == []
    ensures rs != [] ==> |orders| > 0 && rs == [NettingRecord(orders[0], flow, TotalSum(orders))]
  {
    var net := CorrectedNettingAmount(orders);
    if net == 0.0 || orders == [] then [] else [NettingRecord(orders[0], flow, net)]
  }

  /** With the offset, a receivable and a payable of the same size cancel and no netting record is emitted. */
  lemma CorrectedOppositeOrdersCancel(a: Order, b: Order, flow: CrossBorderFlow)
    requires b.totalAmount == -a.totalAmount
    ensures CorrectedPerformNetting([a, b], flow) == []
  {
    assert [a, b][..1] == [a];
    assert [a][..0] == [];
    assert TotalSum([a]) == a.totalAmount;
    assert TotalSum([a, b]) == 0.0;
  }
}
