/**
 * The order and clearing-result records the clearing services exchange
 * (Order, ClearingResult), with the sums the balance checks fold over them.
 * Amounts are exact decimals.
 */
module Clearing {
  import opened Wrappers

  datatype ClearingMode = Star | Chain

  datatype TransactionType = Receivable | Payable | ProfitSharing | TransitFee | Netting

  datatype AccountType =
    | ExternalReceivable | ExternalPayable | InternalReceivable | InternalPayable
    | CrossBorderReceivable | CrossBorderPayable | Retention | NettingAccount

  /** The calendar date of an order; canApplyNetting compares only the date part of orderDate. */
  type Day = int

  /** The order fields the clearing services read. */
  datatype Order = Order(
    orderId: string,
    orderNo: string,
    customerId: string,
    salesEntityId: string,
    deliveryEntityId: Option<string>,
    paymentEntityId: Option<string>,
    totalAmount: real,
    totalCost: Option<real>,
    currency: string,
    clearingMode: Option<ClearingMode>,
    orderDate: Day,
    businessType: Option<string>)

  /** One clearing record. The optional columns are None where the source leaves them null. */
  datatype ClearingResult = ClearingResult(
    entityId: string,
    amount: real,
    currency: string,
    transactionType: TransactionType,
    accountType: AccountType,
    clearingMode: Option<ClearingMode>,
    isTransitRetention: bool,
    retentionAmount: Option<real>,
    retentionRate: Option<real>,
    originalAmount: Option<real>,
    transitEntityId: Option<string>,
    crossBorderFlowId: Option<string>,
    ruleId: Option<string>,
    managementAmount: Option<real>,
    legalAmount: Option<real>)

  /** A record as the clearing services create it: the order's currency and mode, both report amounts equal to the amount. */
  function Record(o: Order, entityId: string, amount: real, t: TransactionType, a: AccountType): (r: ClearingResult)
    ensures r.entityId == entityId && r.amount == amount && r.transactionType == t && r.accountType == a
    ensures r.currency == o.currency && r.clearingMode == o.clearingMode && !r.isTransitRetention
    ensures r.managementAmount == Some(amount) && r.legalAmount == Some(amount)
    ensures r.retentionAmount.None? && r.transitEntityId.None? && r.crossBorderFlowId.None? && r.ruleId.None?
  {
    ClearingResult(entityId, amount, o.currency, t, a, o.clearingMode, false, None, None, None, None, None, None, Some(amount), Some(amount))
  }

  /** The sum of all amounts. */
  function AmountSum(rs: seq<ClearingResult>): real {
    if rs == [] then 0.0 else rs[0].amount + AmountSum(rs[1..])
  }

  /** The sum of the positive amounts (the debit side of validateClearingResults). */
  function PositiveSum(rs: seq<ClearingResult>): (s: real)
    ensures s >= 0.0
  {
    if rs == [] then 0.0 else (if rs[0].amount > 0.0 then rs[0].amount else 0.0) + PositiveSum(rs[1..])
  }

  /** The sum of the magnitudes of the negative amounts (the credit side). */
  function NegativeSum(rs: seq<ClearingResult>): (s: real)
    ensures s >= 0.0
  {
    if rs == [] then 0.0 else (if rs[0].amount < 0.0 then -rs[0].amount else 0.0) + NegativeSum(rs[1..])
  }

  /** Debits minus credits is the plain sum of the amounts. */
  lemma {:induction false} SidesDifference(rs: seq<ClearingResult>)
    ensures PositiveSum(rs) - NegativeSum(rs) == AmountSum(rs)
  {
    if rs != [] {
      SidesDifference(rs[1..]);
    }
  }

  /** The sum of two records. */
  lemma PairSum(x: ClearingResult, y: ClearingResult)
    ensures AmountSum([x, y]) == x.amount + y.amount
  {
    assert [y][1..] == [];
    assert AmountSum([y]) == y.amount;
    assert [x, y][1..] == [y];
  }

  lemma {:induction false} SumsAppend(a: seq<ClearingResult>, b: seq<ClearingResult>)
    ensures AmountSum(a + b) == AmountSum(a) + AmountSum(b)
    ensures PositiveSum(a + b) == PositiveSum(a) + PositiveSum(b)
    ensures NegativeSum(a + b) == NegativeSum(a) + NegativeSum(b)
  {
    if a == [] {
      assert a + b == b;
    } else {
      assert (a + b)[1..] == a[1..] + b;
      SumsAppend(a[1..], b);
    }
  }

  /** The net amount of one entity's records. */
  function EntitySum(rs: seq<ClearingResult>, entityId: string): real {
    if rs == [] then 0.0 else (if rs[0].entityId == entityId then rs[0].amount else 0.0) + EntitySum(rs[1..], entityId)
  }

  /** The distinct entity ids in order of first appearance (the keys of a grouping by entity). */
  function EntityIds(rs: seq<ClearingResult>): (ids: seq<string>)
    ensures forall i :: 0 <= i < |rs| ==> rs[i].entityId in ids
    ensures forall k :: 0 <= k < |ids| ==> exists i :: 0 <= i < |rs| && rs[i].entityId == ids[k]
    ensures forall j, k :: 0 <= j < k < |ids| ==> ids[j] != ids[k]
  {
    if rs == [] then []
    else
      var rest := EntityIds(rs[..|rs| - 1]);
      var last := rs[|rs| - 1];
      assert forall i :: 0 <= i < |rs| - 1 ==> rs[..|rs| - 1][i] == rs[i];
      if last.entityId in rest then rest else rest + [last.entityId]
  }
}
