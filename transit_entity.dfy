/**
 * Transit entities ("借抬头"): an intermediate legal entity that receives or
 * pays on behalf of the sales entity and may keep a retention
 * (TransitEntityServiceImpl). The repository query that lists the active
 * transit entities of a type, ordered by transit id, is the parameter
 * `active`; the JSON parse of the applicability conditions is the field
 * `conditions`.
 */
module TransitEntities {
  import opened Wrappers
  import opened Money
  import opened Strings
  import opened Sorting
  import opened Clearing

  datatype TransitType = ReceivableTransit | PayableTransit

  datatype RetentionType = NoRetention | Percentage | FixedAmount

  /** A number inside the conditions: absent, a parsed decimal, or text `new BigDecimal` rejects. */
  datatype Bound = Absent | Given(value: real) | Malformed

  datatype AmountRange = AmountRange(min: Bound, max: Bound)

  /** The conditions JSON as the object mapper reads it: unreadable, or the optional lists and range. */
  datatype TransitConditions =
    | Unparseable
    | Parsed(businessTypes: Option<seq<string>>, currencies: Option<seq<string>>,
             amountRange: Option<AmountRange>, customerIds: Option<seq<string>>)

  datatype TransitEntity = TransitEntity(
    transitId: string,
    transitEntityId: string,
    sourceEntityId: string,
    targetEntityId: string,
    transitType: TransitType,
    retentionType: Option<RetentionType>,
    retentionRate: Option<real>,
    fixedRetentionAmount: Option<real>,
    conditionsText: Option<string>,
    conditions: TransitConditions)

  /** calculateRetentionAmount. */
  function RetentionAmount(t: TransitEntity, amount: real): (r: real)
    ensures t.retentionType.None? || t.retentionType == Some(NoRetention) ==> r == 0.0
    ensures t.retentionType == Some(Percentage) ==>
      r == (if t.retentionRate.Some? then Round2(amount * t.retentionRate.value) else 0.0)
    ensures t.retentionType == Some(FixedAmount) ==>
      r == (if t.fixedRetentionAmount.Some? then Min(t.fixedRetentionAmount.value, amount) else 0.0)
    ensures IsCents(amount) && t.retentionType != Some(FixedAmount) ==> IsCents(r)
  {
    match t.retentionType
    case None => 0.0
    case Some(NoRetention) => 0.0
    case Some(Percentage) => if t.retentionRate.Some? then Round2(amount * t.retentionRate.value) else 0.0
    case Some(FixedAmount) => if t.fixedRetentionAmount.Some? then Min(t.fixedRetentionAmount.value, amount) else 0.0
  }

  /** A fixed retention never exceeds the amount it is taken from, so the transfer is never negative. */
  lemma FixedRetentionBounded(t: TransitEntity, amount: real)
    requires t.retentionType == Some(FixedAmount) && t.fixedRetentionAmount.Some?
    ensures RetentionAmount(t, amount) <= amount
    ensures amount - RetentionAmount(t, amount) >= 0.0
  {
  }

  /** A percentage retention is the rate's share of the amount, within half a cent. */
  lemma PercentageRetentionClose(t: TransitEntity, amount: real)
    requires t.retentionType == Some(Percentage) && t.retentionRate.Some?
    ensures Abs(RetentionAmount(t, amount) - amount * t.retentionRate.value) <= 0.005
  {
  }

  predicate WellFormed(range: AmountRange) {
    range.min != Malformed && range.max != Malformed
  }

  function MinOf(range: AmountRange): real {
    if range.min.Given? then range.min.value else 0.0
  }

  predicate InList(x: Option<string>, list: seq<string>) {
    x.Some? && x.value in list
  }

  /** Every condition the parsed object states holds for the order. */
  predicate MeetsConditions(c: TransitConditions, o: Order)
    requires c.Parsed?
  {
    (c.businessTypes.Some? ==> InList(o.businessType, c.businessTypes.value)) &&
    (c.currencies.Some? ==> o.currency in c.currencies.value) &&
    (c.amountRange.Some? ==>
       o.totalAmount >= MinOf(c.amountRange.value) &&
       (c.amountRange.value.max.Given? ==> o.totalAmount <= c.amountRange.value.max.value)) &&
    (c.customerIds.Some? ==> o.customerId in c.customerIds.value)
  }

  /** isTransitEntityApplicable: the checks in order; a failure to parse, at any point, makes the entity applicable. */
  function IsTransitEntityApplicable(t: TransitEntity, o: Order): (b: bool)
    ensures IsBlank(t.conditionsText) ==> b
    ensures t.conditions.Unparseable? ==> b
    ensures t.conditions.Parsed? && (t.conditions.amountRange.None? || WellFormed(t.conditions.amountRange.value)) ==>
      (b <==> IsBlank(t.conditionsText) || MeetsConditions(t.conditions, o))
    ensures (!IsBlank(t.conditionsText) && t.conditions.Parsed? && t.conditions.amountRange.Some? &&
             WellFormed(t.conditions.amountRange.value) && o.totalAmount < MinOf(t.conditions.amountRange.value)) ==> !b
  {
    if IsBlank(t.conditionsText) then true
    else match t.conditions
      case Unparseable => true
      case Parsed(businessTypes, currencies, amountRange, customerIds) =>
        if businessTypes.Some? && !InList(o.businessType, businessTypes.value) then false
        else if currencies.Some? && o.currency !in currencies.value then false
        else if amountRange.Some? && !WellFormed(amountRange.value) then true
        else if amountRange.Some? && o.totalAmount < MinOf(amountRange.value) then false
        else if amountRange.Some? && amountRange.value.max.Given? && o.totalAmount > amountRange.value.max.value then false
        else if customerIds.Some? && o.customerId !in customerIds.value then false
        else true
  }

  /** A transit record: the record of createTransitClearingResult, tagged with the transit id. */
  function TransitRecord(o: Order, t: TransitEntity, entityId: string, amount: real, tt: TransactionType, at: AccountType): (r: ClearingResult)
    ensures r.entityId == entityId && r.amount == amount && r.transactionType == tt && r.accountType == at
    ensures r.transitEntityId == Some(t.transitId) && !r.isTransitRetention
  {
    Record(o, entityId, amount, tt, at).(transitEntityId := Some(t.transitId))
  }

  /** The retention note: amount zero, flagged as a retention and carrying the retained amount. */
  function RetentionRecord(o: Order, t: TransitEntity, retention: real): (r: ClearingResult)
    ensures r.entityId == t.transitEntityId && r.amount == 0.0 && r.accountType == Retention
    ensures r.isTransitRetention && r.retentionAmount == Some(retention)
  {
    TransitRecord(o, t, t.transitEntityId, 0.0, Receivable, Retention).(isTransitRetention := true, retentionAmount := Some(retention))
  }

  /** The transfer pair: a receivable for `to` and the matching payment by `from`; empty when the transfer is not positive. */
  function TransferPair(o: Order, t: TransitEntity, to: string, from: string, transfer: real, toAccount: AccountType, fromAccount: AccountType): (rs: seq<ClearingResult>)
    ensures transfer > 0.0 <==> |rs| == 2
    ensures transfer <= 0.0 ==> rs == []
    ensures transfer > 0.0 ==> rs[0].entityId == to && rs[0].amount == transfer && rs[1].entityId == from && rs[1].amount == -transfer
    ensures AmountSum(rs) == 0.0
  {
    if transfer > 0.0 then
      var rs := [TransitRecord(o, t, to, transfer, Receivable, toAccount), TransitRecord(o, t, from, -transfer, Payable, fromAccount)];
      assert rs[1..][1..] == [];
      assert AmountSum(rs[1..]) == -transfer;
      rs
    else []
  }

  function RetentionNote(o: Order, t: TransitEntity, retention: real): (rs: seq<ClearingResult>)
    ensures retention > 0.0 <==> |rs| == 1
    ensures retention > 0.0 ==> rs[0] == RetentionRecord(o, t, retention)
    ensures AmountSum(rs) == 0.0
  {
    if retention > 0.0 then [RetentionRecord(o, t, retention)] else []
  }

  /** The records processReceivableTransit emits for one transit entity: customer to transit, transit to target, the retention. */
  function ReceivableTransitRecords(o: Order, amount: real, t: TransitEntity): (rs: seq<ClearingResult>)
    ensures |rs| >= 1 && rs[0] == TransitRecord(o, t, t.transitEntityId, amount, Receivable, ExternalReceivable)
    ensures |rs| == 1 + (if amount - RetentionAmount(t, amount) > 0.0 then 2 else 0) + (if RetentionAmount(t, amount) > 0.0 then 1 else 0)
    ensures AmountSum(rs) == amount
  {
    var retention := RetentionAmount(t, amount);
    var head := [TransitRecord(o, t, t.transitEntityId, amount, Receivable, ExternalReceivable)];
    var pair := TransferPair(o, t, t.targetEntityId, t.transitEntityId, amount - retention, InternalReceivable, InternalPayable);
    var note := RetentionNote(o, t, retention);
    SumsAppend(head, pair);
    SumsAppend(head + pair, note);
    head + pair + note
  }

  /** The records processPayableTransit emits for one transit entity: source pays transit, transit pays target, the retention. */
  function PayableTransitRecords(o: Order, amount: real, t: TransitEntity): (rs: seq<ClearingResult>)
    ensures |rs| >= 2
    ensures rs[0] == TransitRecord(o, t, t.transitEntityId, amount, Receivable, InternalReceivable)
    ensures rs[1] == TransitRecord(o, t, t.sourceEntityId, -amount, Payable, InternalPayable)
    ensures |rs| == 2 + (if amount - RetentionAmount(t, amount) > 0.0 then 2 else 0) + (if RetentionAmount(t, amount) > 0.0 then 1 else 0)
    ensures AmountSum(rs) == 0.0
  {
    var retention := RetentionAmount(t, amount);
    var head := [TransitRecord(o, t, t.transitEntityId, amount, Receivable, InternalReceivable),
                 TransitRecord(o, t, t.sourceEntityId, -amount, Payable, InternalPayable)];
    var pair := TransferPair(o, t, t.targetEntityId, t.transitEntityId, amount - retention, ExternalReceivable, ExternalPayable);
    var note := RetentionNote(o, t, retention);
    PairSum(head[0], head[1]);
    assert AmountSum(head) == 0.0;
    SumsAppend(head, pair);
    SumsAppend(head + pair, note);
    var rs := head + pair + note;
    assert |rs| == 2 + |pair| + |note|;
    assert rs[0] == head[0] && rs[1] == head[1];
    rs
  }

  /** The entities getApplicableTransitEntities keeps: those of the type whose conditions admit the order. */
  function Applicable(o: Order, transitType: TransitType, active: seq<TransitEntity>): (r: seq<TransitEntity>)
    ensures forall k :: 0 <= k < |r| ==> r[k] in active && r[k].transitType == transitType && IsTransitEntityApplicable(r[k], o)
    ensures forall t :: t in active && t.transitType == transitType && IsTransitEntityApplicable(t, o) ==> t in r
  {
    Filter(active, (t: TransitEntity) => t.transitType == transitType && IsTransitEntityApplicable(t, o))
  }

  /** getApplicableTransitEntities: keeps, in repository order, each entity that applies. */
  method GetApplicableTransitEntities(o: Order, transitType: TransitType, active: seq<TransitEntity>) returns (r: seq<TransitEntity>)
    ensures r == Applicable(o, transitType, active)
  {
    var p := (t: TransitEntity) => t.transitType == transitType && IsTransitEntityApplicable(t, o);
    r := [];
    var i := 0;
    while i < |active|
      invariant 0 <= i <= |active|
      invariant r == Filter(active[..i], p)
    {
      FilterSnoc(active[..i], active[i], p);
      assert active[..i + 1] == active[..i] + [active[i]];
      if p(active[i]) {
        r := r + [active[i]];
      }
      i := i + 1;
    }
    assert active[..i] == active;
  }

  /** The concatenated receivable records of the entities, in order. */
  function ReceivableRecordsAll(o: Order, amount: real, ts: seq<TransitEntity>): (rs: seq<ClearingResult>)
    ensures AmountSum(rs) == Times(|ts|, amount)
  {
    if ts == [] then []
    else
      var init := ReceivableRecordsAll(o, amount, ts[..|ts| - 1]);
      var last := ReceivableTransitRecords(o, amount, ts[|ts| - 1]);
      SumsAppend(init, last);
      init + last
  }

  lemma ReceivableStep(o: Order, amount: real, ts: seq<TransitEntity>, i: nat)
    requires i < |ts|
    ensures ReceivableRecordsAll(o, amount, ts[..i + 1]) == ReceivableRecordsAll(o, amount, ts[..i]) + ReceivableTransitRecords(o, amount, ts[i])
  {
    assert ts[..i + 1][..i] == ts[..i];
  }

  /** The concatenated payable records of the entities, in order. */
  function PayableRecordsAll(o: Order, amount: real, ts: seq<TransitEntity>): (rs: seq<ClearingResult>)
    ensures AmountSum(rs) == 0.0
  {
    if ts == [] then []
    else
      var init := PayableRecordsAll(o, amount, ts[..|ts| - 1]);
      var last := PayableTransitRecords(o, amount, ts[|ts| - 1]);
      SumsAppend(init, last);
      init + last
  }

  lemma PayableStep(o: Order, amount: real, ts: seq<TransitEntity>, i: nat)
    requires i < |ts|
    ensures PayableRecordsAll(o, amount, ts[..i + 1]) == PayableRecordsAll(o, amount, ts[..i]) + PayableTransitRecords(o, amount, ts[i])
  {
    assert ts[..i + 1][..i] == ts[..i];
  }

  /** processReceivableTransit: the net of the records is the amount once per applicable entity (Times, see TimesIsProduct). */
  method ProcessReceivableTransit(o: Order, amount: real, active: seq<TransitEntity>) returns (results: seq<ClearingResult>)
    ensures results == ReceivableRecordsAll(o, amount, Applicable(o, ReceivableTransit, active))
    ensures AmountSum(results) == Times(|Applicable(o, ReceivableTransit, active)|, amount)
  {
    var ts := GetApplicableTransitEntities(o, ReceivableTransit, active);
    results := [];
    var i := 0;
    while i < |ts|
      invariant 0 <= i <= |ts|
      invariant results == ReceivableRecordsAll(o, amount, ts[..i])
    {
      ReceivableStep(o, amount, ts, i);
      results := results + ReceivableTransitRecords(o, amount, ts[i]);
      i := i + 1;
    }
    assert ts[..i] == ts;
  }

  /** processPayableTransit: every entity's records cancel, so the whole list nets to zero. */
  method ProcessPayableTransit(o: Order, amount: real, active: seq<TransitEntity>) returns (results: seq<ClearingResult>)
    ensures results == PayableRecordsAll(o, amount, Applicable(o, PayableTransit, active))
    ensures AmountSum(results) == 0.0
  {
    var ts := GetApplicableTransitEntities(o, PayableTransit, active);
    results := [];
    var i := 0;
    while i < |ts|
      invariant 0 <= i <= |ts|
      invariant results == PayableRecordsAll(o, amount, ts[..i])
    {
      PayableStep(o, amount, ts, i);
      results := results + PayableTransitRecords(o, amount, ts[i]);
      i := i + 1;
    }
    assert ts[..i] == ts;
  }
}
