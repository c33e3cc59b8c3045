/**
 * Pass-through processing ("过账处理") of a clearing instruction's internal
 * transactions (PassthroughProcessingController): routing a transaction
 * through one or two routing companies that each keep a retention, the
 * executor that runs the resulting details in execution order, the netting of
 * the two directions between a pair of entities, and differential billing
 * when an instruction is regenerated. The controller's static rule lists are
 * parameters, and so are the instruction id and the clock readings that go
 * into generated ids.
 */
module Passthrough {
  import opened Wrappers
  import opened Money
  import opened Strings
  import opened Sorting

  /** An internal transaction of the clearing instruction, as getClearingInternalTransactions returns it. */
  datatype InternalTransaction = InternalTransaction(
    fromEntityId: string,
    fromEntityName: string,
    toEntityId: string,
    toEntityName: string,
    detailAmount: real,
    currencyCode: string)

  /** A routing rule of the static rule list; a null second routing company is None. */
  datatype RoutingRule = RoutingRule(
    ruleId: string,
    ruleStatus: string,
    payerLegalEntityId: string,
    payeeLegalEntityId: string,
    currencyCode: string,
    routingEntity1Id: string,
    routingEntity1Name: string,
    routingEntity2Id: Option<string>,
    routingEntity2Name: string,
    routing1RetentionRate: real,
    routing2RetentionRate: real,
    rulePriority: int)

  datatype DetailStatus = Pending | Success

  datatype DetailType = RoutingType | RetentionType | PassthroughType

  /**
   * A pass-through detail: a ROUTING hop, a RETENTION kept by a routing
   * company, or a PASSTHROUGH copy of a transaction no rule routes. The
   * amount is actualAmount for the first and last kind and retentionAmount
   * for a retention.
   */
  datatype Detail =
    | Routing(instructionId: string, detailSequence: nat, executionOrder: nat,
              payerId: string, payerName: string, payeeId: string, payeeName: string,
              amount: real, appliedRuleId: string, routingLevel: nat, routingPath: string,
              status: DetailStatus)
    | Retention(instructionId: string, detailSequence: nat, executionOrder: nat,
                entityId: string, entityName: string, amount: real, status: DetailStatus)
    | Direct(instructionId: string, detailSequence: nat, executionOrder: nat,
             payerId: string, payerName: string, payeeId: string, payeeName: string,
             amount: real, currencyCode: string, routingPath: string, status: DetailStatus)
  {
    /** The detailId, "PTDETAIL_" + instructionId + "_" + the sequence in three digits. */
    function Id(): string {
      DetailId(instructionId, detailSequence)
    }

    function DetailKind(): DetailType {
      match this
      case Routing(_, _, _, _, _, _, _, _, _, _, _, _) => RoutingType
      case Retention(_, _, _, _, _, _, _) => RetentionType
      case Direct(_, _, _, _, _, _, _, _, _, _, _) => PassthroughType
    }
  }

  /** The separator of a routing path. */
  const Arrow: string := " \U{2192} "

  /** "PTDETAIL_" + instructionId + "_" + String.format("%03d", sequence). */
  function DetailId(instructionId: string, sequence: nat): string
  {
    "PTDETAIL_" + instructionId + "_" + PadStart(NatToString(sequence), 3, '0')
  }

  /** Two details of one instruction get the same id only if they have the same sequence. */
  lemma DetailIdInjective(instructionId: string, a: nat, b: nat)
    requires DetailId(instructionId, a) == DetailId(instructionId, b)
    ensures a == b
  {
    var p := "PTDETAIL_" + instructionId + "_";
    var x, y := DetailId(instructionId, a), DetailId(instructionId, b);
    assert x[|p|..] == PadStart(NatToString(a), 3, '0');
    assert y[|p|..] == PadStart(NatToString(b), 3, '0');
    PaddedValue(a, 3);
    PaddedValue(b, 3);
  }

  // ---------------------------------------------------------------------
  // Routing rules
  // ---------------------------------------------------------------------

  /** The filters of findMatchingRoutingRule. */
  predicate RuleMatches(rule: RoutingRule, payerId: string, payeeId: string, currency: string) {
    rule.ruleStatus == "ACTIVE" && rule.payerLegalEntityId == payerId &&
    rule.payeeLegalEntityId == payeeId && rule.currencyCode == currency
  }

  /**
   * findMatchingRoutingRule: among the ACTIVE rules for this payer, payee and
   * currency, one with the least rulePriority (Stream.min keeps the first on ties).
   */
  function FindMatchingRoutingRule(rules: seq<RoutingRule>, payerId: string, payeeId: string, currency: string): (r: Option<RoutingRule>)
    ensures r.None? <==> forall x :: x in rules ==> !RuleMatches(x, payerId, payeeId, currency)
    ensures r.Some? ==> r.value in rules && RuleMatches(r.value, payerId, payeeId, currency)
    ensures r.Some? ==> forall x :: x in rules && RuleMatches(x, payerId, payeeId, currency) ==> r.value.rulePriority <= x.rulePriority
  {
    if rules == [] then None
    else
      var rest := FindMatchingRoutingRule(rules[1..], payerId, payeeId, currency);
      assert forall x :: x in rules ==> x == rules[0] || x in rules[1..];
      if !RuleMatches(rules[0], payerId, payeeId, currency) then rest
      else if rest.None? || rules[0].rulePriority <= rest.value.rulePriority then Some(rules[0])
      else rest
  }

  /** rules[i] is rule, and every matching rule before position i has a larger priority. */
  predicate FirstMinimalAt(rules: seq<RoutingRule>, payerId: string, payeeId: string, currency: string, i: int, rule: RoutingRule) {
    0 <= i < |rules| && rules[i] == rule &&
    forall j :: 0 <= j < i && RuleMatches(rules[j], payerId, payeeId, currency) ==> rules[j].rulePriority > rule.rulePriority
  }

  /** The chosen rule is the first of the minimal ones: every matching rule before it has a larger priority. */
  lemma {:induction false} MatchingRuleFirstOnTies(rules: seq<RoutingRule>, payerId: string, payeeId: string, currency: string)
    ensures var r := FindMatchingRoutingRule(rules, payerId, payeeId, currency);
      r.Some? ==> exists i :: FirstMinimalAt(rules, payerId, payeeId, currency, i, r.value)
  {
    if rules != [] {
      var r := FindMatchingRoutingRule(rules, payerId, payeeId, currency);
      var rest := FindMatchingRoutingRule(rules[1..], payerId, payeeId, currency);
      MatchingRuleFirstOnTies(rules[1..], payerId, payeeId, currency);
      var first := RuleMatches(rules[0], payerId, payeeId, currency);
      if first && (rest.None? || rules[0].rulePriority <= rest.value.rulePriority) {
        assert r == Some(rules[0]);
        assert FirstMinimalAt(rules, payerId, payeeId, currency, 0, r.value);
      } else if rest.Some? {
        assert r == rest;
        var i :| FirstMinimalAt(rules[1..], payerId, payeeId, currency, i, rest.value);
        forall j | 0 <= j < i + 1 && RuleMatches(rules[j], payerId, payeeId, currency)
          ensures rules[j].rulePriority > rest.value.rulePriority
        {
          if j > 0 {
            assert rules[j] == rules[1..][j - 1];
          }
        }
        assert FirstMinimalAt(rules, payerId, payeeId, currency, i + 1, r.value);
      }
    }
  }

  /** routingEntity2Id != null && !routingEntity2Id.isEmpty(). */
  predicate HasSecondHop(rule: RoutingRule) {
    rule.routingEntity2Id.Some? && rule.routingEntity2Id.value != ""
  }

  /** The retention of the first routing company: amount × rate1 at scale 2, HALF_UP. */
  function FirstRetention(d: InternalTransaction, rule: RoutingRule): (r: real)
  {
    Share(d.detailAmount, rule.routing1RetentionRate)
  }

  /** The retention of the second routing company, on what the first passes on; zero without a second hop. */
  function SecondRetention(d: InternalTransaction, rule: RoutingRule): (r: real)
  {
    if HasSecondHop(rule) then Share(d.detailAmount - FirstRetention(d, rule), rule.routing2RetentionRate) else 0.0
  }

  /** A ROUTING detail of createRoutingTransaction; its execution order is its sequence. */
  function Hop(instructionId: string, sequence: nat, payerId: string, payerName: string, payeeId: string, payeeName: string,
               amount: real, rule: RoutingRule, level: nat, routingPath: string): (d: Detail)
    ensures d.Routing? && d.detailSequence == sequence && d.executionOrder == sequence && d.status == Pending
    ensures d.instructionId == instructionId
    ensures d.payerId == payerId && d.payeeId == payeeId && d.amount == amount && d.routingLevel == level
  {
    Routing(instructionId, sequence, sequence, payerId, payerName, payeeId, payeeName,
            amount, rule.ruleId, level, routingPath, Pending)
  }

  /** A RETENTION detail of createRetentionTransaction. */
  function Kept(instructionId: string, sequence: nat, entityId: string, entityName: string, amount: real): (d: Detail)
    ensures d.Retention? && d.detailSequence == sequence && d.executionOrder == sequence && d.amount == amount
    ensures d.instructionId == instructionId
  {
    Retention(instructionId, sequence, sequence, entityId, entityName, amount, Pending)
  }

  /** The hop from the original payer to the first routing company, with the whole amount. */
  function FirstHop(d: InternalTransaction, rule: RoutingRule, instructionId: string, base: nat): (h: Detail)
    ensures h.Routing? && h.detailSequence == base && h.executionOrder == base && h.instructionId == instructionId
    ensures h.payerId == d.fromEntityId && h.payeeId == rule.routingEntity1Id && h.amount == d.detailAmount && h.routingLevel == 1
  {
    Hop(instructionId, base, d.fromEntityId, d.fromEntityName, rule.routingEntity1Id, rule.routingEntity1Name,
        d.detailAmount, rule, 1, d.fromEntityName + Arrow + rule.routingEntity1Name)
  }

  /** The hop to the first routing company and, when the retention r1 is positive, that retention. */
  function FirstLeg(d: InternalTransaction, rule: RoutingRule, instructionId: string, base: nat, r1: real): (ts: seq<Detail>)
    ensures |ts| == 1 + (if r1 > 0.0 then 1 else 0)
    ensures ts[0] == FirstHop(d, rule, instructionId, base)
    ensures forall k :: 0 <= k < |ts| ==> ts[k].detailSequence == base + k && ts[k].executionOrder == base + k && ts[k].instructionId == instructionId
    ensures forall k :: 0 < k < |ts| ==> ts[k] == Kept(instructionId, base + 1, rule.routingEntity1Id, rule.routingEntity1Name, r1)
  {
    var hop1 := FirstHop(d, rule, instructionId, base);
    if r1 > 0.0 then [hop1, Kept(instructionId, base + 1, rule.routingEntity1Id, rule.routingEntity1Name, r1)] else [hop1]
  }

  /**
   * The rest of a route with a second routing company, which receives t1 and
   * keeps r2: the hop to it, its retention when positive and the hop on to
   * the final payee.
   */
  function SecondLeg(d: InternalTransaction, rule: RoutingRule, instructionId: string, n: nat, t1: real, r2: real): (ts: seq<Detail>)
    requires HasSecondHop(rule)
    ensures |ts| == 2 + (if r2 > 0.0 then 1 else 0)
    ensures forall k :: 0 <= k < |ts| ==> ts[k].detailSequence == n + k && ts[k].executionOrder == n + k && ts[k].instructionId == instructionId
    ensures ts[0].Routing? && ts[0].payerId == rule.routingEntity1Id && ts[0].payeeId == rule.routingEntity2Id.value &&
            ts[0].amount == t1 && ts[0].routingLevel == 2
    ensures forall k :: 0 < k < |ts| - 1 ==> ts[k] == Kept(instructionId, n + 1, rule.routingEntity2Id.value, rule.routingEntity2Name, r2)
    ensures ts[|ts| - 1].Routing? && ts[|ts| - 1].payerId == rule.routingEntity2Id.value && ts[|ts| - 1].payeeId == d.toEntityId &&
            ts[|ts| - 1].amount == t1 - r2 && ts[|ts| - 1].routingLevel == 3
  {
    var r2Id := rule.routingEntity2Id.value;
    var path2 := d.fromEntityName + Arrow + rule.routingEntity1Name + Arrow + rule.routingEntity2Name;
    var hop2 := Hop(instructionId, n, rule.routingEntity1Id, rule.routingEntity1Name, r2Id, rule.routingEntity2Name, t1, rule, 2, path2);
    var last := Hop(instructionId, n + (if r2 > 0.0 then 2 else 1), r2Id, rule.routingEntity2Name, d.toEntityId, d.toEntityName,
                    t1 - r2, rule, 3, path2 + Arrow + d.toEntityName);
    if r2 > 0.0 then [hop2, Kept(instructionId, n + 1, r2Id, rule.routingEntity2Name, r2), last] else [hop2, last]
  }

  /** The last hop of a route without a second routing company: t1 from the first one to the final payee. */
  function DirectLeg(d: InternalTransaction, rule: RoutingRule, instructionId: string, n: nat, t1: real): (h: Detail)
    ensures h.Routing? && h.detailSequence == n && h.executionOrder == n && h.instructionId == instructionId
    ensures h.payerId == rule.routingEntity1Id && h.payeeId == d.toEntityId && h.amount == t1 && h.routingLevel == 2
  {
    Hop(instructionId, n, rule.routingEntity1Id, rule.routingEntity1Name, d.toEntityId, d.toEntityName, t1, rule, 2,
        d.fromEntityName + Arrow + rule.routingEntity1Name + Arrow + d.toEntityName)
  }

  /** A whole route numbered from base, for the retentions r1 and r2 (r2 is ignored without a second hop). */
  function Route(d: InternalTransaction, rule: RoutingRule, instructionId: string, base: nat, r1: real, r2: real): (ts: seq<Detail>)
    ensures |ts| == (if HasSecondHop(rule) then 3 else 2) + (if r1 > 0.0 then 1 else 0) + (if HasSecondHop(rule) && r2 > 0.0 then 1 else 0)
    ensures forall k :: 0 <= k < |ts| ==> ts[k].detailSequence == base + k && ts[k].executionOrder == base + k && ts[k].instructionId == instructionId
    ensures ts[0] == FirstHop(d, rule, instructionId, base)
    ensures ts[|ts| - 1].Routing? && ts[|ts| - 1].payeeId == d.toEntityId &&
            ts[|ts| - 1].amount == d.detailAmount - r1 - (if HasSecondHop(rule) then r2 else 0.0)
  {
    var head := FirstLeg(d, rule, instructionId, base, r1);
    var n := base + |head|;
    var t1 := d.detailAmount - r1;
    var tail := if HasSecondHop(rule) then SecondLeg(d, rule, instructionId, n, t1, r2) else [DirectLeg(d, rule, instructionId, n, t1)];
    var ts := head + tail;
    assert forall k :: |head| <= k < |ts| ==> ts[k] == tail[k - |head|];
    ts
  }

  /**
   * generateRoutingTransactions: the hop to the first routing company with the
   * whole amount and its retention when positive, then either the hop on to
   * the final payee, or the hop to the second routing company, its retention
   * when positive and the hop on to the final payee. Sub-details are numbered
   * consecutively from sequence × 10.
   */
  function RoutingTransactions(d: InternalTransaction, rule: RoutingRule, instructionId: string, sequence: nat): (ts: seq<Detail>)
    ensures |ts| == (if HasSecondHop(rule) then 3 else 2) + (if FirstRetention(d, rule) > 0.0 then 1 else 0) +
                    (if SecondRetention(d, rule) > 0.0 then 1 else 0)
    ensures forall k :: 0 <= k < |ts| ==> ts[k].detailSequence == 10 * sequence + k && ts[k].executionOrder == 10 * sequence + k &&
                                          ts[k].instructionId == instructionId
    ensures ts[0] == FirstHop(d, rule, instructionId, 10 * sequence)
    ensures ts[|ts| - 1].Routing? && ts[|ts| - 1].payeeId == d.toEntityId &&
            ts[|ts| - 1].amount == d.detailAmount - FirstRetention(d, rule) - SecondRetention(d, rule)
  {
    Route(d, rule, instructionId, 10 * sequence, FirstRetention(d, rule), SecondRetention(d, rule))
  }
  /**
   * createDirectTransaction as written: the transaction kept as it is, with
   * the bare sequence as detailSequence and sequence × 10 as execution order.
   */
  function AsWrittenDirectTransaction(d: InternalTransaction, instructionId: string, sequence: nat): (t: Detail)
    ensures t.Direct? && t.detailSequence == sequence && t.executionOrder == 10 * sequence
    ensures t.payerId == d.fromEntityId && t.payeeId == d.toEntityId && t.amount == d.detailAmount
    ensures t.currencyCode == d.currencyCode && t.instructionId == instructionId
  {
    Direct(instructionId, sequence, 10 * sequence, d.fromEntityId, d.fromEntityName,
           d.toEntityId, d.toEntityName, d.detailAmount, d.currencyCode,
           d.fromEntityName + Arrow + d.toEntityName, Pending)
  }

  /**
   * createDirectTransaction with the intended numbering: a direct copy takes
   * sequence × 10 as detailSequence, like the first detail of a route, so the
   * numbers of different transactions stay apart.
   */
  function DirectTransaction(d: InternalTransaction, instructionId: string, sequence: nat): (t: Detail)
    ensures t.Direct? && t.detailSequence == 10 * sequence && t.executionOrder == 10 * sequence
    ensures t.payerId == d.fromEntityId && t.payeeId == d.toEntityId && t.amount == d.detailAmount
    ensures t.currencyCode == d.currencyCode && t.instructionId == instructionId
  {
    Direct(instructionId, 10 * sequence, 10 * sequence, d.fromEntityId, d.fromEntityName,
           d.toEntityId, d.toEntityName, d.detailAmount, d.currencyCode,
           d.fromEntityName + Arrow + d.toEntityName, Pending)
  }

  // ---------------------------------------------------------------------
  // Totals
  // ---------------------------------------------------------------------

  /** calculateOriginalAmount. */
  function OriginalTotal(ts: seq<InternalTransaction>): real {
    if ts == [] then 0.0 else OriginalTotal(ts[..|ts| - 1]) + ts[|ts| - 1].detailAmount
  }

  /** calculateRetentionAmount: the retentions kept by routing companies. */
  function RetentionTotal(ds: seq<Detail>): real {
    if ds == [] then 0.0 else RetentionTotal(ds[1..]) + (if ds[0].Retention? then ds[0].amount else 0.0)
  }

  /** calculatePassthroughAmount: every ROUTING and PASSTHROUGH amount, intermediate hops included. */
  function PassthroughTotal(ds: seq<Detail>): real {
    if ds == [] then 0.0 else PassthroughTotal(ds[1..]) + (if ds[0].Retention? then 0.0 else ds[0].amount)
  }

  lemma {:induction false} TotalsAppend(a: seq<Detail>, b: seq<Detail>)
    ensures RetentionTotal(a + b) == RetentionTotal(a) + RetentionTotal(b)
    ensures PassthroughTotal(a + b) == PassthroughTotal(a) + PassthroughTotal(b)
    decreases |a|
  {
    if a == [] {
      assert a + b == b;
    } else {
      assert (a + b)[1..] == a[1..] + b;
      TotalsAppend(a[1..], b);
    }
  }

  /** The retention a leg keeps: its one retention detail, if any. */
  lemma LegRetention(ts: seq<Detail>, x: Detail, y: Detail, z: Detail)
    requires ts == [x, y, z] || ts == [x, y] || ts == [x]
    requires !x.Retention? && !z.Retention?
    ensures RetentionTotal(ts) == (if |ts| >= 2 && y.Retention? then y.amount else 0.0)
  {
    if |ts| == 3 {
      assert ts == [x, y, z];
      assert ts[1..] == [y, z] && ts[1..][1..] == [z] && ts[1..][1..][1..] == [];
      assert RetentionTotal([z]) == 0.0;
      assert RetentionTotal([y, z]) == (if y.Retention? then y.amount else 0.0);
    } else if |ts| == 2 {
      assert ts == [x, y];
      assert ts[1..] == [y] && ts[1..][1..] == [];
      assert RetentionTotal([y]) == (if y.Retention? then y.amount else 0.0);
    } else {
      assert ts[1..] == [];
    }
  }

  /** The retention details of a route add up to its positive retentions. */
  lemma RouteRetentions(d: InternalTransaction, rule: RoutingRule, instructionId: string, base: nat, r1: real, r2: real)
    ensures RetentionTotal(Route(d, rule, instructionId, base, r1, r2)) ==
      (if r1 > 0.0 then r1 else 0.0) + (if HasSecondHop(rule) && r2 > 0.0 then r2 else 0.0)
  {
    var head := FirstLeg(d, rule, instructionId, base, r1);
    var n := base + |head|;
    var t1 := d.detailAmount - r1;
    var tail := if HasSecondHop(rule) then SecondLeg(d, rule, instructionId, n, t1, r2) else [DirectLeg(d, rule, instructionId, n, t1)];
    assert Route(d, rule, instructionId, base, r1, r2) == head + tail;
    TotalsAppend(head, tail);
    var kept1 := Kept(instructionId, base + 1, rule.routingEntity1Id, rule.routingEntity1Name, r1);
    LegRetention(head, head[0], kept1, head[0]);
    if HasSecondHop(rule) {
      LegRetention(tail, tail[0], tail[1], tail[|tail| - 1]);
    } else {
      LegRetention(tail, tail[0], tail[0], tail[0]);
    }
  }

  /** One routed transaction: its retention details add up to the positive hop retentions. */
  lemma RoutingRetentions(d: InternalTransaction, rule: RoutingRule, instructionId: string, sequence: nat)
    ensures RetentionTotal(RoutingTransactions(d, rule, instructionId, sequence)) ==
      (if FirstRetention(d, rule) > 0.0 then FirstRetention(d, rule) else 0.0) +
      (if SecondRetention(d, rule) > 0.0 then SecondRetention(d, rule) else 0.0)
  {
    RouteRetentions(d, rule, instructionId, 10 * sequence, FirstRetention(d, rule), SecondRetention(d, rule));
  }

  /**
   * Money is conserved along a route: for a non-negative amount in cents and
   * rates with 0 <= rate1 <= 1 and rate2 >= 0, the retentions kept plus the
   * final transfer are exactly the original amount.
   */
  lemma RoutingConservesAmount(d: InternalTransaction, rule: RoutingRule, instructionId: string, sequence: nat)
    requires d.detailAmount >= 0.0 && IsCents(d.detailAmount)
    requires 0.0 <= rule.routing1RetentionRate <= 1.0 && rule.routing2RetentionRate >= 0.0
    ensures var ts := RoutingTransactions(d, rule, instructionId, sequence);
      RetentionTotal(ts) + ts[|ts| - 1].amount == d.detailAmount
  {
    RetentionsNonNegative(d, rule);
    RoutingRetentions(d, rule, instructionId, sequence);
  }

  /** Under those bounds neither hop keeps a negative retention, and the first keeps at most the amount. */
  lemma RetentionsNonNegative(d: InternalTransaction, rule: RoutingRule)
    requires d.detailAmount >= 0.0 && IsCents(d.detailAmount)
    requires 0.0 <= rule.routing1RetentionRate <= 1.0 && rule.routing2RetentionRate >= 0.0
    ensures 0.0 <= FirstRetention(d, rule) <= d.detailAmount
    ensures SecondRetention(d, rule) >= 0.0
  {
    ShareTwice(d.detailAmount, rule.routing1RetentionRate, rule.routing2RetentionRate);
  }

  // ---------------------------------------------------------------------
  // processRoutingRules
  // ---------------------------------------------------------------------

  /**
   * The details of the transaction at position sequence - 1: its route, or a
   * direct copy without a matching rule; their sequences are consecutive from
   * sequence × 10.
   */
  function Expansion(d: InternalTransaction, rules: seq<RoutingRule>, instructionId: string, sequence: nat): (ds: seq<Detail>)
    ensures 1 <= |ds| <= 5
    ensures forall k :: 0 <= k < |ds| ==> ds[k].detailSequence == 10 * sequence + k && ds[k].instructionId == instructionId
  {
    match FindMatchingRoutingRule(rules, d.fromEntityId, d.toEntityId, d.currencyCode)
    case Some(rule) =>
      var ts := RoutingTransactions(d, rule, instructionId, sequence);
      assert forall k :: 0 <= k < |ts| ==> ts[k].instructionId == instructionId;
      ts
    case None => [DirectTransaction(d, instructionId, sequence)]
  }

  /** The details processRoutingRules produces for a list of transactions, numbered from 1. */
  function Routed(ts: seq<InternalTransaction>, rules: seq<RoutingRule>, instructionId: string): (ds: seq<Detail>)
    ensures |ds| >= |ts|
    decreases |ts|
  {
    if ts == [] then []
    else Routed(ts[..|ts| - 1], rules, instructionId) + Expansion(ts[|ts| - 1], rules, instructionId, |ts|)
  }

  /** processRoutingRules: each transaction is routed or copied, in order, with its position as sequence. */
  method ProcessRoutingRules(clearingDetails: seq<InternalTransaction>, rules: seq<RoutingRule>, instructionId: string)
    returns (details: seq<Detail>)
    ensures details == Routed(clearingDetails, rules, instructionId)
  {
    details := [];
    var i := 0;
    while i < |clearingDetails|
      invariant 0 <= i <= |clearingDetails|
      invariant details == Routed(clearingDetails[..i], rules, instructionId)
    {
      var detail := clearingDetails[i];
      var matched := FindMatchingRoutingRule(rules, detail.fromEntityId, detail.toEntityId, detail.currencyCode);
      if matched.Some? {
        details := details + RoutingTransactions(detail, matched.value, instructionId, i + 1);
      } else {
        details := details + [DirectTransaction(detail, instructionId, i + 1)];
      }
      assert clearingDetails[..i + 1][..i] == clearingDetails[..i];
      i := i + 1;
    }
    assert clearingDetails[..i] == clearingDetails;
  }

  /** With no rule matching any transaction, nothing is retained and the pass-through total is the original total. */
  lemma {:induction false} UnroutedKeepsTotals(ts: seq<InternalTransaction>, rules: seq<RoutingRule>, instructionId: string)
    requires forall k :: 0 <= k < |ts| ==> FindMatchingRoutingRule(rules, ts[k].fromEntityId, ts[k].toEntityId, ts[k].currencyCode).None?
    ensures RetentionTotal(Routed(ts, rules, instructionId)) == 0.0
    ensures PassthroughTotal(Routed(ts, rules, instructionId)) == OriginalTotal(ts)
    decreases |ts|
  {
    if ts != [] {
      var p := ts[..|ts| - 1];
      assert forall k :: 0 <= k < |p| ==> p[k] == ts[k];
      UnroutedKeepsTotals(p, rules, instructionId);
      var e := Expansion(ts[|ts| - 1], rules, instructionId, |ts|);
      assert e == [DirectTransaction(ts[|ts| - 1], instructionId, |ts|)];
      TotalsAppend(Routed(p, rules, instructionId), e);
      assert e[1..] == [];
    }
  }

  /** Every detail's execution order lies in [lo, hi). */
  predicate OrdersWithin(ds: seq<Detail>, lo: int, hi: int) {
    forall k :: 0 <= k < |ds| ==> lo <= ds[k].executionOrder < hi
  }

  /** The execution orders strictly increase along the list. */
  predicate OrdersIncrease(ds: seq<Detail>) {
    forall j, k :: 0 <= j < k < |ds| ==> ds[j].executionOrder < ds[k].executionOrder
  }

  /** The execution orders of one transaction's details lie in [10 × sequence, 10 × sequence + 5) and increase. */
  lemma ExpansionOrders(d: InternalTransaction, rules: seq<RoutingRule>, instructionId: string, sequence: nat)
    ensures OrdersWithin(Expansion(d, rules, instructionId, sequence), 10 * sequence, 10 * sequence + 5)
    ensures OrdersIncrease(Expansion(d, rules, instructionId, sequence))
  {
  }

  lemma OrdersConcat(a: seq<Detail>, e: seq<Detail>, lo: int, mid: int, hi: int)
    requires lo <= mid <= hi
    requires OrdersWithin(a, lo, mid) && OrdersWithin(e, mid, hi) && OrdersIncrease(a) && OrdersIncrease(e)
    ensures OrdersWithin(a + e, lo, hi) && OrdersIncrease(a + e)
  {
    var r := a + e;
    forall k | 0 <= k < |r| ensures lo <= r[k].executionOrder < hi {
      if k >= |a| { assert r[k] == e[k - |a|]; } else { assert r[k] == a[k]; }
    }
    forall j, k | 0 <= j < k < |r| ensures r[j].executionOrder < r[k].executionOrder {
      if k < |a| {
        assert r[j] == a[j] && r[k] == a[k];
      } else if j >= |a| {
        assert r[j] == e[j - |a|] && r[k] == e[k - |a|];
      } else {
        assert r[j] == a[j] && r[k] == e[k - |a|];
      }
    }
  }

  lemma OrdersWiden(ds: seq<Detail>, lo: int, hi: int, hi': int)
    requires OrdersWithin(ds, lo, hi) && hi <= hi'
    ensures OrdersWithin(ds, lo, hi')
  {
  }

  /** The details of processRoutingRules come out in strictly increasing execution order, all in [10, 10 × |ts| + 5). */
  lemma {:induction false} RoutedOrdersIncrease(ts: seq<InternalTransaction>, rules: seq<RoutingRule>, instructionId: string)
    ensures OrdersWithin(Routed(ts, rules, instructionId), 10, 10 * |ts| + 5)
    ensures OrdersIncrease(Routed(ts, rules, instructionId))
    decreases |ts|
  {
    if ts != [] {
      var p := ts[..|ts| - 1];
      RoutedOrdersIncrease(p, rules, instructionId);
      var a := Routed(p, rules, instructionId);
      var e := Expansion(ts[|ts| - 1], rules, instructionId, |ts|);
      ExpansionOrders(ts[|ts| - 1], rules, instructionId, |ts|);
      OrdersWiden(a, 10, 10 * |p| + 5, 10 * |ts|);
      OrdersConcat(a, e, 10, 10 * |ts|, 10 * |ts| + 5);
    }
  }

  /**
   * The first transaction's route and a direct copy of the tenth transaction
   * share one detailSequence, and so one detailId: sub-details are numbered
   * from sequence × 10 but a direct copy keeps the bare sequence.
   */
  lemma DetailSequencesCollide(ts: seq<InternalTransaction>, rules: seq<RoutingRule>, instructionId: string)
    requires |ts| == 10
    requires FindMatchingRoutingRule(rules, ts[0].fromEntityId, ts[0].toEntityId, ts[0].currencyCode).Some?
    requires FindMatchingRoutingRule(rules, ts[9].fromEntityId, ts[9].toEntityId, ts[9].currencyCode).None?
    ensures var ds := AsWrittenRouted(ts, rules, instructionId);
      exists j, k :: 0 <= j < k < |ds| && ds[j].detailSequence == ds[k].detailSequence && ds[j].Id() == ds[k].Id()
  {
    var ds := AsWrittenRouted(ts, rules, instructionId);
    var first := AsWrittenExpansion(ts[0], rules, instructionId, 1);
    assert first[0].detailSequence == 10 && first[0].instructionId == instructionId;
    AsWrittenRoutedStartsWith(ts, rules, instructionId);
    assert ds[0] == first[0];
    var p := AsWrittenRouted(ts[..9], rules, instructionId);
    assert ds == p + [AsWrittenDirectTransaction(ts[9], instructionId, 10)];
    assert |p| >= 1;
    assert ds[|p|] == AsWrittenDirectTransaction(ts[9], instructionId, 10);
  }

  /** A non-empty list's details begin with its first transaction's details. */
  lemma {:induction false} AsWrittenRoutedStartsWith(ts: seq<InternalTransaction>, rules: seq<RoutingRule>, instructionId: string)
    requires |ts| >= 1
    ensures var e := AsWrittenExpansion(ts[0], rules, instructionId, 1);
      |AsWrittenRouted(ts, rules, instructionId)| >= |e| && AsWrittenRouted(ts, rules, instructionId)[..|e|] == e
    decreases |ts|
  {
    var e := AsWrittenExpansion(ts[0], rules, instructionId, 1);
    if |ts| == 1 {
      assert ts[..0] == [];
    } else {
      var p := ts[..|ts| - 1];
      AsWrittenRoutedStartsWith(p, rules, instructionId);
      assert p[0] == ts[0];
      var r := AsWrittenRouted(ts, rules, instructionId);
      assert r == AsWrittenRouted(p, rules, instructionId) + AsWrittenExpansion(ts[|ts| - 1], rules, instructionId, |ts|);
      assert r[..|e|] == AsWrittenRouted(p, rules, instructionId)[..|e|];
    }
  }

  /** The details of one transaction as processRoutingRules writes them, with the as-written direct copy. */
  function AsWrittenExpansion(d: InternalTransaction, rules: seq<RoutingRule>, instructionId: string, sequence: nat): (ds: seq<Detail>)
    ensures |ds| >= 1
  {
    match FindMatchingRoutingRule(rules, d.fromEntityId, d.toEntityId, d.currencyCode)
    case Some(rule) => RoutingTransactions(d, rule, instructionId, sequence)
    case None => [AsWrittenDirectTransaction(d, instructionId, sequence)]
  }

  /** The details processRoutingRules writes for a list of transactions, numbered from 1. */
  function AsWrittenRouted(ts: seq<InternalTransaction>, rules: seq<RoutingRule>, instructionId: string): (ds: seq<Detail>)
    ensures |ds| >= |ts|
    decreases |ts|
  {
    if ts == [] then []
    else AsWrittenRouted(ts[..|ts| - 1], rules, instructionId) + AsWrittenExpansion(ts[|ts| - 1], rules, instructionId, |ts|)
  }

  /** Every detail belongs to the instruction and has a sequence in [10, bound). */
  predicate SequencesBelow(ds: seq<Detail>, instructionId: string, bound: int) {
    forall k :: 0 <= k < |ds| ==> 10 <= ds[k].detailSequence < bound && ds[k].instructionId == instructionId
  }

  /** The detail sequences strictly increase along the list. */
  predicate SequencesIncrease(ds: seq<Detail>) {
    forall j, k :: 0 <= j < k < |ds| ==> ds[j].detailSequence < ds[k].detailSequence
  }

  lemma SequencesConcat(a: seq<Detail>, e: seq<Detail>, instructionId: string, mid: int, hi: int)
    requires SequencesBelow(a, instructionId, mid) && SequencesIncrease(a) && SequencesIncrease(e)
    requires forall k :: 0 <= k < |e| ==> mid <= e[k].detailSequence < hi && e[k].instructionId == instructionId
    requires 10 <= mid <= hi
    ensures SequencesBelow(a + e, instructionId, hi) && SequencesIncrease(a + e)
  {
    var r := a + e;
    forall k | 0 <= k < |r| ensures 10 <= r[k].detailSequence < hi && r[k].instructionId == instructionId {
      if k >= |a| { assert r[k] == e[k - |a|]; } else { assert r[k] == a[k]; }
    }
    forall j, k | 0 <= j < k < |r| ensures r[j].detailSequence < r[k].detailSequence {
      if k < |a| {
        assert r[j] == a[j] && r[k] == a[k];
      } else if j >= |a| {
        assert r[j] == e[j - |a|] && r[k] == e[k - |a|];
      } else {
        assert r[j] == a[j] && r[k] == e[k - |a|];
      }
    }
  }

  /** The sequences of an instruction's details strictly increase, so no two of them share one. */
  lemma {:induction false} RoutedSequencesIncrease(ts: seq<InternalTransaction>, rules: seq<RoutingRule>, instructionId: string)
    ensures SequencesBelow(Routed(ts, rules, instructionId), instructionId, 10 * |ts| + 5)
    ensures SequencesIncrease(Routed(ts, rules, instructionId))
    decreases |ts|
  {
    if ts != [] {
      var p := ts[..|ts| - 1];
      RoutedSequencesIncrease(p, rules, instructionId);
      var a := Routed(p, rules, instructionId);
      var e := Expansion(ts[|ts| - 1], rules, instructionId, |ts|);
      assert SequencesBelow(a, instructionId, 10 * |ts|);
      SequencesConcat(a, e, instructionId, 10 * |ts|, 10 * |ts| + 5);
    }
  }

  /** Every detail of an instruction has its own detailId. */
  lemma RoutedDetailIdsDistinct(ts: seq<InternalTransaction>, rules: seq<RoutingRule>, instructionId: string)
    ensures var ds := Routed(ts, rules, instructionId);
      forall j, k :: 0 <= j < k < |ds| ==> ds[j].Id() != ds[k].Id()
  {
    var ds := Routed(ts, rules, instructionId);
    RoutedSequencesIncrease(ts, rules, instructionId);
    assert SequencesBelow(ds, instructionId, 10 * |ts| + 5) && SequencesIncrease(ds);
    forall j, k | 0 <= j < k < |ds| ensures ds[j].Id() != ds[k].Id() {
      if ds[j].Id() == ds[k].Id() {
        DetailIdInjective(instructionId, ds[j].detailSequence, ds[k].detailSequence);
      }
    }
  }

  // ---------------------------------------------------------------------
  // PassthroughExecutor
  // ---------------------------------------------------------------------

  /** Comparator.comparingInt(executionOrder). */
  function OrderLeq(): (leq: (Detail, Detail) -> bool)
    ensures forall a, b :: leq(a, b) == (a.executionOrder <= b.executionOrder)
  {
    (a: Detail, b: Detail) => a.executionOrder <= b.executionOrder
  }

  lemma OrderLeqIsTotalPreorder()
    ensures IsTotalPreorder(OrderLeq())
  {
  }

  /** What executeTransactionDetail reports; every known detail type succeeds. */
  datatype ExecutionResult = ExecutionResult(detailId: string, detailSequence: nat, detailType: DetailType, amount: real, status: DetailStatus)

  function ResultOf(d: Detail): (r: ExecutionResult)
    ensures r.detailId == d.Id() && r.amount == d.amount && r.detailType == d.DetailKind() && r.status == Success
  {
    ExecutionResult(d.Id(), d.detailSequence, d.DetailKind(), d.amount, Success)
  }

  /**
   * executePassthroughTransactions: sort the details by execution order (a
   * stable sort) and execute them one by one, marking each SUCCESS. The dry-run
   * flag only changes the message text, which is not modelled.
   */
  method ExecutePassthroughTransactions(details: seq<Detail>) returns (executed: seq<Detail>, results: seq<ExecutionResult>)
    ensures |executed| == |details| && |results| == |details|
    ensures forall k :: 0 <= k < |executed| ==>
      executed[k] == SortBy(details, OrderLeq())[k].(status := Success) && results[k] == ResultOf(executed[k])
    ensures SortedBy(executed, OrderLeq())
  {
    var sorted := SortBy(details, OrderLeq());
    OrderLeqIsTotalPreorder();
    SortBySorted(details, OrderLeq());
    executed, results := RunInOrder(sorted);
    StatusKeepsOrder(sorted, executed);
  }

  /** Runs the details one by one in the order given, marking each as successful. */
  method RunInOrder(sorted: seq<Detail>) returns (executed: seq<Detail>, results: seq<ExecutionResult>)
    ensures |executed| == |sorted| && |results| == |sorted|
    ensures forall k :: 0 <= k < |sorted| ==> executed[k] == sorted[k].(status := Success) && results[k] == ResultOf(executed[k])
  {
    executed := [];
    results := [];
    var i := 0;
    while i < |sorted|
      invariant 0 <= i <= |sorted|
      invariant |executed| == i && |results| == i
      invariant forall k :: 0 <= k < i ==> executed[k] == sorted[k].(status := Success) && results[k] == ResultOf(executed[k])
    {
      var d := sorted[i].(status := Success);
      results := results + [ResultOf(d)];
      executed := executed + [d];
      i := i + 1;
    }
  }

  /** Marking details as executed leaves their execution order, and so its sortedness, unchanged. */
  lemma StatusKeepsOrder(sorted: seq<Detail>, executed: seq<Detail>)
    requires SortedBy(sorted, OrderLeq())
    requires |executed| == |sorted|
    requires forall k :: 0 <= k < |sorted| ==> executed[k] == sorted[k].(status := Success)
    ensures SortedBy(executed, OrderLeq())
  {
    forall j, k | 0 <= j < k < |executed|
      ensures OrderLeq()(executed[j], executed[k])
    {
      assert OrderLeq()(sorted[j], sorted[k]);
    }
  }

  /** The routed details are already in execution order, so the executor runs them in the order they were generated. */
  lemma ExecutionKeepsRoutedOrder(ts: seq<InternalTransaction>, rules: seq<RoutingRule>, instructionId: string)
    ensures SortBy(Routed(ts, rules, instructionId), OrderLeq()) == Routed(ts, rules, instructionId)
  {
    var ds := Routed(ts, rules, instructionId);
    RoutedOrdersIncrease(ts, rules, instructionId);
    SortedByIsFixed(ds, OrderLeq());
  }

  // ---------------------------------------------------------------------
  // NettingProcessor
  // ---------------------------------------------------------------------

  /** A transaction seen by the netting processor: who pays whom, and how much. */
  datatype NettingTransaction = NettingTransaction(payerId: string, payeeId: string, amount: real)

  datatype NettingRule = NettingRule(ruleId: string, ruleStatus: string, passthroughEntityId: string, targetEntityId: string, nettingMode: string)

  datatype NettingOutcome = NettingOutcome(
    nettingId: string,
    instructionId: string,
    entityAId: string,
    entityBId: string,
    entityAPayBAmount: real,
    entityBPayAAmount: real,
    netAmount: real,
    netPayerEntityId: string,
    netPayeeEntityId: string,
    savedTransactionsCount: int,
    savedAmount: real)

  /** The total paid from one entity to another. */
  function DirectionTotal(txs: seq<NettingTransaction>, from: string, to: string): real {
    if txs == [] then 0.0
    else DirectionTotal(txs[1..], from, to) + (if txs[0].payerId == from && txs[0].payeeId == to then txs[0].amount else 0.0)
  }

  /**
   * performNetting: nothing unless both directions carry money; otherwise the
   * side that pays more pays the difference to the other, and the rest of
   * the gross volume is saved.
   */
  function PerformNetting(instructionId: string, entityA: string, entityB: string, txs: seq<NettingTransaction>, nowMillis: nat): (r: Option<NettingOutcome>)
    ensures r.None? <==> DirectionTotal(txs, entityA, entityB) == 0.0 || DirectionTotal(txs, entityB, entityA) == 0.0
    ensures r.Some? ==> r.value.entityAPayBAmount == DirectionTotal(txs, entityA, entityB) &&
                        r.value.entityBPayAAmount == DirectionTotal(txs, entityB, entityA) &&
                        r.value.savedTransactionsCount == |txs| - 1
  {
    var aPayB := DirectionTotal(txs, entityA, entityB);
    var bPayA := DirectionTotal(txs, entityB, entityA);
    if aPayB == 0.0 || bPayA == 0.0 then None
    else
      var net := Abs(aPayB - bPayA);
      var payer := if aPayB > bPayA then entityA else entityB;
      var payee := if aPayB > bPayA then entityB else entityA;
      Some(NettingOutcome("NETTING_" + instructionId + "_" + NatToString(nowMillis), instructionId, entityA, entityB,
                          aPayB, bPayA, net, payer, payee, |txs| - 1, aPayB + bPayA - net))
  }

  /**
   * A netting outcome settles the pair: the net payer's gross payments minus
   * what it receives is the net amount, the net amount plus the saved amount
   * is the gross volume, and for positive directions the saved amount is
   * twice the smaller one.
   */
  lemma NettingSettlesPair(instructionId: string, entityA: string, entityB: string, txs: seq<NettingTransaction>, nowMillis: nat)
    requires entityA != entityB
    ensures var r := PerformNetting(instructionId, entityA, entityB, txs, nowMillis);
      r.Some? ==>
        (r.value.netPayerEntityId == entityA || r.value.netPayerEntityId == entityB) &&
        r.value.netPayeeEntityId != r.value.netPayerEntityId &&
        r.value.netAmount == DirectionTotal(txs, r.value.netPayerEntityId, r.value.netPayeeEntityId) -
                             DirectionTotal(txs, r.value.netPayeeEntityId, r.value.netPayerEntityId) &&
        r.value.netAmount + r.value.savedAmount == r.value.entityAPayBAmount + r.value.entityBPayAAmount &&
        (r.value.entityAPayBAmount > 0.0 && r.value.entityBPayAAmount > 0.0 ==>
          r.value.savedAmount == 2.0 * Min(r.value.entityAPayBAmount, r.value.entityBPayAAmount))
  {
  }

  /** A stub payer and payee (getPayerFromTransaction, getPayeeFromTransaction). */
  const StubPayer: string := "ENTITY_C"
  const StubPayee: string := "ENTITY_B"

  /** groupTransactionsByEntityPair puts every ROUTING and PASSTHROUGH result under the pair key "ENTITY_B|ENTITY_C". */
  function GroupedResults(results: seq<ExecutionResult>): (g: seq<ExecutionResult>)
    ensures |g| <= |results|
    ensures forall k :: 0 <= k < |g| ==> g[k].detailType != RetentionType
  {
    if results == [] then []
    else (if results[0].detailType == RetentionType then [] else [results[0]]) + GroupedResults(results[1..])
  }

  /** The netting view of the grouped results, with the stub payer and payee. */
  function StubTransactions(g: seq<ExecutionResult>): (txs: seq<NettingTransaction>)
    ensures |txs| == |g|
    ensures forall k :: 0 <= k < |txs| ==> txs[k] == NettingTransaction(StubPayer, StubPayee, g[k].amount)
  {
    if g == [] then [] else [NettingTransaction(StubPayer, StubPayee, g[0].amount)] + StubTransactions(g[1..])
  }

  /** findApplicableNettingRule: the first ACTIVE rule joining the two entities, in either role. */
  function FindApplicableNettingRule(rules: seq<NettingRule>, entityA: string, entityB: string): (r: Option<NettingRule>)
    ensures r.None? <==> forall x :: x in rules ==> !NettingRuleApplies(x, entityA, entityB)
    ensures r.Some? ==> r.value in rules && NettingRuleApplies(r.value, entityA, entityB)
  {
    if rules == [] then None
    else if NettingRuleApplies(rules[0], entityA, entityB) then Some(rules[0])
    else FindApplicableNettingRule(rules[1..], entityA, entityB)
  }

  predicate NettingRuleApplies(rule: NettingRule, entityA: string, entityB: string) {
    rule.ruleStatus == "ACTIVE" &&
    ((rule.passthroughEntityId == entityA && rule.targetEntityId == entityB) ||
     (rule.passthroughEntityId == entityB && rule.targetEntityId == entityA))
  }

  /**
   * processNetting as the stubs make it: one group of all ROUTING and
   * PASSTHROUGH results under ENTITY_B|ENTITY_C, netted when it has at least
   * two results and a FULL_NETTING rule joins the pair.
   */
  function ProcessNetting(instructionId: string, results: seq<ExecutionResult>, rules: seq<NettingRule>, nowMillis: nat): (ns: seq<NettingOutcome>)
    ensures |ns| <= 1
  {
    var g := GroupedResults(results);
    var rule := FindApplicableNettingRule(rules, "ENTITY_B", "ENTITY_C");
    if |g| >= 2 && rule.Some? && rule.value.nettingMode == "FULL_NETTING" then
      match PerformNetting(instructionId, "ENTITY_B", "ENTITY_C", StubTransactions(g), nowMillis)
      case Some(n) => [n]
      case None => []
    else []
  }

  lemma {:induction false} StubNeverPaysFromB(g: seq<ExecutionResult>)
    ensures DirectionTotal(StubTransactions(g), "ENTITY_B", "ENTITY_C") == 0.0
    decreases |g|
  {
    if g != [] {
      StubNeverPaysFromB(g[1..]);
      assert StubTransactions(g)[1..] == StubTransactions(g[1..]);
    }
  }

  /** With the stub payer and payee the first direction is always empty, so processNetting never nets anything. */
  lemma StubbedNettingYieldsNothing(instructionId: string, results: seq<ExecutionResult>, rules: seq<NettingRule>, nowMillis: nat)
    ensures ProcessNetting(instructionId, results, rules, nowMillis) == []
  {
    StubNeverPaysFromB(GroupedResults(results));
  }

  // ---------------------------------------------------------------------
  // DifferentialProcessor
  // ---------------------------------------------------------------------

  /** The approval threshold of a differential bill. */
  const ApprovalThreshold: real := 10000.0

  datatype DifferentialBilling = DifferentialBilling(
    diffId: string,
    orderId: string,
    originalInstructionId: string,
    newInstructionId: string,
    diffType: string,
    diffReason: string,
    originalAmount: real,
    newAmount: real,
    diffAmount: real,
    currencyCode: string,
    processingMode: string,
    diffStatus: string,
    approvalRequired: bool,
    approvalStatus: Option<string>,
    createdBy: string)

  /** createDifferentialBilling: approval is required, and pending, exactly when |diff| exceeds 10000. */
  function CreateDifferentialBilling(orderId: string, originalInstructionId: string, newInstructionId: string,
                                     diffType: string, diffReason: string, originalAmount: real, newAmount: real,
                                     diffAmount: real, processingMode: string, createdBy: string, nowMillis: nat): (b: DifferentialBilling)
    ensures b.approvalRequired <==> Abs(diffAmount) > ApprovalThreshold
    ensures b.approvalStatus == (if b.approvalRequired then Some("PENDING") else None)
    ensures b.diffStatus == "IDENTIFIED" && b.currencyCode == "CNY"
    ensures b.diffAmount == diffAmount && b.originalAmount == originalAmount && b.newAmount == newAmount
  {
    var required := Abs(diffAmount) > ApprovalThreshold;
    DifferentialBilling("DIFF_" + orderId + "_" + NatToString(nowMillis), orderId, originalInstructionId, newInstructionId,
                        diffType, diffReason, originalAmount, newAmount, diffAmount, "CNY", processingMode, "IDENTIFIED",
                        required, if required then Some("PENDING") else None, createdBy)
  }

  /** An increase and the equal decrease need the same approval. */
  lemma ApprovalIgnoresDirection(orderId: string, originalInstructionId: string, newInstructionId: string,
                                 diffType: string, diffReason: string, originalAmount: real, newAmount: real,
                                 diffAmount: real, processingMode: string, createdBy: string, nowMillis: nat)
    ensures CreateDifferentialBilling(orderId, originalInstructionId, newInstructionId, diffType, diffReason, originalAmount,
                                      newAmount, diffAmount, processingMode, createdBy, nowMillis).approvalRequired ==
            CreateDifferentialBilling(orderId, originalInstructionId, newInstructionId, diffType, diffReason, newAmount,
                                      originalAmount, -diffAmount, processingMode, createdBy, nowMillis).approvalRequired
  {
  }

  datatype AdjustmentType = Increase | Decrease

  datatype DifferentialTransaction =
    | Incremental(transactionId: string, originalInstructionId: string, newInstructionId: string,
                  transactionType: AdjustmentType, diffAmount: real, currencyCode: string)
    | Reversal(transactionId: string, originalInstructionId: string)
    | NewExecution(transactionId: string, newInstructionId: string)

  /** generateIncrementalTransactions: nothing for a zero difference, otherwise one INCREASE or DECREASE of |diff|. */
  function GenerateIncrementalTransactions(originalInstructionId: string, newInstructionId: string, diffAmount: real, nowMillis: nat): (ts: seq<DifferentialTransaction>)
    ensures ts == [] <==> diffAmount == 0.0
    ensures diffAmount != 0.0 ==>
      |ts| == 1 && ts[0].Incremental? && ts[0].diffAmount == Abs(diffAmount) &&
      (ts[0].transactionType == Increase <==> diffAmount > 0.0) &&
      ts[0].originalInstructionId == originalInstructionId && ts[0].newInstructionId == newInstructionId
  {
    if diffAmount == 0.0 then []
    else [Incremental("DIFF_TX_" + NatToString(nowMillis), originalInstructionId, newInstructionId,
                      if diffAmount > 0.0 then Increase else Decrease, Abs(diffAmount), "CNY")]
  }

  /** The signed effect of incremental transactions: an increase adds, a decrease subtracts. */
  function SignedEffect(ts: seq<DifferentialTransaction>): real {
    if ts == [] then 0.0
    else SignedEffect(ts[1..]) + Effect(ts[0])
  }

  function Effect(t: DifferentialTransaction): real {
    if !t.Incremental? then 0.0
    else if t.transactionType == Increase then t.diffAmount
    else -t.diffAmount
  }

  /** Applying the incremental transactions to the original amount gives the new amount. */
  lemma IncrementalRestoresNewAmount(originalInstructionId: string, newInstructionId: string, originalAmount: real, newAmount: real, nowMillis: nat)
    ensures originalAmount + SignedEffect(GenerateIncrementalTransactions(originalInstructionId, newInstructionId, newAmount - originalAmount, nowMillis)) == newAmount
  {
    var ts := GenerateIncrementalTransactions(originalInstructionId, newInstructionId, newAmount - originalAmount, nowMillis);
    if ts != [] {
      assert ts[1..] == [];
    }
  }

  /** generateReplacementTransactions: a full reversal of the original instruction, then the full new execution. */
  function GenerateReplacementTransactions(originalInstructionId: string, newInstructionId: string, nowMillis: nat): (ts: seq<DifferentialTransaction>)
    ensures |ts| == 2 && ts[0].Reversal? && ts[0].originalInstructionId == originalInstructionId
    ensures ts[1].NewExecution? && ts[1].newInstructionId == newInstructionId
    ensures SignedEffect(ts) == 0.0
  {
    var ts := [Reversal("REVERSAL_TX_" + NatToString(nowMillis), originalInstructionId),
               NewExecution("NEW_TX_" + NatToString(nowMillis), newInstructionId)];
    assert ts[1..][1..] == [];
    assert SignedEffect(ts[1..]) == 0.0;
    ts
  }
}
