/**
 * The rule engine that post-processes the clearing results of an order
 * (RuleEngineImpl): transit-entity retention, cross-border handling fees,
 * netting records and the management/legal reporting amounts, each driven by
 * the active clearing rules of one type. The rule repository query is the
 * parameter `active`; the JSON rule configuration is the typed fields of
 * ClearingRule; `amountText` is the text BigDecimal.toString gives for the
 * order's total amount.
 */
module RuleEngine {
  import opened Wrappers
  import opened Money
  import opened Strings
  import opened Sorting
  import opened Clearing

  datatype RuleType = TransitEntityRule | CrossBorderRule | NettingRule | RetentionRule

  /** A numeric configuration value: absent, a number, or text that new BigDecimal rejects. */
  datatype ConfigNumber = Missing | Number(value: real) | Unreadable

  /**
   * A clearing rule with its parsed configuration. A rate or threshold that
   * is None is one the configuration lacks or cannot be read as a number;
   * reading it throws, and the rule is skipped by the catch around it.
   */
  datatype ClearingRule = ClearingRule(
    ruleId: string,
    ruleType: RuleType,
    priority: int,
    conditionExpression: Option<string>,
    transitEntityId: string,
    retentionRate: Option<real>,
    applicableType: Option<string>,
    handlingFee: ConfigNumber,
    threshold: Option<real>,
    targetEntityId: Option<string>,
    managementRate: Option<real>,
    legalRate: Option<real>)

  // ---------------------------------------------------------------- conditions

  function QuotedBusinessType(o: Order): string {
    "\"" + (if o.businessType.Some? then o.businessType.value else "") + "\""
  }

  /** The condition with the ${order.currency}, ${order.businessType} and ${order.totalAmount} placeholders replaced. */
  function Substituted(c: string, o: Order, amountText: string): string {
    var c1 := ReplaceAll(c, "${order.currency}", "\"" + o.currency + "\"");
    var c2 := ReplaceAll(c1, "${order.businessType}", QuotedBusinessType(o));
    ReplaceAll(c2, "${order.totalAmount}", amountText)
  }

  /**
   * evaluateSimpleCondition: a condition mentioning "currency" holds when it
   * contains the order's currency; one mentioning "totalAmount" with a single
   * ">=" compares the total with the number after it (false when that is no
   * number); every other condition holds.
   */
  function EvaluateSimpleCondition(c: string, o: Order): (b: bool)
    ensures Contains(c, "currency") ==> (b <==> Contains(c, o.currency))
    ensures !Contains(c, "currency") && !Contains(c, "totalAmount") ==> b
    ensures !Contains(c, "currency") && !Contains(c, ">=") ==> b
  {
    if Contains(c, "currency") then Contains(c, o.currency)
    else if Contains(c, "totalAmount") && Contains(c, ">=") then
      var parts := SplitOn(c, ">=");
      if |parts| == 2 then
        match ParseDecimal(Trim(parts[1]))
        case None => false
        case Some(threshold) => o.totalAmount >= threshold
      else true
    else true
  }

  /** evaluateRuleCondition: a blank condition always holds; any other is substituted and then evaluated. */
  function EvaluateRuleCondition(rule: ClearingRule, o: Order, amountText: string): (b: bool)
    ensures IsBlank(rule.conditionExpression) ==> b
    ensures !IsBlank(rule.conditionExpression) ==>
              (b <==> EvaluateSimpleCondition(Substituted(rule.conditionExpression.value, o, amountText), o))
  {
    IsBlank(rule.conditionExpression) ||
    EvaluateSimpleCondition(Substituted(rule.conditionExpression.value, o, amountText), o)
  }

  /** No occurrence of sub can start where its first character is missing. */
  lemma {:induction false} NotContainedWithoutFirst(s: string, sub: string)
    requires |sub| > 0 && sub[0] !in s
    ensures !Contains(s, sub)
    decreases |s|
  {
    if |s| > 0 {
      assert s[0] != sub[0];
      assert sub[0] !in s[1..];
      NotContainedWithoutFirst(s[1..], sub);
    }
  }

  lemma {:induction false} PiecesOnWithout(s: string, sep: string)
    requires |sep| > 0 && !Contains(s, sep)
    ensures PiecesOn(s, sep) == [s]
    decreases |s|
  {
    if |s| >= |sep| {
      PiecesOnWithout(s[1..], sep);
      assert [s[0]] + s[1..] == s;
    }
  }

  /** Splitting at an occurrence of sep that no earlier occurrence can precede. */
  lemma {:induction false} PiecesOnAt(a: string, b: string, sep: string)
    requires |sep| > 0 && sep[0] !in a
    ensures PiecesOn(a + sep + b, sep) == [a] + PiecesOn(b, sep)
    decreases |a|
  {
    var s := a + sep + b;
    if a == [] {
      assert s == sep + b;
      assert s[..|sep|] == sep;
      assert s[|sep|..] == b;
    } else {
      assert s[0] == a[0] && s[0] != sep[0];
      assert !IsPrefix(sep, s);
      assert s[1..] == a[1..] + sep + b;
      PiecesOnAt(a[1..], b, sep);
      assert [s[0]] + a[1..] == a;
    }
  }

  lemma ContainsInPrefix(a: string, b: string, sub: string)
    requires Contains(a, sub)
    ensures Contains(a + b, sub)
  {
    var i := ContainsWitness(a, sub);
    assert (a + b)[i..i + |sub|] == a[i..i + |sub|];
    ContainsAt(a + b, sub, i);
  }

  /**
   * A threshold condition "lhs >= rhs", where lhs names totalAmount and has no
   * '>', holds exactly when rhs trims to a number the order's total reaches.
   */
  lemma ThresholdCondition(lhs: string, rhs: string, o: Order)
    requires '>' !in lhs && Contains(lhs, "totalAmount")
    requires rhs != [] && !Contains(rhs, ">=")
    requires !Contains(lhs + ">=" + rhs, "currency")
    ensures var t := ParseDecimal(Trim(rhs));
            EvaluateSimpleCondition(lhs + ">=" + rhs, o) <==> t.Some? && o.totalAmount >= t.value
  {
    var c := lhs + ">=" + rhs;
    ContainsInPrefix(lhs, ">=" + rhs, "totalAmount");
    assert c == lhs + (">=" + rhs);
    assert c[|lhs|..|lhs| + 2] == ">=";
    ContainsAt(c, ">=", |lhs|);
    PiecesOnAt(lhs, rhs, ">=");
    PiecesOnWithout(rhs, ">=");
    assert PiecesOn(c, ">=") == [lhs, rhs];
    assert SplitOn(c, ">=") == [lhs, rhs];
  }

  lemma TrimDigits(s: string)
    requires |s| > 0 && forall i :: 0 <= i < |s| ==> IsDigit(s[i])
    ensures Trim(s) == s
  {
    assert s[0] > ' ' && s[|s| - 1] > ' ';
  }

  /** "totalAmount>=" followed by a whole number n holds exactly for orders whose total is at least n. */
  lemma WholeThresholdCondition(n: nat, o: Order)
    ensures EvaluateSimpleCondition("totalAmount>=" + NatToString(n), o) <==> o.totalAmount >= n as real
  {
    var rhs := NatToString(n);
    var c := "totalAmount>=" + rhs;
    assert c == "totalAmount" + ">=" + rhs;
    assert "totalAmount"[..11] == "totalAmount";
    assert Contains("totalAmount", "totalAmount");
    assert '>' !in rhs && 'c' !in rhs by {
      forall i | 0 <= i < |rhs| ensures rhs[i] != '>' && rhs[i] != 'c' {
        assert IsDigit(rhs[i]);
      }
    }
    NotContainedWithoutFirst(rhs, ">=");
    assert forall i :: 0 <= i < |c| ==> c[i] != 'c' by {
      forall i | 0 <= i < |c| ensures c[i] != 'c' {
        if i >= 13 {
          assert c[i] == rhs[i - 13];
        }
      }
    }
    NotContainedWithoutFirst(c, "currency");
    ThresholdCondition("totalAmount", rhs, o);
    TrimDigits(rhs);
    ParseNatToString(n);
  }

  // ---------------------------------------------------------------- rule selection

  function PriorityLeq(a: ClearingRule, b: ClearingRule): bool {
    a.priority <= b.priority
  }

  lemma PriorityLeqIsTotalPreorder()
    ensures IsTotalPreorder(PriorityLeq)
  {
  }

  function Selector(o: Order, t: RuleType, amountText: string): ClearingRule -> bool {
    (x: ClearingRule) => x.ruleType == t && EvaluateRuleCondition(x, o, amountText)
  }

  /**
   * getApplicableRules: the active rules of the type whose condition holds,
   * all of them and nothing else, in ascending priority (stable on ties).
   */
  function GetApplicableRules(o: Order, active: seq<ClearingRule>, t: RuleType, amountText: string): (r: seq<ClearingRule>)
    ensures multiset(r) == multiset(Filter(active, Selector(o, t, amountText)))
    ensures forall k :: 0 <= k < |r| ==> r[k] in active && r[k].ruleType == t && EvaluateRuleCondition(r[k], o, amountText)
    ensures forall x :: x in active && x.ruleType == t && EvaluateRuleCondition(x, o, amountText) ==> x in r
    ensures SortedBy(r, PriorityLeq)
  {
    var selected := Filter(active, Selector(o, t, amountText));
    PriorityLeqIsTotalPreorder();
    SortBySorted(selected, PriorityLeq);
    var r := SortBy(selected, PriorityLeq);
    SameMembers(r, selected);
    assert forall x :: x in selected ==> Selector(o, t, amountText)(x) && x in active;
    r
  }

  lemma SameMembers<T>(a: seq<T>, b: seq<T>)
    requires multiset(a) == multiset(b)
    ensures forall x :: x in a <==> x in b
  {
    forall x ensures x in a <==> x in b {
      assert x in a <==> x in multiset(a);
      assert x in b <==> x in multiset(b);
    }
  }

  // ---------------------------------------------------------------- transit-entity rules

  /** shouldApplyTransitRule: "RECEIVABLE" selects receivables, "PAYABLE" payables, any other type nothing. */
  function ShouldApplyTransitRule(r: ClearingResult, applicableType: Option<string>): (b: bool)
    ensures b ==> r.transactionType == Receivable || r.transactionType == Payable
    ensures applicableType == Some("RECEIVABLE") ==> (b <==> r.transactionType == Receivable)
    ensures applicableType == Some("PAYABLE") ==> (b <==> r.transactionType == Payable)
    ensures applicableType != Some("RECEIVABLE") && applicableType != Some("PAYABLE") ==> !b
  {
    if applicableType == Some("RECEIVABLE") then r.transactionType == Receivable
    else if applicableType == Some("PAYABLE") then r.transactionType == Payable
    else false
  }

  /** The retention a transit rule takes from a result: the amount times the rate, HALF_UP to cents. */
  function RuleRetention(r: ClearingResult, rate: real): (ret: real)
    ensures IsCents(ret) && Abs(ret - r.amount * rate) <= 0.005
  {
    Round2(r.amount * rate)
  }

  /** A target result after the rule: the retention taken off, the old amount kept as originalAmount. */
  function AdjustedTarget(r: ClearingResult, ruleId: string, rate: real): (a: ClearingResult)
    ensures a.amount + RuleRetention(r, rate) == r.amount
    ensures a.originalAmount == Some(r.amount) && a.retentionRate == Some(rate) && a.ruleId == Some(ruleId)
    ensures a.(amount := r.amount, originalAmount := r.originalAmount, retentionRate := r.retentionRate, ruleId := r.ruleId) == r
  {
    var ret := RuleRetention(r, rate);
    var reduced := r.amount - ret;
    r.(amount := reduced, originalAmount := Some(reduced + ret), retentionRate := Some(rate), ruleId := Some(ruleId))
  }

  /** createTransitRetentionResult: the retention, booked as a transit fee receivable of the transit entity. */
  function TransitRetentionResult(transitEntityId: string, r: ClearingResult, rate: real): (t: ClearingResult)
    ensures t.entityId == transitEntityId && t.amount == RuleRetention(r, rate)
    ensures t.transactionType == TransitFee && t.accountType == InternalReceivable && t.isTransitRetention
    ensures t.currency == r.currency && t.clearingMode == r.clearingMode
    ensures t.retentionRate == Some(rate) && t.originalAmount == Some(r.amount)
    ensures t.ruleId.None? && t.retentionAmount.None? && t.managementAmount.None? && t.legalAmount.None?
  {
    ClearingResult(transitEntityId, RuleRetention(r, rate), r.currency, TransitFee, InternalReceivable,
                   r.clearingMode, true, None, Some(rate), Some(r.amount), None, None, None, None, None)
  }

  /** A result after the rule: adjusted when the rule selects it, else unchanged. */
  function AdjustOne(r: ClearingResult, rule: ClearingRule, rate: real): ClearingResult {
    if ShouldApplyTransitRule(r, rule.applicableType) then AdjustedTarget(r, rule.ruleId, rate) else r
  }

  /** Every result the rule selects, adjusted in place. */
  function AdjustTargets(rs: seq<ClearingResult>, rule: ClearingRule, rate: real): (a: seq<ClearingResult>)
    ensures |a| == |rs|
  {
    seq(|rs|, k requires 0 <= k < |rs| => AdjustOne(rs[k], rule, rate))
  }

  lemma AdjustTargetsSnoc(rs: seq<ClearingResult>, rule: ClearingRule, rate: real)
    requires rs != []
    ensures AdjustTargets(rs, rule, rate) == AdjustTargets(rs[..|rs| - 1], rule, rate) + [AdjustOne(rs[|rs| - 1], rule, rate)]
  {
  }

  /** One retention record per selected result, in list order. */
  function RetentionRecords(rs: seq<ClearingResult>, rule: ClearingRule, rate: real): (t: seq<ClearingResult>)
    ensures |t| <= |rs|
    ensures forall k :: 0 <= k < |t| ==> t[k].entityId == rule.transitEntityId && t[k].transactionType == TransitFee
    decreases |rs|
  {
    if rs == [] then []
    else
      var last := rs[|rs| - 1];
      RetentionRecords(rs[..|rs| - 1], rule, rate) +
      (if ShouldApplyTransitRule(last, rule.applicableType) then [TransitRetentionResult(rule.transitEntityId, last, rate)] else [])
  }

  /** One transit rule: skipped when its rate is unreadable; else the adjusted results followed by the retention records. */
  function ApplyTransitRule(rs: seq<ClearingResult>, rule: ClearingRule): seq<ClearingResult> {
    match rule.retentionRate
    case None => rs
    case Some(rate) => AdjustTargets(rs, rule, rate) + RetentionRecords(rs, rule, rate)
  }

  /** The transit rules applied in order. */
  function ApplyTransitRules(rs: seq<ClearingResult>, rules: seq<ClearingRule>): seq<ClearingResult>
    decreases |rules|
  {
    if rules == [] then rs
    else ApplyTransitRule(ApplyTransitRules(rs, rules[..|rules| - 1]), rules[|rules| - 1])
  }

  lemma AmountSumSnoc(s: seq<ClearingResult>, x: ClearingResult)
    ensures AmountSum(s + [x]) == AmountSum(s) + x.amount
  {
    SumsAppend(s, [x]);
  }

  /** The retention records carry exactly what the adjustment takes off the targets. */
  lemma {:induction false} TransitSplitsAmounts(rs: seq<ClearingResult>, rule: ClearingRule, rate: real)
    ensures AmountSum(AdjustTargets(rs, rule, rate)) + AmountSum(RetentionRecords(rs, rule, rate)) == AmountSum(rs)
    decreases |rs|
  {
    if rs != [] {
      var init := rs[..|rs| - 1];
      var last := rs[|rs| - 1];
      TransitSplitsAmounts(init, rule, rate);
      assert rs == init + [last];
      AdjustTargetsSnoc(rs, rule, rate);
      AmountSumSnoc(AdjustTargets(init, rule, rate), AdjustOne(last, rule, rate));
      AmountSumSnoc(init, last);
      if ShouldApplyTransitRule(last, rule.applicableType) {
        var record := TransitRetentionResult(rule.transitEntityId, last, rate);
        assert RetentionRecords(rs, rule, rate) == RetentionRecords(init, rule, rate) + [record];
        AmountSumSnoc(RetentionRecords(init, rule, rate), record);
        assert AdjustOne(last, rule, rate).amount + record.amount == last.amount;
      } else {
        assert RetentionRecords(rs, rule, rate) == RetentionRecords(init, rule, rate);
        assert AdjustOne(last, rule, rate) == last;
      }
    }
  }

  /** Transit retention moves money between records and never changes the order's total. */
  lemma TransitRuleConserves(rs: seq<ClearingResult>, rule: ClearingRule)
    ensures AmountSum(ApplyTransitRule(rs, rule)) == AmountSum(rs)
  {
    if rule.retentionRate.Some? {
      var rate := rule.retentionRate.value;
      SumsAppend(AdjustTargets(rs, rule, rate), RetentionRecords(rs, rule, rate));
      TransitSplitsAmounts(rs, rule, rate);
    }
  }

  lemma {:induction false} TransitRulesConserve(rs: seq<ClearingResult>, rules: seq<ClearingRule>)
    ensures AmountSum(ApplyTransitRules(rs, rules)) == AmountSum(rs)
    decreases |rules|
  {
    if rules != [] {
      TransitRulesConserve(rs, rules[..|rules| - 1]);
      TransitRuleConserves(ApplyTransitRules(rs, rules[..|rules| - 1]), rules[|rules| - 1]);
    }
  }

  /** The body of the loop over one transit rule: target results adjusted in place, retention records appended. */
  method ApplyTransitRuleInPlace(processed: seq<ClearingResult>, rule: ClearingRule) returns (next: seq<ClearingResult>)
    ensures next == ApplyTransitRule(processed, rule)
  {
    if rule.retentionRate.None? {
      return processed;
    }
    var rate := rule.retentionRate.value;
    var current := processed;
    var added: seq<ClearingResult> := [];
    for i := 0 to |processed|
      invariant |current| == |processed|
      invariant forall k :: 0 <= k < i ==> current[k] == AdjustOne(processed[k], rule, rate)
      invariant forall k :: i <= k < |processed| ==> current[k] == processed[k]
      invariant added == RetentionRecords(processed[..i], rule, rate)
    {
      assert processed[..i + 1][..i] == processed[..i];
      var target := current[i];
      if ShouldApplyTransitRule(target, rule.applicableType) {
        added := added + [TransitRetentionResult(rule.transitEntityId, target, rate)];
        current := current[i := AdjustedTarget(target, rule.ruleId, rate)];
      }
    }
    assert processed[..|processed|] == processed;
    next := current + added;
  }

  /** processTransitEntityRules: the applicable transit rules applied in priority order; the total is unchanged. */
  method ProcessTransitEntityRules(o: Order, results: seq<ClearingResult>, active: seq<ClearingRule>, amountText: string)
    returns (processed: seq<ClearingResult>)
    ensures processed == ApplyTransitRules(results, GetApplicableRules(o, active, TransitEntityRule, amountText))
    ensures AmountSum(processed) == AmountSum(results)
  {
    var rules := GetApplicableRules(o, active, TransitEntityRule, amountText);
    TransitRulesConserve(results, rules);
    if |rules| == 0 {
      return results;
    }
    processed := ApplyTransitRulesInOrder(results, rules);
  }

  /** The loop over the transit rules, one in-place application per rule. */
  method ApplyTransitRulesInOrder(results: seq<ClearingResult>, rules: seq<ClearingRule>) returns (processed: seq<ClearingResult>)
    ensures processed == ApplyTransitRules(results, rules)
  {
    processed := results;
    for j := 0 to |rules|
      invariant processed == ApplyTransitRules(results, rules[..j])
    {
      assert rules[..j + 1][..j] == rules[..j];
      processed := ApplyTransitRuleInPlace(processed, rules[j]);
    }
    assert rules[..|rules|] == rules;
  }

  // ---------------------------------------------------------------- cross-border rules

  /** The handling fee of a rule: zero when absent, None when unreadable (the rule is then skipped). */
  function HandlingFee(rule: ClearingRule): (fee: Option<real>)
    ensures fee.None? <==> rule.handlingFee.Unreadable?
    ensures rule.handlingFee.Missing? ==> fee == Some(0.0)
  {
    match rule.handlingFee
    case Missing => Some(0.0)
    case Number(v) => Some(v)
    case Unreadable => None
  }

  /** createHandlingFeeResult: the fee, a transit-fee receivable of the rule's transit entity. */
  function HandlingFeeResult(o: Order, rule: ClearingRule, fee: real): (r: ClearingResult)
    ensures r.entityId == rule.transitEntityId && r.amount == fee
    ensures r.transactionType == TransitFee && r.accountType == InternalReceivable && !r.isTransitRetention
    ensures r.currency == o.currency && r.clearingMode == o.clearingMode && r.ruleId.None?
  {
    ClearingResult(rule.transitEntityId, fee, o.currency, TransitFee, InternalReceivable, o.clearingMode,
                   false, None, None, None, None, None, None, None, None)
  }

  /**
   * One cross-border rule: every result is tagged with the rule's id, and a
   * positive fee adds one fee record per result.
   */
  function ApplyCrossBorderRule(o: Order, rs: seq<ClearingResult>, rule: ClearingRule): (a: seq<ClearingResult>)
    ensures rule.handlingFee.Unreadable? ==> a == rs
    ensures HandlingFee(rule).Some? ==>
              var fee := HandlingFee(rule).value;
              && |a| == |rs| + (if fee > 0.0 then |rs| else 0)
              && (forall k :: 0 <= k < |rs| ==> a[k] == rs[k].(ruleId := Some(rule.ruleId)))
              && (forall k :: |rs| <= k < |a| ==> a[k] == HandlingFeeResult(o, rule, fee))
  {
    match HandlingFee(rule)
    case None => rs
    case Some(fee) => Tagged(rs, rule.ruleId) + (if fee > 0.0 then FeeCopies(o, rule, fee, |rs|) else [])
  }

  function Tagged(rs: seq<ClearingResult>, ruleId: string): (a: seq<ClearingResult>)
    ensures |a| == |rs|
  {
    seq(|rs|, k requires 0 <= k < |rs| => rs[k].(ruleId := Some(ruleId)))
  }

  function FeeCopies(o: Order, rule: ClearingRule, fee: real, n: nat): (a: seq<ClearingResult>)
    ensures |a| == n
  {
    seq(n, _ => HandlingFeeResult(o, rule, fee))
  }

  function ApplyCrossBorderRules(o: Order, rs: seq<ClearingResult>, rules: seq<ClearingRule>): seq<ClearingResult>
    decreases |rules|
  {
    if rules == [] then rs
    else ApplyCrossBorderRule(o, ApplyCrossBorderRules(o, rs, rules[..|rules| - 1]), rules[|rules| - 1])
  }

  lemma {:induction false} SameAmountsSameSum(a: seq<ClearingResult>, b: seq<ClearingResult>)
    requires |a| == |b| && forall k :: 0 <= k < |a| ==> a[k].amount == b[k].amount
    ensures AmountSum(a) == AmountSum(b)
    decreases |a|
  {
    if a != [] {
      SameAmountsSameSum(a[1..], b[1..]);
    }
  }

  lemma {:induction false} CopiesSum(s: seq<ClearingResult>, fee: real)
    requires forall k :: 0 <= k < |s| ==> s[k].amount == fee
    ensures AmountSum(s) == Times(|s|, fee)
    decreases |s|
  {
    if s != [] {
      CopiesSum(s[..|s| - 1], fee);
      assert s == s[..|s| - 1] + [s[|s| - 1]];
      AmountSumSnoc(s[..|s| - 1], s[|s| - 1]);
    }
  }

  /**
   * A cross-border rule adds its fee once per result to the total, when the
   * fee is positive (Times(n, fee) is n * fee, see TimesIsProduct).
   */
  lemma CrossBorderRuleAddsFees(o: Order, rs: seq<ClearingResult>, rule: ClearingRule, fee: real)
    requires HandlingFee(rule) == Some(fee)
    ensures AmountSum(ApplyCrossBorderRule(o, rs, rule)) == AmountSum(rs) + (if fee > 0.0 then Times(|rs|, fee) else 0.0)
  {
    SameAmountsSameSum(Tagged(rs, rule.ruleId), rs);
    if fee > 0.0 {
      var fees := FeeCopies(o, rule, fee, |rs|);
      SumsAppend(Tagged(rs, rule.ruleId), fees);
      CopiesSum(fees, fee);
    } else {
      assert Tagged(rs, rule.ruleId) + [] == Tagged(rs, rule.ruleId);
      assert ApplyCrossBorderRule(o, rs, rule) == Tagged(rs, rule.ruleId);
    }
  }

  /** The body of the loop over one cross-border rule. */
  method ApplyCrossBorderRuleInPlace(o: Order, processed: seq<ClearingResult>, rule: ClearingRule) returns (next: seq<ClearingResult>)
    ensures next == ApplyCrossBorderRule(o, processed, rule)
  {
    var feeOrFailure := HandlingFee(rule);
    if feeOrFailure.None? {
      return processed;
    }
    var fee := feeOrFailure.value;
    var current := processed;
    var added: seq<ClearingResult> := [];
    for i := 0 to |processed|
      invariant |current| == |processed|
      invariant forall k :: 0 <= k < i ==> current[k] == processed[k].(ruleId := Some(rule.ruleId))
      invariant forall k :: i <= k < |processed| ==> current[k] == processed[k]
      invariant |added| == (if fee > 0.0 then i else 0)
      invariant forall k :: 0 <= k < |added| ==> added[k] == HandlingFeeResult(o, rule, fee)
    {
      if fee > 0.0 {
        added := added + [HandlingFeeResult(o, rule, fee)];
      }
      current := current[i := current[i].(ruleId := Some(rule.ruleId))];
    }
    next := current + added;
  }

  /** processCrossBorderRules: the applicable cross-border rules applied in priority order. */
  method ProcessCrossBorderRules(o: Order, results: seq<ClearingResult>, active: seq<ClearingRule>, amountText: string)
    returns (processed: seq<ClearingResult>)
    ensures processed == ApplyCrossBorderRules(o, results, GetApplicableRules(o, active, CrossBorderRule, amountText))
  {
    var rules := GetApplicableRules(o, active, CrossBorderRule, amountText);
    if |rules| == 0 {
      return results;
    }
    processed := ApplyCrossBorderRulesInOrder(o, results, rules);
  }

  /** The loop over the cross-border rules, one in-place application per rule. */
  method ApplyCrossBorderRulesInOrder(o: Order, results: seq<ClearingResult>, rules: seq<ClearingRule>)
    returns (processed: seq<ClearingResult>)
    ensures processed == ApplyCrossBorderRules(o, results, rules)
  {
    processed := results;
    for j := 0 to |rules|
      invariant processed == ApplyCrossBorderRules(o, results, rules[..j])
    {
      assert rules[..j + 1][..j] == rules[..j];
      processed := ApplyCrossBorderRuleInPlace(o, processed, rules[j]);
    }
    assert rules[..|rules|] == rules;
  }

  // ---------------------------------------------------------------- netting rules

  /** createNettingResult: the entity's net, receivable when positive and payable otherwise. */
  function NettingResult(o: Order, entityId: string, net: real, ruleId: string): (r: ClearingResult)
    ensures r.entityId == entityId && r.amount == net && r.transactionType == Netting
    ensures r.accountType == (if net > 0.0 then InternalReceivable else InternalPayable)
    ensures r.currency == o.currency && r.clearingMode == o.clearingMode && r.ruleId == Some(ruleId)
  {
    ClearingResult(entityId, net, o.currency, Netting, if net > 0.0 then InternalReceivable else InternalPayable,
                   o.clearingMode, false, None, None, None, None, None, Some(ruleId), None, None)
  }

  /** The netting records for the entities ids of rs: one for each entity whose net reaches the threshold in magnitude. */
  function NettingRecords(o: Order, rs: seq<ClearingResult>, ids: seq<string>, threshold: real, ruleId: string): (n: seq<ClearingResult>)
    ensures |n| <= |ids|
    ensures forall k :: 0 <= k < |n| ==>
              && n[k].entityId in ids
              && Abs(EntitySum(rs, n[k].entityId)) >= threshold
              && n[k] == NettingResult(o, n[k].entityId, EntitySum(rs, n[k].entityId), ruleId)
    decreases |ids|
  {
    if ids == [] then []
    else
      var id := ids[|ids| - 1];
      var init := NettingRecords(o, rs, ids[..|ids| - 1], threshold, ruleId);
      var net := EntitySum(rs, id);
      if Abs(net) >= threshold then init + [NettingResult(o, id, net, ruleId)] else init
  }

  predicate HasRecordFor(n: seq<ClearingResult>, entityId: string) {
    exists k :: 0 <= k < |n| && n[k].entityId == entityId
  }

  predicate OnePerEntity(n: seq<ClearingResult>) {
    forall j, k :: 0 <= j < k < |n| ==> n[j].entityId != n[k].entityId
  }

  /** Every entity whose net reaches the threshold gets a netting record. */
  lemma {:induction false} NettingRecordsComplete(o: Order, rs: seq<ClearingResult>, ids: seq<string>, threshold: real, ruleId: string, id: string)
    requires id in ids && Abs(EntitySum(rs, id)) >= threshold
    ensures HasRecordFor(NettingRecords(o, rs, ids, threshold, ruleId), id)
    decreases |ids|
  {
    var n := NettingRecords(o, rs, ids, threshold, ruleId);
    var init := ids[..|ids| - 1];
    var m := NettingRecords(o, rs, init, threshold, ruleId);
    if id == ids[|ids| - 1] {
      assert n == m + [NettingResult(o, id, EntitySum(rs, id), ruleId)];
      assert n[|m|].entityId == id;
      assert exists k :: 0 <= k < |n| && n[k].entityId == id;
    } else {
      var j :| 0 <= j < |ids| && ids[j] == id;
      assert init[j] == id;
      NettingRecordsComplete(o, rs, init, threshold, ruleId, id);
      var k :| 0 <= k < |m| && m[k].entityId == id;
      assert n[..|m|] == m;
      assert n[k].entityId == id;
    }
  }

  /** For distinct entity ids there is at most one netting record per entity. */
  lemma {:induction false} NettingOnePerEntity(o: Order, rs: seq<ClearingResult>, ids: seq<string>, threshold: real, ruleId: string)
    requires forall j, k :: 0 <= j < k < |ids| ==> ids[j] != ids[k]
    ensures OnePerEntity(NettingRecords(o, rs, ids, threshold, ruleId))
    decreases |ids|
  {
    if ids != [] {
      var init := ids[..|ids| - 1];
      var id := ids[|ids| - 1];
      NettingOnePerEntity(o, rs, init, threshold, ruleId);
      var m := NettingRecords(o, rs, init, threshold, ruleId);
      assert id !in init;
      assert forall k :: 0 <= k < |m| ==> m[k].entityId != id;
      var n := NettingRecords(o, rs, ids, threshold, ruleId);
      assert n == m || n == m + [NettingResult(o, id, EntitySum(rs, id), ruleId)];
    }
  }

  /** One netting rule: skipped when its threshold is unreadable; else a netting record per qualifying entity is appended. */
  function ApplyNettingRule(o: Order, rs: seq<ClearingResult>, rule: ClearingRule): seq<ClearingResult> {
    match rule.threshold
    case None => rs
    case Some(threshold) => rs + NettingRecords(o, rs, EntityIds(rs), threshold, rule.ruleId)
  }

  function ApplyNettingRules(o: Order, rs: seq<ClearingResult>, rules: seq<ClearingRule>): seq<ClearingResult>
    decreases |rules|
  {
    if rules == [] then rs
    else ApplyNettingRule(o, ApplyNettingRules(o, rs, rules[..|rules| - 1]), rules[|rules| - 1])
  }

  /** Netting rules only append records. */
  lemma {:induction false} NettingKeepsResults(o: Order, rs: seq<ClearingResult>, rules: seq<ClearingRule>)
    ensures var a := ApplyNettingRules(o, rs, rules);
            |a| >= |rs| && a[..|rs|] == rs
    decreases |rules|
  {
    if rules != [] {
      NettingKeepsResults(o, rs, rules[..|rules| - 1]);
      var b := ApplyNettingRules(o, rs, rules[..|rules| - 1]);
      var a := ApplyNettingRules(o, rs, rules);
      assert a[..|b|] == b;
      assert a[..|rs|] == b[..|rs|];
    }
  }

  /**
   * A netting rule adds exactly one record for an entity when its net reaches
   * the threshold in magnitude, and none otherwise; it carries that net.
   */
  lemma NettingRecordIff(o: Order, rs: seq<ClearingResult>, rule: ClearingRule, entityId: string)
    requires rule.threshold.Some? && entityId in EntityIds(rs)
    ensures HasRecordFor(ApplyNettingRule(o, rs, rule)[|rs|..], entityId) <==> Abs(EntitySum(rs, entityId)) >= rule.threshold.value
    ensures forall r :: r in ApplyNettingRule(o, rs, rule)[|rs|..] && r.entityId == entityId ==> r.amount == EntitySum(rs, entityId)
    ensures OnePerEntity(ApplyNettingRule(o, rs, rule)[|rs|..])
  {
    var added := ApplyNettingRule(o, rs, rule)[|rs|..];
    assert added == NettingRecords(o, rs, EntityIds(rs), rule.threshold.value, rule.ruleId);
    NettingOnePerEntity(o, rs, EntityIds(rs), rule.threshold.value, rule.ruleId);
    if Abs(EntitySum(rs, entityId)) >= rule.threshold.value {
      NettingRecordsComplete(o, rs, EntityIds(rs), rule.threshold.value, rule.ruleId, entityId);
    }
  }

  /** The body of the loop over one netting rule: group by entity, then one record per qualifying entity. */
  method ApplyNettingRuleInPlace(o: Order, processed: seq<ClearingResult>, rule: ClearingRule) returns (next: seq<ClearingResult>)
    ensures next == ApplyNettingRule(o, processed, rule)
  {
    if rule.threshold.None? {
      return processed;
    }
    var threshold := rule.threshold.value;
    var ids := EntityIds(processed);
    var added: seq<ClearingResult> := [];
    for i := 0 to |ids|
      invariant added == NettingRecords(o, processed, ids[..i], threshold, rule.ruleId)
    {
      assert ids[..i + 1][..i] == ids[..i];
      var net := EntitySum(processed, ids[i]);
      if Abs(net) >= threshold {
        added := added + [NettingResult(o, ids[i], net, rule.ruleId)];
      }
    }
    assert ids[..|ids|] == ids;
    next := processed + added;
  }

  /** processNettingRules: the applicable netting rules applied in priority order. */
  method ProcessNettingRules(o: Order, results: seq<ClearingResult>, active: seq<ClearingRule>, amountText: string)
    returns (processed: seq<ClearingResult>)
    ensures processed == ApplyNettingRules(o, results, GetApplicableRules(o, active, NettingRule, amountText))
    ensures |processed| >= |results| && processed[..|results|] == results
  {
    NettingKeepsResults(o, results, GetApplicableRules(o, active, NettingRule, amountText));
    var rules := GetApplicableRules(o, active, NettingRule, amountText);
    if |rules| == 0 {
      return results;
    }
    processed := ApplyNettingRulesInOrder(o, results, rules);
  }

  /** The loop over the netting rules, one in-place application per rule. */
  method ApplyNettingRulesInOrder(o: Order, results: seq<ClearingResult>, rules: seq<ClearingRule>)
    returns (processed: seq<ClearingResult>)
    ensures processed == ApplyNettingRules(o, results, rules)
  {
    processed := results;
    for j := 0 to |rules|
      invariant processed == ApplyNettingRules(o, results, rules[..j])
    {
      assert rules[..j + 1][..j] == rules[..j];
      processed := ApplyNettingRuleInPlace(o, processed, rules[j]);
    }
    assert rules[..|rules|] == rules;
  }

  // ---------------------------------------------------------------- reporting differences

  predicate ReportingConfigured(rule: ClearingRule) {
    rule.targetEntityId.Some? && rule.managementRate.Some? && rule.legalRate.Some?
  }

  /** A target result with its management and legal amounts set from the rates (not rounded). */
  function Reported(r: ClearingResult, rule: ClearingRule): (a: ClearingResult)
    requires ReportingConfigured(rule)
    ensures a.managementAmount == Some(r.amount * rule.managementRate.value)
    ensures a.legalAmount == Some(r.amount * rule.legalRate.value)
    ensures a.ruleId == Some(rule.ruleId)
    ensures a.(managementAmount := r.managementAmount, legalAmount := r.legalAmount, ruleId := r.ruleId) == r
  {
    r.(managementAmount := Some(r.amount * rule.managementRate.value),
       legalAmount := Some(r.amount * rule.legalRate.value),
       ruleId := Some(rule.ruleId))
  }

  /** One reporting rule: the target entity's results get report amounts; nothing else changes. */
  function ApplyReportingRule(rs: seq<ClearingResult>, rule: ClearingRule): (a: seq<ClearingResult>)
    ensures |a| == |rs|
    ensures forall k :: 0 <= k < |rs| ==> a[k].amount == rs[k].amount && a[k].entityId == rs[k].entityId
    ensures forall k :: 0 <= k < |rs| ==>
              a[k] == (if ReportingConfigured(rule) && rs[k].entityId == rule.targetEntityId.value then Reported(rs[k], rule) else rs[k])
  {
    if !ReportingConfigured(rule) then rs
    else seq(|rs|, k requires 0 <= k < |rs| => if rs[k].entityId == rule.targetEntityId.value then Reported(rs[k], rule) else rs[k])
  }

  function ApplyReportingRules(rs: seq<ClearingResult>, rules: seq<ClearingRule>): (a: seq<ClearingResult>)
    ensures |a| == |rs|
    decreases |rules|
  {
    if rules == [] then rs
    else ApplyReportingRule(ApplyReportingRules(rs, rules[..|rules| - 1]), rules[|rules| - 1])
  }

  /** Reporting rules never change a clearing amount, an entity or the order of the results. */
  lemma {:induction false} ReportingKeepsAmounts(rs: seq<ClearingResult>, rules: seq<ClearingRule>)
    ensures var a := ApplyReportingRules(rs, rules);
            forall k :: 0 <= k < |rs| ==> a[k].amount == rs[k].amount && a[k].entityId == rs[k].entityId
    ensures AmountSum(ApplyReportingRules(rs, rules)) == AmountSum(rs)
    decreases |rules|
  {
    if rules != [] {
      ReportingKeepsAmounts(rs, rules[..|rules| - 1]);
    }
    SameAmountsSameSum(ApplyReportingRules(rs, rules), rs);
  }

  /** The forEach over the target entity's results of one reporting rule. */
  method ApplyReportingRuleInPlace(processed: seq<ClearingResult>, rule: ClearingRule) returns (next: seq<ClearingResult>)
    ensures next == ApplyReportingRule(processed, rule)
  {
    next := processed;
    if !ReportingConfigured(rule) {
      return;
    }
    var target := rule.targetEntityId.value;
    for i := 0 to |processed|
      invariant |next| == |processed|
      invariant forall k :: 0 <= k < i ==> next[k] == (if processed[k].entityId == target then Reported(processed[k], rule) else processed[k])
      invariant forall k :: i <= k < |processed| ==> next[k] == processed[k]
    {
      if next[i].entityId == target {
        next := next[i := Reported(next[i], rule)];
      }
    }
  }

  /** processReportingDifferences: the applicable reporting rules applied in priority order; amounts unchanged. */
  method ProcessReportingDifferences(o: Order, results: seq<ClearingResult>, active: seq<ClearingRule>, amountText: string)
    returns (processed: seq<ClearingResult>)
    ensures processed == ApplyReportingRules(results, GetApplicableRules(o, active, RetentionRule, amountText))
    ensures AmountSum(processed) == AmountSum(results)
  {
    var rules := GetApplicableRules(o, active, RetentionRule, amountText);
    ReportingKeepsAmounts(results, rules);
    processed := ApplyReportingRulesInOrder(results, rules);
  }

  /** The loop over the retention rules, one in-place application per rule. */
  method ApplyReportingRulesInOrder(results: seq<ClearingResult>, rules: seq<ClearingRule>) returns (processed: seq<ClearingResult>)
    ensures processed == ApplyReportingRules(results, rules)
  {
    processed := results;
    for j := 0 to |rules|
      invariant processed == ApplyReportingRules(results, rules[..j])
    {
      assert rules[..j + 1][..j] == rules[..j];
      processed := ApplyReportingRuleInPlace(processed, rules[j]);
    }
    assert rules[..|rules|] == rules;
  }

  // ---------------------------------------------------------------- the pipeline

  /** applyRules: transit, cross-border, netting and reporting rules, in that order. */
  function AllRulesApplied(o: Order, results: seq<ClearingResult>, active: seq<ClearingRule>, amountText: string): seq<ClearingResult> {
    var afterTransit := ApplyTransitRules(results, GetApplicableRules(o, active, TransitEntityRule, amountText));
    var afterCrossBorder := ApplyCrossBorderRules(o, afterTransit, GetApplicableRules(o, active, CrossBorderRule, amountText));
    var afterNetting := ApplyNettingRules(o, afterCrossBorder, GetApplicableRules(o, active, NettingRule, amountText));
    ApplyReportingRules(afterNetting, GetApplicableRules(o, active, RetentionRule, amountText))
  }

  /** No active rule of a type: none of that type applies. */
  lemma NoRulesOfType(o: Order, active: seq<ClearingRule>, t: RuleType, amountText: string)
    requires forall r :: r in active ==> r.ruleType != t
    ensures GetApplicableRules(o, active, t, amountText) == []
  {
  }

  /** With no active rules, applying the rules returns the results unchanged. */
  lemma NoRulesNoChange(o: Order, results: seq<ClearingResult>, amountText: string)
    ensures AllRulesApplied(o, results, [], amountText) == results
  {
    assert GetApplicableRules(o, [], TransitEntityRule, amountText) == [];
    assert GetApplicableRules(o, [], CrossBorderRule, amountText) == [];
    assert GetApplicableRules(o, [], NettingRule, amountText) == [];
    assert GetApplicableRules(o, [], RetentionRule, amountText) == [];
  }

  method ApplyRules(o: Order, results: seq<ClearingResult>, active: seq<ClearingRule>, amountText: string)
    returns (processed: seq<ClearingResult>)
    ensures processed == AllRulesApplied(o, results, active, amountText)
  {
    processed := ProcessTransitEntityRules(o, results, active, amountText);
    processed := ProcessCrossBorderRules(o, processed, active, amountText);
    processed := ProcessNettingRules(o, processed, active, amountText);
    processed := ProcessReportingDifferences(o, processed, active, amountText);
  }
}
