/**
 * Management-account profit sharing (ProfitSharingController): an order's
 * expense lines are grouped by service, each service's gross profit is split
 * between the sales and the operation department by the applicable
 * profit-sharing rule, and the department results are checked for balance.
 * The controller's static stores become the fields of ProfitSharingStore.
 */
module ProfitSharing {
  import opened Wrappers
  import opened Money
  import opened Strings

  /** One expense line of an order, as the calculation reads it. */
  datatype ExpenseLine = ExpenseLine(serviceCode: string, entryType: string, amount: real)

  datatype ServiceProfitInfo = ServiceProfitInfo(revenue: real, cost: real, grossProfit: real)

  /** The two sums calculateServiceProfit keeps. */
  datatype LineKind = RevenueLine | CostLine

  /** What a line adds to revenue (RECEIVABLE lines) or to cost (PAYABLE lines); any other type adds nothing. */
  function LineAmount(e: ExpenseLine, k: LineKind): (r: real)
    ensures e.entryType != "RECEIVABLE" && e.entryType != "PAYABLE" ==> r == 0.0
  {
    match k
    case RevenueLine => if e.entryType == "RECEIVABLE" then e.amount else 0.0
    case CostLine => if e.entryType == "PAYABLE" then e.amount else 0.0
  }

  function Sum(es: seq<ExpenseLine>, k: LineKind): real
    decreases |es|
  {
    if es == [] then 0.0 else Sum(es[..|es| - 1], k) + LineAmount(es[|es| - 1], k)
  }

  lemma {:induction false} SumAppend(a: seq<ExpenseLine>, b: seq<ExpenseLine>, k: LineKind)
    ensures Sum(a + b, k) == Sum(a, k) + Sum(b, k)
    decreases |b|
  {
    if b != [] {
      assert (a + b)[..|a + b| - 1] == a + b[..|b| - 1];
      SumAppend(a, b[..|b| - 1], k);
    } else {
      assert a + b == a;
    }
  }

  /** A service's revenue, cost and gross profit. */
  function ServiceProfit(es: seq<ExpenseLine>): (info: ServiceProfitInfo)
    ensures info.grossProfit == info.revenue - info.cost
  {
    ServiceProfitInfo(Sum(es, RevenueLine), Sum(es, CostLine), Sum(es, RevenueLine) - Sum(es, CostLine))
  }

  /** calculateServiceProfit: one pass summing RECEIVABLE amounts into revenue and PAYABLE amounts into cost. */
  method CalculateServiceProfit(entries: seq<ExpenseLine>) returns (info: ServiceProfitInfo)
    ensures info.revenue == Sum(entries, RevenueLine) && info.cost == Sum(entries, CostLine)
    ensures info.grossProfit == info.revenue - info.cost
  {
    var revenue, cost := 0.0, 0.0;
    var i := 0;
    while i < |entries|
      invariant 0 <= i <= |entries|
      invariant revenue == Sum(entries[..i], RevenueLine) && cost == Sum(entries[..i], CostLine)
    {
      var entry := entries[i];
      assert entries[..i + 1][..i] == entries[..i];
      if entry.entryType == "RECEIVABLE" {
        revenue := revenue + entry.amount;
      } else if entry.entryType == "PAYABLE" {
        cost := cost + entry.amount;
      }
      i := i + 1;
    }
    assert entries[..i] == entries;
    info := ServiceProfitInfo(revenue, cost, revenue - cost);
  }

  // ---------------------------------------------------------------------
  // Grouping by service
  // ---------------------------------------------------------------------

  /** The lines of one service, in order. */
  function OfService(es: seq<ExpenseLine>, code: string): (r: seq<ExpenseLine>)
    ensures |r| <= |es|
    ensures forall i :: 0 <= i < |r| ==> r[i].serviceCode == code
    decreases |es|
  {
    if es == [] then []
    else OfService(es[..|es| - 1], code) + (if es[|es| - 1].serviceCode == code then [es[|es| - 1]] else [])
  }

  /**
   * The service codes of the lines, each once, in order of first appearance
   * (the order of groupingBy's HashMap is not defined; this is one order).
   */
  function ServiceCodes(es: seq<ExpenseLine>): (cs: seq<string>)
    ensures forall i :: 0 <= i < |es| ==> es[i].serviceCode in cs
    ensures forall i, j :: 0 <= i < j < |cs| ==> cs[i] != cs[j]
    decreases |es|
  {
    if es == [] then []
    else
      var p := ServiceCodes(es[..|es| - 1]);
      assert forall i :: 0 <= i < |es| - 1 ==> es[i] == es[..|es| - 1][i];
      if es[|es| - 1].serviceCode in p then p else p + [es[|es| - 1].serviceCode]
  }

  /** A code that no line carries has no lines. */
  lemma {:induction false} OfServiceEmpty(es: seq<ExpenseLine>, code: string)
    requires code !in ServiceCodes(es)
    ensures OfService(es, code) == []
    decreases |es|
  {
    if es != [] {
      var p := es[..|es| - 1];
      assert code !in ServiceCodes(p);
      OfServiceEmpty(p, code);
    }
  }

  /** The sums over the groups of the given codes. */
  function SumByServices(es: seq<ExpenseLine>, codes: seq<string>, k: LineKind): real
    decreases |codes|
  {
    if codes == [] then 0.0
    else SumByServices(es, codes[..|codes| - 1], k) + Sum(OfService(es, codes[|codes| - 1]), k)
  }

  /** One more line changes the group sums only in its own service's group. */
  lemma {:induction false} SumByServicesSnoc(es: seq<ExpenseLine>, x: ExpenseLine, codes: seq<string>, k: LineKind)
    requires forall i, j :: 0 <= i < j < |codes| ==> codes[i] != codes[j]
    ensures SumByServices(es + [x], codes, k) ==
            SumByServices(es, codes, k) + (if x.serviceCode in codes then LineAmount(x, k) else 0.0)
    decreases |codes|
  {
    if codes != [] {
      var q := codes[..|codes| - 1];
      var c := codes[|codes| - 1];
      SumByServicesSnoc(es, x, q, k);
      assert (es + [x])[..|es + [x]| - 1] == es;
      var g := OfService(es, c);
      if x.serviceCode == c {
        assert OfService(es + [x], c) == g + [x];
        assert (g + [x])[..|g + [x]| - 1] == g;
        assert x.serviceCode !in q by {
          forall i | 0 <= i < |q| ensures q[i] != c {
            assert q[i] == codes[i];
          }
        }
      } else {
        assert OfService(es + [x], c) == g + [];
        assert g + [] == g;
        assert x.serviceCode in codes <==> x.serviceCode in q;
      }
    }
  }

  /** A line of a service already seen adds to that service's group. */
  lemma SeenServiceStep(p: seq<ExpenseLine>, x: ExpenseLine, k: LineKind)
    requires x.serviceCode in ServiceCodes(p)
    ensures SumByServices(p + [x], ServiceCodes(p), k) == SumByServices(p, ServiceCodes(p), k) + LineAmount(x, k)
  {
    SumByServicesSnoc(p, x, ServiceCodes(p), k);
  }

  /** A line of a new service opens a group of its own. */
  lemma NewServiceStep(p: seq<ExpenseLine>, x: ExpenseLine, k: LineKind)
    requires x.serviceCode !in ServiceCodes(p)
    ensures SumByServices(p + [x], ServiceCodes(p) + [x.serviceCode], k) == SumByServices(p, ServiceCodes(p), k) + LineAmount(x, k)
  {
    var cs := ServiceCodes(p);
    var c := x.serviceCode;
    var all := cs + [c];
    var es := p + [x];
    assert all[..|all| - 1] == cs && all[|all| - 1] == c;
    assert SumByServices(es, all, k) == SumByServices(es, cs, k) + Sum(OfService(es, c), k);
    SumByServicesSnoc(p, x, cs, k);
    assert SumByServices(es, cs, k) == SumByServices(p, cs, k);
    OnlyLineOfNewService(p, x);
  }

  /** The group of a new service holds only the new line. */
  lemma OnlyLineOfNewService(p: seq<ExpenseLine>, x: ExpenseLine)
    requires x.serviceCode !in ServiceCodes(p)
    ensures forall k :: Sum(OfService(p + [x], x.serviceCode), k) == LineAmount(x, k)
  {
    var es := p + [x];
    OfServiceEmpty(p, x.serviceCode);
    assert es[..|es| - 1] == p;
    assert OfService(es, x.serviceCode) == [x];
    assert [x][..0] == [];
  }

  /** Grouping by service loses and duplicates nothing: the group sums add up to the order's sum. */
  lemma {:induction false} ServicesPartition(es: seq<ExpenseLine>, k: LineKind)
    ensures SumByServices(es, ServiceCodes(es), k) == Sum(es, k)
    decreases |es|
  {
    if es != [] {
      var p := es[..|es| - 1];
      var x := es[|es| - 1];
      assert es == p + [x];
      ServicesPartition(p, k);
      if x.serviceCode in ServiceCodes(p) {
        assert ServiceCodes(es) == ServiceCodes(p);
        SeenServiceStep(p, x, k);
      } else {
        assert ServiceCodes(es) == ServiceCodes(p) + [x.serviceCode];
        NewServiceStep(p, x, k);
      }
    }
  }

  // ---------------------------------------------------------------------
  // findApplicableProfitSharingRule
  // ---------------------------------------------------------------------

  datatype ProfitRule = ProfitRule(
    id: int,
    ruleCode: string,
    ruleName: string,
    ruleType: string,
    applicableServiceCodes: Option<string>,
    salesRatio: real,
    operationRatio: real,
    rulePriority: int,
    status: string)

  /**
   * The two filters: the rule is ACTIVE, and a SERVICE_SPECIFIC rule lists the
   * code in its comma-separated codes, a DEPARTMENT_SPECIFIC rule never
   * applies, and a STANDARD rule (or any other type) always applies.
   */
  predicate RuleApplies(rule: ProfitRule, serviceCode: string) {
    rule.status == "ACTIVE" &&
    if rule.ruleType == "SERVICE_SPECIFIC" then
      rule.applicableServiceCodes.Some? && serviceCode in Split(rule.applicableServiceCodes.value, ',')
    else rule.ruleType != "DEPARTMENT_SPECIFIC"
  }

  /**
   * findApplicableProfitSharingRule: an applicable rule of greatest
   * rulePriority (Stream.max keeps the first on ties); None when none applies.
   */
  function FindApplicableRule(rules: seq<ProfitRule>, serviceCode: string): (r: Option<ProfitRule>)
    ensures r.None? <==> forall x :: x in rules ==> !RuleApplies(x, serviceCode)
    ensures r.Some? ==> r.value in rules && RuleApplies(r.value, serviceCode)
    ensures r.Some? ==> forall x :: x in rules && RuleApplies(x, serviceCode) ==> x.rulePriority <= r.value.rulePriority
  {
    if rules == [] then None
    else
      var rest := FindApplicableRule(rules[1..], serviceCode);
      assert forall x :: x in rules ==> x == rules[0] || x in rules[1..];
      if !RuleApplies(rules[0], serviceCode) then rest
      else if rest.None? || rules[0].rulePriority >= rest.value.rulePriority then Some(rules[0])
      else rest
  }

  /** rules[i] is rule, and every applicable rule before position i has a smaller priority. */
  predicate FirstMaximalAt(rules: seq<ProfitRule>, serviceCode: string, i: int, rule: ProfitRule) {
    0 <= i < |rules| && rules[i] == rule &&
    forall j :: 0 <= j < i && RuleApplies(rules[j], serviceCode) ==> rules[j].rulePriority < rule.rulePriority
  }

  /** The chosen rule is the first of the maximal ones. */
  lemma {:induction false} ApplicableRuleFirstOnTies(rules: seq<ProfitRule>, serviceCode: string)
    ensures var r := FindApplicableRule(rules, serviceCode);
      r.Some? ==> exists i :: FirstMaximalAt(rules, serviceCode, i, r.value)
  {
    if rules != [] {
      var r := FindApplicableRule(rules, serviceCode);
      var rest := FindApplicableRule(rules[1..], serviceCode);
      ApplicableRuleFirstOnTies(rules[1..], serviceCode);
      var first := RuleApplies(rules[0], serviceCode);
      if first && (rest.None? || rules[0].rulePriority >= rest.value.rulePriority) {
        assert r == Some(rules[0]);
        assert FirstMaximalAt(rules, serviceCode, 0, r.value);
      } else if rest.Some? {
        assert r == rest;
        var i :| FirstMaximalAt(rules[1..], serviceCode, i, rest.value);
        forall j | 0 <= j < i + 1 && RuleApplies(rules[j], serviceCode)
          ensures rules[j].rulePriority < rest.value.rulePriority
        {
          if j > 0 {
            assert rules[j] == rules[1..][j - 1];
          }
        }
        assert FirstMaximalAt(rules, serviceCode, i + 1, r.value);
      }
    }
  }

  /** The rules the controller starts with: 50/50 standard, 60/40 for ocean services, 40/60 for customs services. */
  const InitialRules: seq<ProfitRule> := [
    ProfitRule(1, "STANDARD_50_50", "STANDARD_50_50", "STANDARD", None, 0.5, 0.5, 0, "ACTIVE"),
    ProfitRule(2, "OCEAN_60_40", "OCEAN_60_40", "SERVICE_SPECIFIC",
               Some(OceanCodes), 0.6, 0.4, 10, "ACTIVE"),
    ProfitRule(3, "CUSTOMS_40_60", "CUSTOMS_40_60", "SERVICE_SPECIFIC",
               Some(CustomsCodes), 0.4, 0.6, 10, "ACTIVE")
  ]

  /** "MBL_PROCESSING,BOOKING,VESSEL_MANIFEST" */
  const OceanCodes: string := "MBL_PROCESSING" + "," + "BOOKING" + "," + "VESSEL_MANIFEST"
  /** "CUSTOMS_DECLARATION,CUSTOMS_CLEARANCE,CUSTOMS_INSPECTION" */
  const CustomsCodes: string := "CUSTOMS_DECLARATION" + "," + "CUSTOMS_CLEARANCE" + "," + "CUSTOMS_INSPECTION"
  const OceanServices: seq<string> := ["MBL_PROCESSING", "BOOKING", "VESSEL_MANIFEST"]
  const CustomsServices: seq<string> := ["CUSTOMS_DECLARATION", "CUSTOMS_CLEARANCE", "CUSTOMS_INSPECTION"]

  /** Three codes joined by commas split back into the three codes. */
  lemma SplitThree(x: string, y: string, z: string)
    requires ',' !in x && ',' !in y && ',' !in z && z != []
    ensures Split(x + [','] + y + [','] + z, ',') == [x, y, z]
  {
    var s := x + [','] + y + [','] + z;
    assert s == x + [','] + (y + [','] + z);
    PiecesOfJoin(x, y + [','] + z, ',');
    PiecesOfJoin(y, z, ',');
    PiecesOfPlain(z, ',');
    assert s[|x|] == ',';
  }

  lemma OceanCodesSplit()
    ensures Split(OceanCodes, ',') == OceanServices
  {
    SplitThree("MBL_PROCESSING", "BOOKING", "VESSEL_MANIFEST");
  }

  lemma CustomsCodesSplit()
    ensures Split(CustomsCodes, ',') == CustomsServices
  {
    SplitThree("CUSTOMS_DECLARATION", "CUSTOMS_CLEARANCE", "CUSTOMS_INSPECTION");
  }

  /** With the initial rules an ocean service gets 60/40, a customs service 40/60 and every other service 50/50. */
  lemma InitialRuleChoice(serviceCode: string)
    ensures serviceCode in OceanServices ==> FindApplicableRule(InitialRules, serviceCode) == Some(InitialRules[1])
    ensures serviceCode in CustomsServices ==> FindApplicableRule(InitialRules, serviceCode) == Some(InitialRules[2])
    ensures serviceCode !in OceanServices && serviceCode !in CustomsServices ==>
              FindApplicableRule(InitialRules, serviceCode) == Some(InitialRules[0])
  {
    var rs := InitialRules;
    OceanCodesSplit();
    CustomsCodesSplit();
    assert RuleApplies(rs[0], serviceCode);
    assert RuleApplies(rs[1], serviceCode) <==> serviceCode in OceanServices;
    assert RuleApplies(rs[2], serviceCode) <==> serviceCode in CustomsServices;
    assert !(serviceCode in OceanServices && serviceCode in CustomsServices);
    assert rs[1..][1..][1..] == [];
    assert rs[1..][1..] == [rs[2]];
    assert rs[1..] == [rs[1], rs[2]];
    var last := FindApplicableRule([rs[2]], serviceCode);
    assert last == if serviceCode in CustomsServices then Some(rs[2]) else None;
    var tail := FindApplicableRule([rs[1], rs[2]], serviceCode);
    assert [rs[1], rs[2]][1..] == [rs[2]];
    assert tail == if serviceCode in OceanServices then Some(rs[1]) else last;
  }

  /** Every rule splits the whole gross profit: the two ratios add up to one. */
  predicate RatiosMakeWhole(rules: seq<ProfitRule>) {
    forall i :: 0 <= i < |rules| ==> rules[i].salesRatio + rules[i].operationRatio == 1.0
  }

  lemma InitialRatiosMakeWhole()
    ensures RatiosMakeWhole(InitialRules)
  {
  }

  // ---------------------------------------------------------------------
  // performProfitSharingCalculation
  // ---------------------------------------------------------------------

  /** A department's share of one service (createDepartmentResult), without the display names and the time. */
  datatype DepartmentResult = DepartmentResult(
    orderId: string,
    calculationId: string,
    departmentId: string,
    departmentType: string,
    serviceCode: string,
    externalRevenue: real,
    internalIncome: real,
    internalPayment: real,
    externalCost: real,
    departmentProfit: real,
    serviceGrossProfit: real,
    profitSharingRatio: real,
    profitSharingAmount: real,
    protocolId: int)

  /**
   * The two records of one service: sales books the external revenue and pays
   * operation cost + operation's share internally; operation receives that
   * payment and books the external cost. Nothing when no rule applies.
   */
  function ServiceResults(orderId: string, calculationId: string, serviceCode: string, lines: seq<ExpenseLine>,
                          rules: seq<ProfitRule>): (rs: seq<DepartmentResult>)
    ensures |rs| == (if FindApplicableRule(rules, serviceCode).Some? then 2 else 0)
    ensures forall i :: 0 <= i < |rs| ==> rs[i].serviceCode == serviceCode && rs[i].orderId == orderId &&
                                          rs[i].calculationId == calculationId
  {
    var info := ServiceProfit(lines);
    match FindApplicableRule(rules, serviceCode)
    case None => []
    case Some(rule) =>
      var sales := Portion(info.grossProfit, rule.salesRatio);
      var operation := Portion(info.grossProfit, rule.operationRatio);
      [DepartmentResult(orderId, calculationId, "SALES_DEPT", "SALES", serviceCode,
                        info.revenue, 0.0, info.cost + operation, 0.0,
                        sales, info.grossProfit, rule.salesRatio, sales, rule.id),
       DepartmentResult(orderId, calculationId, "OPERATION_DEPT", "OPERATION", serviceCode,
                        0.0, info.cost + operation, 0.0, info.cost,
                        operation, info.grossProfit, rule.operationRatio, operation, rule.id)]
  }

  datatype Calculation = Calculation(departmentResults: seq<DepartmentResult>, totalGrossProfit: real)

  /** The loop over the service groups of the given codes: the records of each service, and the gross profits summed. */
  function CalculateOver(orderId: string, calculationId: string, es: seq<ExpenseLine>, codes: seq<string>,
                         rules: seq<ProfitRule>): (c: Calculation)
    ensures forall i :: 0 <= i < |c.departmentResults| ==>
              c.departmentResults[i].orderId == orderId && c.departmentResults[i].calculationId == calculationId
    decreases |codes|
  {
    if codes == [] then Calculation([], 0.0)
    else
      var prior := CalculateOver(orderId, calculationId, es, codes[..|codes| - 1], rules);
      var code := codes[|codes| - 1];
      var lines := OfService(es, code);
      Calculation(prior.departmentResults + ServiceResults(orderId, calculationId, code, lines, rules),
                  prior.totalGrossProfit + ServiceProfit(lines).grossProfit)
  }

  /** performProfitSharingCalculation over all the order's services. */
  function PerformCalculation(orderId: string, calculationId: string, es: seq<ExpenseLine>,
                                  rules: seq<ProfitRule>): (c: Calculation)
    ensures c == CalculateOver(orderId, calculationId, es, ServiceCodes(es), rules)
  {
    CalculateOver(orderId, calculationId, es, ServiceCodes(es), rules)
  }

  /** The total gross profit is the order's revenue minus its cost, whatever rules apply. */
  lemma TotalGrossIsOrderProfit(orderId: string, calculationId: string, es: seq<ExpenseLine>, rules: seq<ProfitRule>)
    ensures PerformCalculation(orderId, calculationId, es, rules).totalGrossProfit == Sum(es, RevenueLine) - Sum(es, CostLine)
  {
    GrossOver(orderId, calculationId, es, ServiceCodes(es), rules);
    ServicesPartition(es, RevenueLine);
    ServicesPartition(es, CostLine);
  }

  lemma {:induction false} GrossOver(orderId: string, calculationId: string, es: seq<ExpenseLine>, codes: seq<string>,
                                     rules: seq<ProfitRule>)
    ensures CalculateOver(orderId, calculationId, es, codes, rules).totalGrossProfit ==
            SumByServices(es, codes, RevenueLine) - SumByServices(es, codes, CostLine)
    decreases |codes|
  {
    if codes != [] {
      GrossOver(orderId, calculationId, es, codes[..|codes| - 1], rules);
    }
  }

  // ---------------------------------------------------------------------
  // performBalanceValidation
  // ---------------------------------------------------------------------

  /** The five columns performBalanceValidation totals. */
  datatype Column = ExternalRevenue | ExternalCost | InternalIncome | InternalPayment | DepartmentProfit

  function Field(r: DepartmentResult, col: Column): real {
    match col
    case ExternalRevenue => r.externalRevenue
    case ExternalCost => r.externalCost
    case InternalIncome => r.internalIncome
    case InternalPayment => r.internalPayment
    case DepartmentProfit => r.departmentProfit
  }

  function Total(rs: seq<DepartmentResult>, col: Column): real
    decreases |rs|
  {
    if rs == [] then 0.0 else Total(rs[..|rs| - 1], col) + Field(rs[|rs| - 1], col)
  }

  lemma {:induction false} TotalAppend(a: seq<DepartmentResult>, b: seq<DepartmentResult>, col: Column)
    ensures Total(a + b, col) == Total(a, col) + Total(b, col)
    decreases |b|
  {
    if b != [] {
      assert (a + b)[..|a + b| - 1] == a + b[..|b| - 1];
      TotalAppend(a, b[..|b| - 1], col);
    } else {
      assert a + b == a;
    }
  }

  /** The totals of a two-record list. */
  lemma TotalPair(x: DepartmentResult, y: DepartmentResult, col: Column)
    ensures Total([x, y], col) == Field(x, col) + Field(y, col)
  {
    assert [x, y][..1] == [x];
    assert [x][..0] == [];
    assert Total([x], col) == Field(x, col);
    assert Total([x, y], col) == Total([x], col) + Field(y, col);
  }

  datatype BalanceCheck = BalanceCheck(
    totalExternalRevenue: real,
    totalExternalCost: real,
    totalInternalIncome: real,
    totalInternalPayment: real,
    totalDepartmentProfit: real,
    orderGrossProfit: real,
    internalBalance: real,
    internalBalanced: bool,
    profitBalanced: bool,
    overallBalanced: bool)

  /** The 0.01 tolerance of both balance checks. */
  const Tolerance: real := 0.01

  /**
   * performBalanceValidation: the five totals; internal income and payment
   * must agree, and external revenue − external cost must agree with the
   * department profits, each to within 0.01.
   */
  method PerformBalanceValidation(rs: seq<DepartmentResult>) returns (b: BalanceCheck)
    ensures b.totalExternalRevenue == Total(rs, ExternalRevenue) && b.totalExternalCost == Total(rs, ExternalCost)
    ensures b.totalInternalIncome == Total(rs, InternalIncome) && b.totalInternalPayment == Total(rs, InternalPayment)
    ensures b.totalDepartmentProfit == Total(rs, DepartmentProfit)
    ensures b.orderGrossProfit == b.totalExternalRevenue - b.totalExternalCost
    ensures b.internalBalance == b.totalInternalIncome - b.totalInternalPayment
    ensures b.internalBalanced <==> Abs(b.internalBalance) < Tolerance
    ensures b.profitBalanced <==> Abs(b.orderGrossProfit - b.totalDepartmentProfit) < Tolerance
    ensures b.overallBalanced <==> b.internalBalanced && b.profitBalanced
  {
    var revenue, cost, income, payment, profit := 0.0, 0.0, 0.0, 0.0, 0.0;
    var i := 0;
    while i < |rs|
      invariant 0 <= i <= |rs|
      invariant revenue == Total(rs[..i], ExternalRevenue) && cost == Total(rs[..i], ExternalCost)
      invariant income == Total(rs[..i], InternalIncome) && payment == Total(rs[..i], InternalPayment)
      invariant profit == Total(rs[..i], DepartmentProfit)
    {
      assert rs[..i + 1][..i] == rs[..i];
      revenue := revenue + rs[i].externalRevenue;
      cost := cost + rs[i].externalCost;
      income := income + rs[i].internalIncome;
      payment := payment + rs[i].internalPayment;
      profit := profit + rs[i].departmentProfit;
      i := i + 1;
    }
    assert rs[..i] == rs;
    var gross := revenue - cost;
    var balance := income - payment;
    var internalBalanced := Abs(balance) < Tolerance;
    var profitBalanced := Abs(gross - profit) < Tolerance;
    b := BalanceCheck(revenue, cost, income, payment, profit, gross, balance,
                      internalBalanced, profitBalanced, internalBalanced && profitBalanced);
  }

  /** Every service of the order has an applicable rule. */
  predicate EveryServiceRuled(es: seq<ExpenseLine>, rules: seq<ProfitRule>) {
    forall i :: 0 <= i < |es| ==> FindApplicableRule(rules, es[i].serviceCode).Some?
  }

  /** A standard ACTIVE rule applies to every service. */
  lemma InitialRulesRuleEverything(es: seq<ExpenseLine>)
    ensures EveryServiceRuled(es, InitialRules)
  {
    forall i | 0 <= i < |es| ensures FindApplicableRule(InitialRules, es[i].serviceCode).Some? {
      assert RuleApplies(InitialRules[0], es[i].serviceCode);
    }
  }

  /** The column totals of one service's two records. */
  lemma ServiceResultsTotals(orderId: string, calculationId: string, code: string, lines: seq<ExpenseLine>, rules: seq<ProfitRule>)
    requires RatiosMakeWhole(rules)
    ensures var rs := ServiceResults(orderId, calculationId, code, lines, rules);
      var ruled := FindApplicableRule(rules, code).Some?;
      Total(rs, InternalIncome) == Total(rs, InternalPayment) &&
      Total(rs, ExternalRevenue) == (if ruled then Sum(lines, RevenueLine) else 0.0) &&
      Total(rs, ExternalCost) == (if ruled then Sum(lines, CostLine) else 0.0) &&
      Total(rs, DepartmentProfit) == (if ruled then ServiceProfit(lines).grossProfit else 0.0)
  {
    var rs := ServiceResults(orderId, calculationId, code, lines, rules);
    match FindApplicableRule(rules, code)
    case None =>
    case Some(rule) =>
      var k :| 0 <= k < |rules| && rules[k] == rule;
      PortionsMakeWhole(ServiceProfit(lines).grossProfit, rule.salesRatio, rule.operationRatio);
      TotalPair(rs[0], rs[1], InternalIncome);
      TotalPair(rs[0], rs[1], InternalPayment);
      TotalPair(rs[0], rs[1], ExternalRevenue);
      TotalPair(rs[0], rs[1], ExternalCost);
      TotalPair(rs[0], rs[1], DepartmentProfit);
      assert rs == [rs[0], rs[1]];
  }

  /** The totals of the records of the given services. */
  lemma {:induction false} CalculateOverTotals(orderId: string, calculationId: string, es: seq<ExpenseLine>, codes: seq<string>,
                                               rules: seq<ProfitRule>)
    requires RatiosMakeWhole(rules)
    requires forall i :: 0 <= i < |codes| ==> FindApplicableRule(rules, codes[i]).Some?
    ensures var rs := CalculateOver(orderId, calculationId, es, codes, rules).departmentResults;
      Total(rs, InternalIncome) == Total(rs, InternalPayment) &&
      Total(rs, ExternalRevenue) == SumByServices(es, codes, RevenueLine) &&
      Total(rs, ExternalCost) == SumByServices(es, codes, CostLine) &&
      Total(rs, DepartmentProfit) == SumByServices(es, codes, RevenueLine) - SumByServices(es, codes, CostLine)
    decreases |codes|
  {
    if codes != [] {
      var q := codes[..|codes| - 1];
      var code := codes[|codes| - 1];
      assert forall i :: 0 <= i < |q| ==> q[i] == codes[i];
      CalculateOverTotals(orderId, calculationId, es, q, rules);
      var a := CalculateOver(orderId, calculationId, es, q, rules).departmentResults;
      var b := ServiceResults(orderId, calculationId, code, OfService(es, code), rules);
      ServiceResultsTotals(orderId, calculationId, code, OfService(es, code), rules);
      TotalAppend(a, b, InternalIncome);
      TotalAppend(a, b, InternalPayment);
      TotalAppend(a, b, ExternalRevenue);
      TotalAppend(a, b, ExternalCost);
      TotalAppend(a, b, DepartmentProfit);
    }
  }

  /**
   * When every rule's ratios add up to one and every service has a rule, the
   * records balance exactly: internal income equals internal payment, the
   * external totals are the order's revenue and cost, and the department
   * profits add up to the order's gross profit.
   */
  lemma CalculationBalances(orderId: string, calculationId: string, es: seq<ExpenseLine>, rules: seq<ProfitRule>)
    requires RatiosMakeWhole(rules) && EveryServiceRuled(es, rules)
    ensures var rs := PerformCalculation(orderId, calculationId, es, rules).departmentResults;
      Total(rs, InternalIncome) == Total(rs, InternalPayment) &&
      Total(rs, ExternalRevenue) == Sum(es, RevenueLine) &&
      Total(rs, ExternalCost) == Sum(es, CostLine) &&
      Total(rs, ExternalRevenue) - Total(rs, ExternalCost) == Total(rs, DepartmentProfit)
  {
    var codes := ServiceCodes(es);
    forall i | 0 <= i < |codes| ensures FindApplicableRule(rules, codes[i]).Some? {
      var j := FirstLineOf(es, codes[i]);
    }
    CalculateOverTotals(orderId, calculationId, es, codes, rules);
    ServicesPartition(es, RevenueLine);
    ServicesPartition(es, CostLine);
  }

  /** Every listed service code is the code of some line. */
  function FirstLineOf(es: seq<ExpenseLine>, code: string): (j: nat)
    requires code in ServiceCodes(es)
    ensures j < |es| && es[j].serviceCode == code
    decreases |es|
  {
    var p := es[..|es| - 1];
    if code in ServiceCodes(p) then
      var j := FirstLineOf(p, code);
      assert es[j] == p[j];
      j
    else |es| - 1
  }

  /** Hence the balance validation of a fresh calculation reports every check as balanced. */
  method ValidateFreshCalculation(orderId: string, calculationId: string, es: seq<ExpenseLine>, rules: seq<ProfitRule>)
    returns (b: BalanceCheck)
    requires RatiosMakeWhole(rules) && EveryServiceRuled(es, rules)
    ensures b.internalBalanced && b.profitBalanced && b.overallBalanced
    ensures b.orderGrossProfit == Sum(es, RevenueLine) - Sum(es, CostLine)
  {
    CalculationBalances(orderId, calculationId, es, rules);
    b := PerformBalanceValidation(PerformCalculation(orderId, calculationId, es, rules).departmentResults);
  }

  // ---------------------------------------------------------------------
  // createProfitSharingSummary
  // ---------------------------------------------------------------------

  /** The summary's money totals (the department and service counts are display figures). */
  datatype ProfitSummary = ProfitSummary(
    orderId: string,
    calculationId: string,
    totalExternalRevenue: real,
    totalExternalCost: real,
    totalInternalFlow: real,
    totalGrossProfit: real)

  /** createProfitSharingSummary: summed external revenue and cost, internal flow as the summed internal payments. */
  function Summary(orderId: string, calculationId: string, c: Calculation): (s: ProfitSummary)
    ensures s.totalExternalRevenue == Total(c.departmentResults, ExternalRevenue)
    ensures s.totalExternalCost == Total(c.departmentResults, ExternalCost)
    ensures s.totalInternalFlow == Total(c.departmentResults, InternalPayment)
    ensures s.totalGrossProfit == c.totalGrossProfit
  {
    ProfitSummary(orderId, calculationId, Total(c.departmentResults, ExternalRevenue),
                  Total(c.departmentResults, ExternalCost), Total(c.departmentResults, InternalPayment),
                  c.totalGrossProfit)
  }

  /** With every service ruled, the summary's external totals reproduce the order's gross profit. */
  lemma SummaryReproducesGross(orderId: string, calculationId: string, es: seq<ExpenseLine>, rules: seq<ProfitRule>)
    requires RatiosMakeWhole(rules) && EveryServiceRuled(es, rules)
    ensures var s := Summary(orderId, calculationId, PerformCalculation(orderId, calculationId, es, rules));
      s.totalExternalRevenue - s.totalExternalCost == s.totalGrossProfit
  {
    CalculationBalances(orderId, calculationId, es, rules);
    TotalGrossIsOrderProfit(orderId, calculationId, es, rules);
  }

  // ---------------------------------------------------------------------
  // The controller's stores
  // ---------------------------------------------------------------------

  /** calculateProfitSharing's answers. */
  datatype CalculationResponse =
    | AlreadyCalculated(calculationId: string)
    | CalculationFailed
    | NoExpenseEntries
    | Calculated(calculationId: string, departmentResults: seq<DepartmentResult>, summary: ProfitSummary)

  /** generateCalculationId, with the formatted wall-clock time as a parameter. */
  function CalculationId(orderId: string, timestamp: string): (id: string)
    ensures IsPrefix("CALC_" + orderId + "_", id)
  {
    "CALC_" + orderId + "_" + timestamp
  }

  /** getExistingCalculationId: the calculation id of the first stored record, none (null) for an empty list. */
  function ExistingCalculationId(rs: seq<DepartmentResult>): (id: Option<string>)
    ensures id.None? <==> rs == []
  {
    if rs == [] then None else Some(rs[0].calculationId)
  }

  class ProfitSharingStore {
    /** departmentProfitSharing: order id to its department records. */
    var departmentProfitSharing: map<string, seq<DepartmentResult>>
    /** profitSharingSummary: order id to its summary. */
    var profitSharingSummary: map<string, ProfitSummary>
    /** profitSharingRules, as initialised. */
    const rules: seq<ProfitRule>

    constructor()
      ensures departmentProfitSharing == map[] && profitSharingSummary == map[] && rules == InitialRules
    {
      departmentProfitSharing := map[];
      profitSharingSummary := map[];
      rules := InitialRules;
    }

    /**
     * calculateProfitSharing. A stored result is returned as it is unless
     * forceRecalculate is set (an empty stored list has a null id, which
     * Map.of rejects, so the request fails); an order without expense lines
     * is refused; otherwise the calculation replaces the stored records and
     * summary. The expense lines and the time stamp are parameters.
     */
    method CalculateProfitSharing(orderId: string, forceRecalculate: bool, timestamp: string, entries: seq<ExpenseLine>)
      returns (resp: CalculationResponse)
      modifies this
      ensures !forceRecalculate && orderId in old(departmentProfitSharing) ==>
                unchanged(this) &&
                resp == (match ExistingCalculationId(old(departmentProfitSharing)[orderId])
                         case Some(id) => AlreadyCalculated(id)
                         case None => CalculationFailed)
      ensures (forceRecalculate || orderId !in old(departmentProfitSharing)) && entries == [] ==>
                unchanged(this) && resp == NoExpenseEntries
      ensures (forceRecalculate || orderId !in old(departmentProfitSharing)) && entries != [] ==>
                var id := CalculationId(orderId, timestamp);
                var c := PerformCalculation(orderId, id, entries, rules);
                resp == Calculated(id, c.departmentResults, Summary(orderId, id, c)) &&
                departmentProfitSharing == old(departmentProfitSharing)[orderId := c.departmentResults] &&
                profitSharingSummary == old(profitSharingSummary)[orderId := Summary(orderId, id, c)]
    {
      if !forceRecalculate && orderId in departmentProfitSharing {
        var existing := ExistingCalculationId(departmentProfitSharing[orderId]);
        resp := if existing.Some? then AlreadyCalculated(existing.value) else CalculationFailed;
        return;
      }
      var id := CalculationId(orderId, timestamp);
      if entries == [] {
        resp := NoExpenseEntries;
        return;
      }
      var c := PerformCalculation(orderId, id, entries, rules);
      var s := Summary(orderId, id, c);
      departmentProfitSharing := departmentProfitSharing[orderId := c.departmentResults];
      profitSharingSummary := profitSharingSummary[orderId := s];
      resp := Calculated(id, c.departmentResults, s);
    }

    /** validateProfitBalance: nothing for an order without records, else the balance check of its records. */
    method ValidateProfitBalance(orderId: string) returns (r: Option<BalanceCheck>)
      ensures r.None? <==> orderId !in departmentProfitSharing || departmentProfitSharing[orderId] == []
      ensures r.Some? ==> orderId in departmentProfitSharing && (r.value.overallBalanced <==>
                Abs(Total(departmentProfitSharing[orderId], InternalIncome) - Total(departmentProfitSharing[orderId], InternalPayment)) < Tolerance &&
                Abs(Total(departmentProfitSharing[orderId], ExternalRevenue) - Total(departmentProfitSharing[orderId], ExternalCost)
                    - Total(departmentProfitSharing[orderId], DepartmentProfit)) < Tolerance)
    {
      if orderId !in departmentProfitSharing || departmentProfitSharing[orderId] == [] {
        return None;
      }
      var b := PerformBalanceValidation(departmentProfitSharing[orderId]);
      r := Some(b);
    }

    /** getProfitSharingResult: the stored records and summary, nothing for an order without records. */
    method GetProfitSharingResult(orderId: string) returns (r: Option<(seq<DepartmentResult>, Option<ProfitSummary>)>)
      ensures r.None? <==> orderId !in departmentProfitSharing || departmentProfitSharing[orderId] == []
      ensures r.Some? ==> r.value.0 == departmentProfitSharing[orderId] &&
                          r.value.1 == (if orderId in profitSharingSummary then Some(profitSharingSummary[orderId]) else None)
    {
      if orderId !in departmentProfitSharing || departmentProfitSharing[orderId] == [] {
        return None;
      }
      var summary := if orderId in profitSharingSummary then Some(profitSharingSummary[orderId]) else None;
      r := Some((departmentProfitSharing[orderId], summary));
    }
  }

  /** With every service ruled, each service yields its two records. */
  lemma {:induction false} CalculateOverLength(orderId: string, calculationId: string, es: seq<ExpenseLine>, codes: seq<string>,
                                               rules: seq<ProfitRule>)
    requires forall i :: 0 <= i < |codes| ==> FindApplicableRule(rules, codes[i]).Some?
    ensures |CalculateOver(orderId, calculationId, es, codes, rules).departmentResults| == 2 * |codes|
    decreases |codes|
  {
    if codes != [] {
      var q := codes[..|codes| - 1];
      assert forall i :: 0 <= i < |q| ==> q[i] == codes[i];
      CalculateOverLength(orderId, calculationId, es, q, rules);
    }
  }

  /**
   * A stored calculation is not recomputed without forceRecalculate: a second
   * request for the order answers with the first calculation's id.
   */
  method RepeatedCalculationIsCached(orderId: string, timestamp1: string, timestamp2: string, entries: seq<ExpenseLine>)
    returns (first: CalculationResponse, second: CalculationResponse)
    requires entries != []
    ensures first.Calculated? && first.calculationId == CalculationId(orderId, timestamp1)
    ensures second == AlreadyCalculated(first.calculationId)
  {
    var store := new ProfitSharingStore();
    first := store.CalculateProfitSharing(orderId, false, timestamp1, entries);
    InitialRulesRuleEverything(entries);
    var codes := ServiceCodes(entries);
    forall i | 0 <= i < |codes| ensures FindApplicableRule(InitialRules, codes[i]).Some? {
      var j := FirstLineOf(entries, codes[i]);
    }
    assert entries[0].serviceCode in codes;
    CalculateOverLength(orderId, CalculationId(orderId, timestamp1), entries, codes, InitialRules);
    second := store.CalculateProfitSharing(orderId, false, timestamp2, entries);
  }
}
