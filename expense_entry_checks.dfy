/**
 * The fee-code checks of ExpenseEntryController: whether a fee code applies to
 * a service and to a supplier type, the validation verdict built from the
 * two, and the automatic service suggestion for an order.
 */
module ExpenseEntryChecks {
  import opened Wrappers
  import opened Sorting

  /**
   * The services a fee code applies to. The controller holds this table twice,
   * in isServiceCompatible and in getApplicableServices, with the same entries;
   * an unknown fee code applies to no service.
   */
  function ApplicableServices(feeCode: string): (services: seq<string>)
    ensures |services| <= 2
  {
    if feeCode == "FCL001" then ["MBL_PROCESSING", "BOOKING"]
    else if feeCode == "THC001" then ["TERMINAL_HANDLING"]
    else if feeCode == "CUSTOMS001" then ["CUSTOMS_DECLARATION", "CUSTOMS_CLEARANCE"]
    else if feeCode == "TRUCKING001" then ["TRANSPORTATION"]
    else []
  }

  /** The supplier types a fee code applies to; an unknown fee code applies to none. */
  function ApplicableSupplierTypes(feeCode: string): (types: seq<string>)
    ensures |types| <= 1
  {
    if feeCode == "FCL001" then ["SHIPPING_COMPANY"]
    else if feeCode == "THC001" then ["TERMINAL"]
    else if feeCode == "CUSTOMS001" then ["CUSTOMS_BROKER"]
    else if feeCode == "TRUCKING001" then ["TRUCKING_COMPANY"]
    else []
  }

  predicate KnownFeeCode(feeCode: string) {
    feeCode in {"FCL001", "THC001", "CUSTOMS001", "TRUCKING001"}
  }

  /** isServiceCompatible: a missing service code is in no list. */
  predicate IsServiceCompatible(feeCode: string, serviceCode: Option<string>) {
    serviceCode.Some? && serviceCode.value in ApplicableServices(feeCode)
  }

  /** isSupplierCompatible, or a missing supplier type, which performValidation accepts. */
  predicate SupplierAccepted(feeCode: string, supplierType: Option<string>) {
    supplierType.None? || supplierType.value in ApplicableSupplierTypes(feeCode)
  }

  /** An unknown fee code is compatible with no service and no supplier type. */
  lemma UnknownFeeCodeFitsNothing(feeCode: string, serviceCode: Option<string>, supplierType: string)
    requires !KnownFeeCode(feeCode)
    ensures !IsServiceCompatible(feeCode, serviceCode)
    ensures !SupplierAccepted(feeCode, Some(supplierType))
  {
  }

  datatype Verdict = Valid | Error | Warning

  /**
   * performValidation: VALID when the fee code fits the service and the
   * supplier type; ERROR when it does not fit the service; otherwise (the
   * service fits, the supplier type does not) WARNING.
   */
  function PerformValidation(feeCode: string, serviceCode: Option<string>, supplierType: Option<string>): (v: Verdict)
    ensures v == Valid <==> IsServiceCompatible(feeCode, serviceCode) && SupplierAccepted(feeCode, supplierType)
    ensures v == Error <==> !IsServiceCompatible(feeCode, serviceCode)
    ensures v == Warning <==> IsServiceCompatible(feeCode, serviceCode) && supplierType.Some? && !SupplierAccepted(feeCode, supplierType)
  {
    var serviceCompatible := IsServiceCompatible(feeCode, serviceCode);
    var supplierCompatible := SupplierAccepted(feeCode, supplierType);
    if serviceCompatible && supplierCompatible then Valid
    else if !serviceCompatible then Error
    else Warning
  }

  /**
   * validateFeeService: a request without a fee code fails (the immutable
   * compatibility table throws on a null key, answered with code 500);
   * otherwise the verdict of performValidation.
   */
  function ValidateFeeService(feeCode: Option<string>, serviceCode: Option<string>, supplierType: Option<string>): (r: Option<Verdict>)
    ensures r.None? <==> feeCode.None?
    ensures feeCode.Some? ==> r == Some(PerformValidation(feeCode.value, serviceCode, supplierType))
  {
    if feeCode.None? then None else Some(PerformValidation(feeCode.value, serviceCode, supplierType))
  }

  /** A missing supplier type never lowers the verdict: the service alone decides. */
  lemma MissingSupplierTypeDefersToService(feeCode: string, serviceCode: Option<string>)
    ensures PerformValidation(feeCode, serviceCode, None) == (if IsServiceCompatible(feeCode, serviceCode) then Valid else Error)
  {
  }

  /** The services of the order the suggestion is made for (fixed in the controller). */
  const OrderServices: seq<string> := ["MBL_PROCESSING", "BOOKING", "CUSTOMS_DECLARATION"]

  function InOrder(): (p: string -> bool)
    ensures forall s :: p(s) <==> s in OrderServices
  {
    s => s in OrderServices
  }

  /** The fee code's services that the order has, in the fee code's order. */
  function CommonServices(feeCode: string): (common: seq<string>)
    ensures forall s :: s in common <==> s in ApplicableServices(feeCode) && s in OrderServices
  {
    Filter(ApplicableServices(feeCode), InOrder())
  }

  datatype SuggestionReason = UniqueService | SeveralServices | NoService

  datatype Suggestion = Suggestion(canAutoSelect: bool, suggestedService: Option<string>, reason: SuggestionReason)

  /**
   * performServiceSuggestion: the single common service when there is exactly
   * one, no suggestion when there are several or none.
   */
  function PerformServiceSuggestion(feeCode: string): (s: Suggestion)
    ensures s.canAutoSelect <==> |CommonServices(feeCode)| == 1
    ensures s.canAutoSelect ==> s.suggestedService == Some(CommonServices(feeCode)[0]) && s.reason == UniqueService
    ensures !s.canAutoSelect ==> s.suggestedService.None?
    ensures s.reason == NoService <==> CommonServices(feeCode) == []
  {
    var intersection := CommonServices(feeCode);
    if |intersection| == 1 then Suggestion(true, Some(intersection[0]), UniqueService)
    else if |intersection| > 1 then Suggestion(false, None, SeveralServices)
    else Suggestion(false, None, NoService)
  }

  /** The applicable services of a fee code are listed once each. */
  lemma ApplicableServicesDistinct(feeCode: string)
    ensures forall j, k :: 0 <= j < k < |ApplicableServices(feeCode)| ==> ApplicableServices(feeCode)[j] != ApplicableServices(feeCode)[k]
  {
  }

  /**
   * A suggested service is one the fee code applies to and the order has, and
   * it is the only such service; without a suggestion there is no common
   * service or there are two different ones.
   */
  lemma {:induction false} SuggestionIsTheOnlyCommonService(feeCode: string)
    ensures var s := PerformServiceSuggestion(feeCode);
      s.canAutoSelect ==>
        s.suggestedService.value in ApplicableServices(feeCode) && s.suggestedService.value in OrderServices &&
        forall x :: x in ApplicableServices(feeCode) && x in OrderServices ==> x == s.suggestedService.value
    ensures var s := PerformServiceSuggestion(feeCode);
      !s.canAutoSelect ==>
        (forall x :: x in ApplicableServices(feeCode) ==> x !in OrderServices) ||
        exists x, y :: x != y && x in ApplicableServices(feeCode) && x in OrderServices && y in ApplicableServices(feeCode) && y in OrderServices
  {
    var common := CommonServices(feeCode);
    var s := PerformServiceSuggestion(feeCode);
    ApplicableServicesDistinct(feeCode);
    if s.canAutoSelect {
      assert common[0] in common;
      forall x | x in ApplicableServices(feeCode) && x in OrderServices ensures x == s.suggestedService.value {
        assert x in common;
      }
    } else if |common| > 1 {
      CommonServicesTable(feeCode);
      assert common[0] in common && common[1] in common;
    }
  }

  /** The common services of every fee code: two for FCL001, one for CUSTOMS001, none for the others. */
  lemma CommonServicesTable(feeCode: string)
    ensures CommonServices(feeCode) ==
      if feeCode == "FCL001" then ["MBL_PROCESSING", "BOOKING"]
      else if feeCode == "CUSTOMS001" then ["CUSTOMS_DECLARATION"]
      else []
  {
    var a := ApplicableServices(feeCode);
    if feeCode == "FCL001" {
      assert a[1..][1..] == [];
      assert Filter(a, InOrder()) == [a[0]] + Filter(a[1..], InOrder());
    } else if feeCode == "CUSTOMS001" {
      assert a[1..][1..] == [];
      assert "CUSTOMS_CLEARANCE" !in OrderServices;
      assert Filter(a[1..], InOrder()) == Filter(a[1..][1..], InOrder());
      assert Filter(a, InOrder()) == [a[0]] + Filter(a[1..], InOrder());
    } else if feeCode == "THC001" {
      assert "TERMINAL_HANDLING" !in OrderServices;
    } else if feeCode == "TRUCKING001" {
      assert "TRANSPORTATION" !in OrderServices;
    }
  }

  /** The table as the controller holds it: FCL001 fits two of the order's services, CUSTOMS001 one, THC001 none. */
  lemma SuggestionExamples()
    ensures PerformServiceSuggestion("FCL001").reason == SeveralServices
    ensures PerformServiceSuggestion("CUSTOMS001") == Suggestion(true, Some("CUSTOMS_DECLARATION"), UniqueService)
    ensures PerformServiceSuggestion("THC001").reason == NoService
  {
    CommonServicesTable("FCL001");
    CommonServicesTable("CUSTOMS001");
    CommonServicesTable("THC001");
  }
}
