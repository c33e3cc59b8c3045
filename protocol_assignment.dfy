/**
 * ProtocolServiceAssignmentController: matching the internal protocols that
 * govern a service between a sales and an operation department, and ranking
 * the matches (exact service before exact business type before a high
 * commission rate).
 */
module ProtocolAssignment {
  import opened Wrappers
  import opened Sorting

  /** An internal protocol; a missing service code or business type makes it general for that field. */
  datatype Protocol = Protocol(
    protocolId: string,
    salesDepartmentId: string,
    operationDepartmentId: string,
    serviceCode: Option<string>,
    businessType: Option<string>,
    baseCommissionRate: real,
    performanceBonusRate: real,
    active: bool)

  /** getOperationDeptByStaffId: the fixed staff table; an unknown operator is in ocean operations. */
  function OperationDeptByStaffId(staffId: string): (dept: string)
    ensures dept in {"DEPT_OCEAN_01", "DEPT_AIR_01", "DEPT_TRUCK_01", "DEPT_CUSTOMS_01"}
  {
    match staffId
    case "OP001" => "DEPT_OCEAN_01"
    case "OP002" => "DEPT_AIR_01"
    case "OP003" => "DEPT_TRUCK_01"
    case "OP004" => "DEPT_CUSTOMS_01"
    case _ => "DEPT_OCEAN_01"
  }

  lemma UnknownStaffIsOcean(staffId: string)
    requires staffId !in {"OP001", "OP002", "OP003", "OP004"}
    ensures OperationDeptByStaffId(staffId) == "DEPT_OCEAN_01"
  {
  }

  /** A field of the protocol fits the request: either side missing is a wildcard, otherwise they are equal. */
  predicate FieldFits(protocolValue: Option<string>, requested: Option<string>) {
    protocolValue.None? || requested.None? || protocolValue.value == requested.value
  }

  /**
   * isProtocolMatching: the same sales and operation departments, the
   * service code and business type fit, and the protocol is active.
   */
  predicate IsProtocolMatching(p: Protocol, salesDeptId: string, operationDeptId: string,
                               serviceCode: Option<string>, businessType: Option<string>) {
    if salesDeptId != p.salesDepartmentId then false
    else if operationDeptId != p.operationDepartmentId then false
    else if p.serviceCode.Some? && serviceCode.Some? && p.serviceCode.value != serviceCode.value then false
    else if p.businessType.Some? && businessType.Some? && p.businessType.value != businessType.value then false
    else p.active
  }

  /** The match test in one formula: every check has to pass, in any order. */
  lemma MatchingIsConjunction(p: Protocol, salesDeptId: string, operationDeptId: string,
                              serviceCode: Option<string>, businessType: Option<string>)
    ensures IsProtocolMatching(p, salesDeptId, operationDeptId, serviceCode, businessType) <==>
      p.salesDepartmentId == salesDeptId && p.operationDepartmentId == operationDeptId &&
      FieldFits(p.serviceCode, serviceCode) && FieldFits(p.businessType, businessType) && p.active
  {
  }

  /** A general protocol (no service code, no business type) matches every service of its departments while active. */
  lemma GeneralProtocolMatchesAll(p: Protocol, serviceCode: Option<string>, businessType: Option<string>)
    requires p.serviceCode.None? && p.businessType.None? && p.active
    ensures IsProtocolMatching(p, p.salesDepartmentId, p.operationDepartmentId, serviceCode, businessType)
  {
  }

  /** The request names the protocol's own value for the field. */
  predicate ExactField(protocolValue: Option<string>, requested: Option<string>) {
    requested.Some? && protocolValue == Some(requested.value)
  }

  /**
   * calculateProtocolPriority: 3 for the exact service, 2 for the exact
   * business type, 1 for a base commission rate above 8.
   */
  function ProtocolPriority(p: Protocol, serviceCode: Option<string>, businessType: Option<string>): (priority: int)
    ensures 0 <= priority <= 6
    ensures ExactField(p.serviceCode, serviceCode) ==> priority >= 3
    ensures !ExactField(p.serviceCode, serviceCode) ==> priority <= 3
    ensures ExactField(p.businessType, businessType) ==> priority >= 2
  {
    var priority := 0;
    var priority := if serviceCode.Some? && Some(serviceCode.value) == p.serviceCode then priority + 3 else priority;
    var priority := if businessType.Some? && Some(businessType.value) == p.businessType then priority + 2 else priority;
    if p.baseCommissionRate > 8.0 then priority + 1 else priority
  }

  /**
   * Precise before partial before general: a protocol with the exact service
   * is never ranked below one without it. The ranking is not strict: the
   * exact service alone (3) ties with the exact business type and a high
   * rate (2 + 1).
   */
  lemma ExactServiceNeverOutranked(p: Protocol, q: Protocol, serviceCode: Option<string>, businessType: Option<string>)
    requires ExactField(p.serviceCode, serviceCode) && !ExactField(q.serviceCode, serviceCode)
    ensures ProtocolPriority(p, serviceCode, businessType) >= ProtocolPriority(q, serviceCode, businessType)
    ensures ProtocolPriority(p, serviceCode, businessType) == ProtocolPriority(q, serviceCode, businessType) <==>
      !ExactField(p.businessType, businessType) && p.baseCommissionRate <= 8.0 &&
      ExactField(q.businessType, businessType) && q.baseCommissionRate > 8.0
  {
  }

  /** With the service equally exact, an exact business type outranks a high commission rate. */
  lemma ExactBusinessTypeOutranksRate(p: Protocol, q: Protocol, serviceCode: Option<string>, businessType: Option<string>)
    requires ExactField(p.serviceCode, serviceCode) == ExactField(q.serviceCode, serviceCode)
    requires ExactField(p.businessType, businessType) && !ExactField(q.businessType, businessType)
    ensures ProtocolPriority(p, serviceCode, businessType) > ProtocolPriority(q, serviceCode, businessType)
  {
  }

  /** The comparator of findMatchingProtocols: higher priority first (Integer.compare(priority2, priority1)). */
  function ByPriority(serviceCode: Option<string>, businessType: Option<string>): (leq: (Protocol, Protocol) -> bool)
    ensures forall a, b :: leq(a, b) <==> ProtocolPriority(a, serviceCode, businessType) >= ProtocolPriority(b, serviceCode, businessType)
  {
    (a: Protocol, b: Protocol) => ProtocolPriority(a, serviceCode, businessType) >= ProtocolPriority(b, serviceCode, businessType)
  }

  function Matcher(salesDeptId: string, operationDeptId: string, serviceCode: Option<string>, businessType: Option<string>): (m: Protocol -> bool)
    ensures forall p :: m(p) <==> IsProtocolMatching(p, salesDeptId, operationDeptId, serviceCode, businessType)
  {
    (p: Protocol) => IsProtocolMatching(p, salesDeptId, operationDeptId, serviceCode, businessType)
  }

  /** findMatchingProtocols over the given protocols: the matching ones, stably sorted by descending priority. */
  function FindMatchingProtocols(protocols: seq<Protocol>, salesDeptId: string, operationDeptId: string,
                                 serviceCode: Option<string>, businessType: Option<string>): (r: seq<Protocol>)
    ensures multiset(r) == multiset(Filter(protocols, Matcher(salesDeptId, operationDeptId, serviceCode, businessType)))
  {
    SortBy(Filter(protocols, Matcher(salesDeptId, operationDeptId, serviceCode, businessType)), ByPriority(serviceCode, businessType))
  }

  /**
   * The result holds exactly the matching protocols (each one it holds
   * matches, each matching one is there) with non-increasing priority.
   */
  lemma FindMatchingProtocolsCorrect(protocols: seq<Protocol>, salesDeptId: string, operationDeptId: string,
                                     serviceCode: Option<string>, businessType: Option<string>)
    ensures var r := FindMatchingProtocols(protocols, salesDeptId, operationDeptId, serviceCode, businessType);
      (forall p :: p in r <==> p in protocols && IsProtocolMatching(p, salesDeptId, operationDeptId, serviceCode, businessType)) &&
      forall j, k :: 0 <= j < k < |r| ==> ProtocolPriority(r[j], serviceCode, businessType) >= ProtocolPriority(r[k], serviceCode, businessType)
  {
    var m := Matcher(salesDeptId, operationDeptId, serviceCode, businessType);
    var leq := ByPriority(serviceCode, businessType);
    var f := Filter(protocols, m);
    var r := FindMatchingProtocols(protocols, salesDeptId, operationDeptId, serviceCode, businessType);
    assert IsTotalPreorder(leq);
    SortBySorted(f, leq);
    forall p ensures p in r <==> p in protocols && IsProtocolMatching(p, salesDeptId, operationDeptId, serviceCode, businessType) {
      assert p in r <==> p in multiset(r);
      assert p in f <==> p in multiset(f);
    }
    forall j, k | 0 <= j < k < |r| ensures ProtocolPriority(r[j], serviceCode, businessType) >= ProtocolPriority(r[k], serviceCode, businessType) {
      assert leq(r[j], r[k]);
    }
  }

  /** The protocols the controller matches against (createMockProtocolData). */
  function MockProtocols(): (ps: seq<Protocol>)
    ensures |ps| == 4
  {
    [Protocol("PROTO_OCEAN_001", "DEPT_SALES_01", "DEPT_OCEAN_01", Some("BOOKING"), Some("OCEAN"), 8.0, 2.0, true),
     Protocol("PROTO_OCEAN_002", "DEPT_SALES_01", "DEPT_OCEAN_01", Some("MBL_PROCESSING"), Some("OCEAN"), 10.0, 3.0, true),
     Protocol("PROTO_AIR_001", "DEPT_SALES_01", "DEPT_AIR_01", Some("AIR_BOOKING"), Some("AIR"), 9.0, 2.5, true),
     Protocol("PROTO_GENERAL_001", "DEPT_SALES_01", "DEPT_OCEAN_01", None, None, 7.5, 1.5, true)]
  }

  /** The sales department every customer-service user is placed in. */
  const CustomerServiceDeptId: string := "DEPT_SALES_01"

  /** matchProtocols: the matches for the operator's department among the fixed protocols. */
  function MatchProtocols(operationStaffId: string, serviceCode: Option<string>, businessType: Option<string>): (r: seq<Protocol>)
    ensures forall p :: p in r ==>
      (p in MockProtocols() && IsProtocolMatching(p, CustomerServiceDeptId, OperationDeptByStaffId(operationStaffId), serviceCode, businessType))
  {
    FindMatchingProtocolsCorrect(MockProtocols(), CustomerServiceDeptId, OperationDeptByStaffId(operationStaffId), serviceCode, businessType);
    FindMatchingProtocols(MockProtocols(), CustomerServiceDeptId, OperationDeptByStaffId(operationStaffId), serviceCode, businessType)
  }

  lemma OceanBookingFilter()
    ensures Filter(MockProtocols(), Matcher(CustomerServiceDeptId, "DEPT_OCEAN_01", Some("BOOKING"), Some("OCEAN"))) ==
            [MockProtocols()[0], MockProtocols()[3]]
  {
    var ps := MockProtocols();
    var m := Matcher(CustomerServiceDeptId, "DEPT_OCEAN_01", Some("BOOKING"), Some("OCEAN"));
    assert !m(ps[1]) && !m(ps[2]) && m(ps[0]) && m(ps[3]);
    assert ps[1..][1..][1..][1..] == [];
  }

  /** An ocean operator booking ocean freight gets the standard ocean protocol (priority 5) before the general one (0). */
  lemma OceanBookingMatches()
    ensures MatchProtocols("OP001", Some("BOOKING"), Some("OCEAN")) == [MockProtocols()[0], MockProtocols()[3]]
  {
    var ps := MockProtocols();
    OceanBookingFilter();
    var f := [ps[0], ps[3]];
    var leq := ByPriority(Some("BOOKING"), Some("OCEAN"));
    assert ProtocolPriority(ps[0], Some("BOOKING"), Some("OCEAN")) == 5;
    assert ProtocolPriority(ps[3], Some("BOOKING"), Some("OCEAN")) == 0;
    assert f[1..] == [ps[3]];
    assert SortBy(f[1..], leq) == [ps[3]];
    assert SortBy(f, leq) == Insert(ps[0], [ps[3]], leq);
  }

  /** processProtocolConfirmation: CONFIRM confirms the protocol, any other action rejects it. */
  datatype ConfirmationStatus = ProtocolConfirmed | ProtocolRejected

  function ConfirmationOf(action: Option<string>): (s: ConfirmationStatus)
    ensures s == ProtocolConfirmed <==> action == Some("CONFIRM")
  {
    if action == Some("CONFIRM") then ProtocolConfirmed else ProtocolRejected
  }
}
