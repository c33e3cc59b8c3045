/**
 * The dispatch page (service-assignment.js): the services of the current
 * order are handed to operators, automatically by specialty and workload, and
 * can be put back to pending. The page's global lists of services and
 * operators are the fields of a board; the protocol manager, when the page
 * has one, is the list of protocols it holds, and the clock is a parameter.
 */
module ServiceAssignment {
  import opened Wrappers
  import opened Sorting
  import opened ProtocolManagement

  datatype Operator = Operator(
    operatorId: string,
    department: string,
    currentOrderCount: int,
    workloadPercentage: int,
    specialties: seq<string>)

  datatype Service = Service(
    serviceCode: string,
    status: string,
    assignedTo: Option<string>,
    assignedTime: Option<int>,
    assignedProtocol: Option<string>)

  // ---------------------------------------------------------------------
  // Choosing an operator
  // ---------------------------------------------------------------------

  /**
   * The first eligible operator of least workload: what a stable sort of the
   * eligible operators by ascending workload puts first.
   */
  function FirstLowest(operators: seq<Operator>, eligible: Operator -> bool): (r: Option<nat>)
    ensures r.None? <==> forall j :: 0 <= j < |operators| ==> !eligible(operators[j])
    ensures r.Some? ==> r.value < |operators| && eligible(operators[r.value])
    ensures r.Some? ==> forall j :: 0 <= j < |operators| && eligible(operators[j]) ==>
      operators[r.value].workloadPercentage <= operators[j].workloadPercentage
    ensures r.Some? ==> forall j :: 0 <= j < r.value && eligible(operators[j]) ==>
      operators[j].workloadPercentage > operators[r.value].workloadPercentage
  {
    if operators == [] then None
    else
      var rest := FirstLowest(operators[1..], eligible);
      assert forall j :: 1 <= j < |operators| ==> operators[j] == operators[1..][j - 1];
      if !eligible(operators[0]) then
        (if rest.None? then None else Some(rest.value + 1))
      else if rest.None? || operators[0].workloadPercentage <= operators[rest.value + 1].workloadPercentage then Some(0)
      else Some(rest.value + 1)
  }

  function HasSpecialty(serviceCode: string): (f: Operator -> bool)
    ensures forall op :: f(op) <==> serviceCode in op.specialties
  {
    (op: Operator) => serviceCode in op.specialties
  }

  function Anyone(): (f: Operator -> bool)
    ensures forall op :: f(op)
  {
    (op: Operator) => true
  }

  /** Why an operator was chosen: a specialty match, or load balancing when no one has the specialty. */
  datatype Reason = SpecialtyMatch | LoadBalancing

  datatype Selection = Selection(index: nat, reason: Reason)

  /**
   * The operator autoAssignAll picks for a service: the least loaded of those
   * with the service as a specialty, else the least loaded of all, the first
   * one on a tie; nobody when there are no operators.
   */
  function PickOperator(operators: seq<Operator>, serviceCode: string): (s: Option<Selection>)
    ensures s.None? <==> operators == []
    ensures s.Some? ==> s.value.index < |operators|
    ensures s.Some? && s.value.reason == SpecialtyMatch ==>
      serviceCode in operators[s.value.index].specialties &&
      forall j :: 0 <= j < |operators| && serviceCode in operators[j].specialties ==>
        operators[s.value.index].workloadPercentage <= operators[j].workloadPercentage
    ensures s.Some? && s.value.reason == LoadBalancing ==>
      (forall j :: 0 <= j < |operators| ==> serviceCode !in operators[j].specialties) &&
      forall j :: 0 <= j < |operators| ==> operators[s.value.index].workloadPercentage <= operators[j].workloadPercentage
    ensures s.Some? ==> forall j :: 0 <= j < s.value.index && (s.value.reason == LoadBalancing || serviceCode in operators[j].specialties) ==>
      operators[j].workloadPercentage > operators[s.value.index].workloadPercentage
  {
    match FirstLowest(operators, HasSpecialty(serviceCode))
    case Some(i) => Some(Selection(i, SpecialtyMatch))
    case None =>
      match FirstLowest(operators, Anyone())
      case Some(i) => Some(Selection(i, LoadBalancing))
      case None => None
  }

  /** A specialist is always preferred: the reason is a specialty match exactly when someone has the specialty. */
  lemma SpecialistPreferred(operators: seq<Operator>, serviceCode: string)
    requires operators != []
    ensures PickOperator(operators, serviceCode).value.reason == SpecialtyMatch <==>
      exists j :: 0 <= j < |operators| && serviceCode in operators[j].specialties
  {
  }

  // ---------------------------------------------------------------------
  // Choosing a protocol
  // ---------------------------------------------------------------------

  /**
   * The protocol attached, when the page has a protocol manager: the first
   * recommended matching protocol, else the first matching one; none when
   * nothing matches or there is no manager.
   */
  function ChosenProtocol(manager: Option<seq<Protocol>>, department: string, serviceCode: string, now: int): (p: Option<Protocol>)
    ensures p.Some? ==> manager.Some? && p.value in GetMatchingProtocols(manager.value, department, serviceCode, now)
    ensures manager.Some? && GetMatchingProtocols(manager.value, department, serviceCode, now) != [] ==> p.Some?
  {
    if manager.None? then None
    else
      var matching := GetMatchingProtocols(manager.value, department, serviceCode, now);
      if matching == [] then None
      else
        match FirstRecommended(matching)
        case Some(k) => Some(matching[k])
        case None => Some(matching[0])
  }

  /** The position Array.prototype.find(p => p.recommended) gives. */
  function FirstRecommended(ps: seq<Protocol>): (k: Option<nat>)
    ensures k.Some? ==> k.value < |ps| && ps[k.value].recommended
    ensures k.Some? ==> forall j :: 0 <= j < k.value ==> !ps[j].recommended
    ensures k.None? ==> forall j :: 0 <= j < |ps| ==> !ps[j].recommended
  {
    if ps == [] then None
    else if ps[0].recommended then Some(0)
    else
      match FirstRecommended(ps[1..])
      case None => None
      case Some(k) => Some(k + 1)
  }

  /**
   * Because the matching protocols already stand recommended first, the
   * search for a recommended one always lands on the first: the protocol
   * chosen is the best match.
   */
  lemma ChosenProtocolIsFirstMatch(protocols: seq<Protocol>, department: string, serviceCode: string, now: int)
    requires GetMatchingProtocols(protocols, department, serviceCode, now) != []
    ensures ChosenProtocol(Some(protocols), department, serviceCode, now) ==
      Some(GetMatchingProtocols(protocols, department, serviceCode, now)[0])
  {
    var matching := GetMatchingProtocols(protocols, department, serviceCode, now);
    GetMatchingProtocolsCorrect(protocols, department, serviceCode, now);
  }

  /** The id of the protocol an assignment records, if any. */
  function ChosenProtocolId(manager: Option<seq<Protocol>>, department: string, serviceCode: string, now: int): (id: Option<string>)
    ensures id.Some? <==> ChosenProtocol(manager, department, serviceCode, now).Some?
    ensures id.Some? ==> id.value == ChosenProtocol(manager, department, serviceCode, now).value.protocolId
  {
    var protocol := ChosenProtocol(manager, department, serviceCode, now);
    if protocol.Some? then Some(protocol.value.protocolId) else None
  }

  // ---------------------------------------------------------------------
  // One assignment
  // ---------------------------------------------------------------------

  /** The service once handed to an operator under a protocol (or none) at the given time. */
  function AssignedService(service: Service, operatorId: string, protocolId: Option<string>, now: int): (s: Service)
    ensures s.serviceCode == service.serviceCode && s.status == "ASSIGNED"
    ensures s.assignedTo == Some(operatorId) && s.assignedTime == Some(now) && s.assignedProtocol == protocolId
  {
    Service(service.serviceCode, "ASSIGNED", Some(operatorId), Some(now), protocolId)
  }

  /** The operator after taking one more service: one more order, ten points more workload, at most 90. */
  function Loaded(op: Operator): (r: Operator)
    ensures r.operatorId == op.operatorId && r.department == op.department && r.specialties == op.specialties
    ensures r.currentOrderCount == op.currentOrderCount + 1
    ensures r.workloadPercentage <= 90
    ensures op.workloadPercentage <= 80 ==> r.workloadPercentage == op.workloadPercentage + 10
    ensures op.workloadPercentage >= 80 ==> r.workloadPercentage == 90
  {
    op.(currentOrderCount := op.currentOrderCount + 1,
        workloadPercentage := if op.workloadPercentage + 10 < 90 then op.workloadPercentage + 10 else 90)
  }

  datatype AssignmentResult =
    | Succeeded(serviceCode: string, operatorId: string, protocolId: Option<string>, reason: Reason)
    | NoOperator(serviceCode: string)

  /** The board between two steps of autoAssignAll, with the results and counts so far. */
  datatype Run = Run(services: seq<Service>, operators: seq<Operator>, results: seq<AssignmentResult>,
                     successCount: nat, failedCount: nat)

  /** The body of the loop for the service at index i. */
  function AssignStep(r: Run, i: nat, manager: Option<seq<Protocol>>, now: int): (next: Run)
    requires i < |r.services|
    ensures |next.services| == |r.services| && |next.operators| == |r.operators|
    ensures |next.results| == |r.results| + 1 && next.results[..|r.results|] == r.results
    ensures next.successCount + next.failedCount == r.successCount + r.failedCount + 1
    ensures forall j :: 0 <= j < |r.services| && j != i ==> next.services[j] == r.services[j]
    ensures r.operators == [] <==> next.failedCount == r.failedCount + 1
    ensures r.operators == [] ==> next.services == r.services && next.operators == r.operators
    ensures r.operators != [] ==> next.services[i].status == "ASSIGNED"
  {
    var code := r.services[i].serviceCode;
    match PickOperator(r.operators, code)
    case None =>
      Run(r.services, r.operators, r.results + [NoOperator(code)], r.successCount, r.failedCount + 1)
    case Some(sel) =>
      var op := r.operators[sel.index];
      var protocolId := ChosenProtocolId(manager, op.department, code, now);
      Run(r.services[i := AssignedService(r.services[i], op.operatorId, protocolId, now)],
          r.operators[sel.index := Loaded(op)],
          r.results + [Succeeded(code, op.operatorId, protocolId, sel.reason)],
          r.successCount + 1, r.failedCount)
  }

  /** The positions of the pending services, in order. */
  function PendingIndexes(services: seq<Service>): (ks: seq<nat>)
    ensures forall k :: 0 <= k < |ks| ==> ks[k] < |services| && services[ks[k]].status == "PENDING"
    ensures forall j :: 0 <= j < |services| && services[j].status == "PENDING" ==> j in ks
    ensures forall k, l :: 0 <= k < l < |ks| ==> ks[k] < ks[l]
  {
    if services == [] then []
    else
      var init := PendingIndexes(services[..|services| - 1]);
      assert forall j :: 0 <= j < |services| - 1 ==> services[..|services| - 1][j] == services[j];
      init + (if services[|services| - 1].status == "PENDING" then [|services| - 1] else [])
  }

  predicate IndexesBelow(ks: seq<nat>, n: nat) {
    forall k :: 0 <= k < |ks| ==> ks[k] < n
  }

  /** The loop of autoAssignAll over the pending positions ks, from the board r. */
  function AssignAll(r: Run, ks: seq<nat>, manager: Option<seq<Protocol>>, now: int): (out: Run)
    requires IndexesBelow(ks, |r.services|)
    ensures |out.services| == |r.services| && |out.operators| == |r.operators|
    ensures |out.results| == |r.results| + |ks| && out.results[..|r.results|] == r.results
    ensures out.successCount + out.failedCount == r.successCount + r.failedCount + |ks|
    decreases |ks|
  {
    if ks == [] then r
    else
      var before := AssignAll(r, ks[..|ks| - 1], manager, now);
      var next := AssignStep(before, ks[|ks| - 1], manager, now);
      assert next.results[..|r.results|] == before.results[..|before.results|][..|r.results|];
      next
  }

  /** The start of autoAssignAll: no results and both counters at zero. */
  function Start(services: seq<Service>, operators: seq<Operator>): Run {
    Run(services, operators, [], 0, 0)
  }

  // ---------------------------------------------------------------------
  // What autoAssignAll achieves
  // ---------------------------------------------------------------------

  /** Every pending service gets one result, counted once as a success or a failure. */
  lemma CountsAddUp(services: seq<Service>, operators: seq<Operator>, manager: Option<seq<Protocol>>, now: int)
    ensures var ks := PendingIndexes(services);
      var out := AssignAll(Start(services, operators), ks, manager, now);
      |out.results| == |ks| && out.successCount + out.failedCount == |ks|
  {
  }

  /** Positions outside ks are left as they are. */
  lemma {:induction false} AssignAllFrame(r: Run, ks: seq<nat>, manager: Option<seq<Protocol>>, now: int)
    requires IndexesBelow(ks, |r.services|)
    ensures forall j :: 0 <= j < |r.services| && j !in ks ==> AssignAll(r, ks, manager, now).services[j] == r.services[j]
    decreases |ks|
  {
    if ks != [] {
      var init := ks[..|ks| - 1];
      assert forall k :: 0 <= k < |init| ==> init[k] == ks[k];
      AssignAllFrame(r, init, manager, now);
      var before := AssignAll(r, init, manager, now);
      assert AssignAll(r, ks, manager, now) == AssignStep(before, ks[|ks| - 1], manager, now);
      assert forall j :: j !in ks ==> j !in init && j != ks[|ks| - 1];
    }
  }

  /** With no operators every step fails and nothing else changes. */
  lemma {:induction false} AssignAllWithoutOperators(r: Run, ks: seq<nat>, manager: Option<seq<Protocol>>, now: int)
    requires IndexesBelow(ks, |r.services|)
    requires r.operators == []
    ensures var out := AssignAll(r, ks, manager, now);
      out.failedCount == r.failedCount + |ks| && out.services == r.services && out.operators == r.operators
    decreases |ks|
  {
    if ks != [] {
      var init := ks[..|ks| - 1];
      assert IndexesBelow(init, |r.services|) by {
        assert forall k :: 0 <= k < |init| ==> init[k] == ks[k];
      }
      AssignAllWithoutOperators(r, init, manager, now);
      var before := AssignAll(r, init, manager, now);
      assert AssignAll(r, ks, manager, now) == AssignStep(before, ks[|ks| - 1], manager, now);
    }
  }

  /** With operators no step fails and the operators stay. */
  lemma {:induction false} AssignAllWithOperators(r: Run, ks: seq<nat>, manager: Option<seq<Protocol>>, now: int)
    requires IndexesBelow(ks, |r.services|)
    requires r.operators != []
    ensures var out := AssignAll(r, ks, manager, now);
      out.operators != [] && out.failedCount == r.failedCount
    decreases |ks|
  {
    if ks != [] {
      var init := ks[..|ks| - 1];
      assert IndexesBelow(init, |r.services|) by {
        assert forall k :: 0 <= k < |init| ==> init[k] == ks[k];
      }
      AssignAllWithOperators(r, init, manager, now);
      var before := AssignAll(r, init, manager, now);
      assert AssignAll(r, ks, manager, now) == AssignStep(before, ks[|ks| - 1], manager, now);
    }
  }

  /** One more pending position is one more step. */
  lemma AssignAllSnoc(r: Run, ks: seq<nat>, k: nat, manager: Option<seq<Protocol>>, now: int)
    requires IndexesBelow(ks, |r.services|) && k < |ks|
    ensures IndexesBelow(ks[..k], |r.services|) && IndexesBelow(ks[..k + 1], |r.services|)
    ensures AssignAll(r, ks[..k + 1], manager, now) ==
      AssignStep(AssignAll(r, ks[..k], manager, now), ks[k], manager, now)
  {
    assert ks[..k + 1][..k] == ks[..k];
    assert forall j :: 0 <= j < k + 1 ==> ks[..k + 1][j] == ks[j];
  }

  predicate AssignedAt(services: seq<Service>, ks: seq<nat>)
    requires IndexesBelow(ks, |services|)
  {
    forall k :: 0 <= k < |ks| ==> services[ks[k]].status == "ASSIGNED"
  }

  /**
   * With at least one operator every pending position ends ASSIGNED: a step
   * assigns its own position and the later steps, at other positions, leave it
   * alone.
   */
  lemma {:induction false} AssignAllAssigns(r: Run, ks: seq<nat>, manager: Option<seq<Protocol>>, now: int)
    requires IndexesBelow(ks, |r.services|)
    requires forall k, l :: 0 <= k < l < |ks| ==> ks[k] < ks[l]
    requires r.operators != []
    ensures AssignedAt(AssignAll(r, ks, manager, now).services, ks)
    decreases |ks|
  {
    if ks != [] {
      var init := ks[..|ks| - 1];
      var last := ks[|ks| - 1];
      assert forall k :: 0 <= k < |init| ==> init[k] == ks[k];
      AssignAllAssigns(r, init, manager, now);
      AssignAllWithOperators(r, init, manager, now);
      var before := AssignAll(r, init, manager, now);
      assert AssignAll(r, ks, manager, now) == AssignStep(before, last, manager, now);
      LastSplit(ks);
      StepKeepsAssigned(before, init, last, manager, now);
    }
  }

  lemma LastSplit(ks: seq<nat>)
    requires ks != []
    ensures ks == ks[..|ks| - 1] + [ks[|ks| - 1]]
  {
  }

  /** A step with operators assigns its own position and keeps the earlier ones assigned. */
  lemma StepKeepsAssigned(before: Run, init: seq<nat>, last: nat, manager: Option<seq<Protocol>>, now: int)
    requires IndexesBelow(init, |before.services|) && last < |before.services| && last !in init
    requires before.operators != [] && AssignedAt(before.services, init)
    ensures IndexesBelow(init + [last], |before.services|)
    ensures AssignedAt(AssignStep(before, last, manager, now).services, init + [last])
  {
    var out := AssignStep(before, last, manager, now);
    var ks := init + [last];
    forall k | 0 <= k < |ks| ensures out.services[ks[k]].status == "ASSIGNED" {
      if k < |init| {
        assert ks[k] == init[k] && init[k] != last;
      }
    }
  }

  /** On a board with operators autoAssignAll counts every pending service as a success. */
  lemma AutoAssignCounts(services: seq<Service>, operators: seq<Operator>, manager: Option<seq<Protocol>>, now: int)
    requires operators != []
    ensures var out := AssignAll(Start(services, operators), PendingIndexes(services), manager, now);
      out.failedCount == 0 && out.successCount == |PendingIndexes(services)|
  {
    AssignAllWithOperators(Start(services, operators), PendingIndexes(services), manager, now);
  }

  /** On a board with operators autoAssignAll leaves every pending service ASSIGNED. */
  lemma AutoAssignAssignsPending(services: seq<Service>, operators: seq<Operator>, manager: Option<seq<Protocol>>, now: int)
    requires operators != []
    ensures var out := AssignAll(Start(services, operators), PendingIndexes(services), manager, now);
      forall j :: 0 <= j < |services| && services[j].status == "PENDING" ==> out.services[j].status == "ASSIGNED"
  {
    var ks := PendingIndexes(services);
    var out := AssignAll(Start(services, operators), ks, manager, now);
    AssignAllAssigns(Start(services, operators), ks, manager, now);
    forall j | 0 <= j < |services| && services[j].status == "PENDING" ensures out.services[j].status == "ASSIGNED" {
      var k :| 0 <= k < |ks| && ks[k] == j;
      assert out.services[ks[k]].status == "ASSIGNED";
    }
  }

  /** autoAssignAll leaves every service that was not pending as it was. */
  lemma AutoAssignKeepsOthers(services: seq<Service>, operators: seq<Operator>, manager: Option<seq<Protocol>>, now: int)
    ensures var out := AssignAll(Start(services, operators), PendingIndexes(services), manager, now);
      forall j :: 0 <= j < |services| && services[j].status != "PENDING" ==> out.services[j] == services[j]
  {
    AssignAllFrame(Start(services, operators), PendingIndexes(services), manager, now);
  }

  /** Without operators every pending service fails and nothing changes. */
  lemma AutoAssignWithoutOperators(services: seq<Service>, manager: Option<seq<Protocol>>, now: int)
    ensures var ks := PendingIndexes(services);
      var out := AssignAll(Start(services, []), ks, manager, now);
      out.failedCount == |ks| && out.successCount == 0 && out.services == services
  {
    AssignAllWithoutOperators(Start(services, []), PendingIndexes(services), manager, now);
  }

  /** No operator's workload goes above 90 once it has taken a service, and the others keep theirs. */
  lemma StepWorkloadCapped(r: Run, i: nat, manager: Option<seq<Protocol>>, now: int)
    requires i < |r.services|
    ensures var next := AssignStep(r, i, manager, now);
      forall j :: 0 <= j < |r.operators| ==>
        next.operators[j] == r.operators[j] ||
        (next.operators[j] == Loaded(r.operators[j]) && next.operators[j].workloadPercentage <= 90)
  {
  }

  // ---------------------------------------------------------------------
  // The page state
  // ---------------------------------------------------------------------

  datatype HistoryRecord = HistoryRecord(assignmentTime: int, orderId: string, successCount: nat, failedCount: nat,
                                         results: seq<AssignmentResult>)

  datatype AutoAssignResponse =
    | NoOrderSelected
    | NothingPending
    | Completed(successCount: nat, failedCount: nat)

  /** The fallback protocols used when the page has no protocol manager. */
  function FallbackProtocolList(): (ps: seq<Protocol>)
    ensures |ps| == 2
  {
    [Protocol("PROTO001", "MBL_PROCESSING", ["海运操作"], 20.0, true, "ACTIVE", None, None, 0),
     Protocol("PROTO006", "CUSTOMS_CLEARANCE", ["海运操作", "空运操作", "西区操作"], 18.0, true, "ACTIVE", None, None, 0)]
  }

  /** getFallbackProtocols: the fallback protocols that list the operator's department and cover the service or ALL. */
  function GetFallbackProtocols(op: Operator, serviceCode: string): (ps: seq<Protocol>)
    ensures forall p :: p in ps <==>
      (p in FallbackProtocolList() && op.department in p.applicableDepartments &&
       (p.serviceCode == serviceCode || p.serviceCode == "ALL"))
  {
    Filter(FallbackProtocolList(), Fits(op.department, serviceCode))
  }

  /** Customs clearance falls back to PROTO006 in every operations department; MBL processing only in ocean operations. */
  lemma FallbackExamples(op: Operator)
    ensures op.department in ["海运操作", "空运操作", "西区操作"] ==>
      GetFallbackProtocols(op, "CUSTOMS_CLEARANCE") == [FallbackProtocolList()[1]]
    ensures op.department == "空运操作" ==> GetFallbackProtocols(op, "MBL_PROCESSING") == []
  {
    var ps := FallbackProtocolList();
    assert ps[1..][1..] == [];
    if op.department in ["海运操作", "空运操作", "西区操作"] {
      var f := Fits(op.department, "CUSTOMS_CLEARANCE");
      assert !f(ps[0]) && f(ps[1]);
      assert Filter(ps, f) == Filter(ps[1..], f);
    }
    if op.department == "空运操作" {
      var g := Fits(op.department, "MBL_PROCESSING");
      assert !g(ps[0]) && !g(ps[1]);
      assert Filter(ps, g) == Filter(ps[1..], g);
    }
  }

  /** The services of the current order, the operators on the page and the dispatch history. */
  class AssignmentBoard {
    var services: seq<Service>
    var operators: seq<Operator>
    var history: seq<HistoryRecord>

    constructor(services: seq<Service>, operators: seq<Operator>)
      ensures this.services == services && this.operators == operators && history == []
    {
      this.services := services;
      this.operators := operators;
      history := [];
    }

    /**
     * autoAssignAll: refused without a current order (none or empty) or without pending
     * services; otherwise every pending service, in order, is handed to the
     * operator PickOperator names on the board as it stands, and a history
     * record is put in front.
     */
    method AutoAssignAll(currentOrderId: Option<string>, manager: Option<seq<Protocol>>, now: int)
      returns (response: AutoAssignResponse)
      modifies this
      ensures (currentOrderId.None? || currentOrderId.value == "") ==> response == NoOrderSelected && unchanged(this)
      ensures currentOrderId.Some? && currentOrderId.value != "" && PendingIndexes(old(services)) == [] ==>
        response == NothingPending && unchanged(this)
      ensures currentOrderId.Some? && currentOrderId.value != "" && PendingIndexes(old(services)) != [] ==>
        var out := AssignAll(Start(old(services), old(operators)), PendingIndexes(old(services)), manager, now);
        response == Completed(out.successCount, out.failedCount) &&
        services == out.services && operators == out.operators &&
        history == [HistoryRecord(now, currentOrderId.value, out.successCount, out.failedCount, out.results)] + old(history)
    {
      if currentOrderId.None? || currentOrderId.value == "" {
        return NoOrderSelected;
      }
      var pending := PendingIndexes(services);
      if pending == [] {
        return NothingPending;
      }
      var out := AssignPending(services, operators, pending, manager, now);
      services, operators := out.services, out.operators;
      history := [HistoryRecord(now, currentOrderId.value, out.successCount, out.failedCount, out.results)] + history;
      response := Completed(out.successCount, out.failedCount);
    }

    /**
     * reassignService: the first service with the code goes back to PENDING
     * with no operator, time or protocol; an unknown code changes nothing.
     */
    method ReassignService(serviceCode: string) returns (found: bool)
      modifies this
      ensures operators == old(operators) && history == old(history)
      ensures found <==> exists j :: 0 <= j < |old(services)| && old(services)[j].serviceCode == serviceCode
      ensures !found ==> services == old(services)
      ensures found ==>
        var j := FirstWithCode(old(services), serviceCode);
        services == old(services)[j := Service(serviceCode, "PENDING", None, None, None)]
    {
      found := exists j :: 0 <= j < |services| && services[j].serviceCode == serviceCode;
      if found {
        var j := FirstWithCode(services, serviceCode);
        services := services[j := Service(serviceCode, "PENDING", None, None, None)];
      }
    }
  }

  /** The loop of autoAssignAll over the pending positions, one AssignOne per position in order. */
  method AssignPending(services: seq<Service>, operators: seq<Operator>, pending: seq<nat>,
                       manager: Option<seq<Protocol>>, now: int) returns (out: Run)
    requires IndexesBelow(pending, |services|)
    ensures out == AssignAll(Start(services, operators), pending, manager, now)
  {
    var start := Start(services, operators);
    var services', operators' := services, operators;
    var results: seq<AssignmentResult> := [];
    var successCount, failedCount := 0, 0;
    var k := 0;
    while k < |pending|
      invariant 0 <= k <= |pending|
      invariant IndexesBelow(pending[..k], |services|)
      invariant Run(services', operators', results, successCount, failedCount) == AssignAll(start, pending[..k], manager, now)
    {
      AssignAllSnoc(start, pending, k, manager, now);
      services', operators', results, successCount, failedCount :=
        AssignOne(services', operators', results, successCount, failedCount, pending[k], manager, now);
      k := k + 1;
    }
    assert pending[..|pending|] == pending;
    out := Run(services', operators', results, successCount, failedCount);
  }

  /** The body of the loop of autoAssignAll, on the page state it updates: the step AssignStep describes. */
  method AssignOne(services: seq<Service>, operators: seq<Operator>, results: seq<AssignmentResult>,
                   successCount: nat, failedCount: nat, i: nat, manager: Option<seq<Protocol>>, now: int)
    returns (services': seq<Service>, operators': seq<Operator>, results': seq<AssignmentResult>,
             successCount': nat, failedCount': nat)
    requires i < |services|
    ensures Run(services', operators', results', successCount', failedCount') ==
      AssignStep(Run(services, operators, results, successCount, failedCount), i, manager, now)
  {
    var code := services[i].serviceCode;
    var selection := PickOperator(operators, code);
    if selection.Some? {
      var op := operators[selection.value.index];
      var protocolId := ChosenProtocolId(manager, op.department, code, now);
      services' := services[i := AssignedService(services[i], op.operatorId, protocolId, now)];
      operators' := operators[selection.value.index := Loaded(op)];
      results' := results + [Succeeded(code, op.operatorId, protocolId, selection.value.reason)];
      successCount', failedCount' := successCount + 1, failedCount;
    } else {
      services', operators' := services, operators;
      results' := results + [NoOperator(code)];
      successCount', failedCount' := successCount, failedCount + 1;
    }
  }

  /** The first position of a service with the code, as Array.prototype.find sees it. */
  function FirstWithCode(services: seq<Service>, serviceCode: string): (j: nat)
    requires exists j :: 0 <= j < |services| && services[j].serviceCode == serviceCode
    ensures j < |services| && services[j].serviceCode == serviceCode
    ensures forall k :: 0 <= k < j ==> services[k].serviceCode != serviceCode
  {
    if services[0].serviceCode == serviceCode then 0
    else
      assert exists j :: 0 <= j < |services[1..]| && services[1..][j].serviceCode == serviceCode by {
        var j :| 0 <= j < |services| && services[j].serviceCode == serviceCode;
        assert services[1..][j - 1] == services[j];
      }
      FirstWithCode(services[1..], serviceCode) + 1
  }

  /** Reassigning undoes an assignment: the service is pending again exactly as before it was assigned. */
  lemma ReassignUndoesAssignment(service: Service, operatorId: string, protocolId: Option<string>, now: int)
    requires service.status == "PENDING" && service.assignedTo.None? && service.assignedTime.None? && service.assignedProtocol.None?
    ensures Service(AssignedService(service, operatorId, protocolId, now).serviceCode, "PENDING", None, None, None) == service
  {
  }

  /** A reassigned service is pending again, so the next automatic round takes it up. */
  lemma ReassignedIsPending(services: seq<Service>, j: nat, serviceCode: string)
    requires j < |services|
    ensures var s := services[j := Service(serviceCode, "PENDING", None, None, None)];
      j in PendingIndexes(s)
  {
  }
}
