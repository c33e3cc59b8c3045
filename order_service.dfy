/**
 * The service task of an order (entity OrderService): a stateful object whose
 * business methods move it through its lifecycle and stamp each stage.
 * The wall clock is the parameter `now`.
 */
module OrderServices {
  import opened Wrappers

  type Time = int

  datatype ServiceStatus = Pending | Assigned | ProtocolConfirmed | InProgress | Completed | Blocked

  datatype Priority = Low | Normal | High | Urgent

  /** The IllegalStateException each guarded transition throws. */
  datatype LifecycleError = NotPending | NotAssigned | NotProtocolConfirmed | NotInProgress

  /** isProtocolConfirmed(): the protocol stage has been passed. */
  predicate IsProtocolConfirmed(s: ServiceStatus) {
    s == ProtocolConfirmed || s == InProgress || s == Completed
  }

  /** Position on the forward path PENDING, ASSIGNED, PROTOCOL_CONFIRMED, IN_PROGRESS, COMPLETED. */
  function Stage(s: ServiceStatus): (n: nat)
    ensures n <= 4
  {
    match s
    case Pending => 0
    case Assigned => 1
    case ProtocolConfirmed => 2
    case InProgress => 3
    case Completed => 4
    case Blocked => 0
  }

  /** isProtocolConfirmed holds exactly on the forward path from PROTOCOL_CONFIRMED on. */
  lemma ProtocolConfirmedIsLateStage(s: ServiceStatus)
    ensures IsProtocolConfirmed(s) <==> (s != Blocked && Stage(s) >= 2)
  {
  }

  /** The text block() writes to remarks: earlier remarks, "; ", then the reason (a null reason prints as "null"). */
  function BlockedRemarks(remarks: Option<string>, reason: Option<string>): (r: string)
    ensures |r| == (if remarks.Some? then |remarks.value| + 2 else 0) + 6 + (if reason.Some? then |reason.value| else 4)
    ensures remarks.Some? ==> r[..|remarks.value| + 2] == remarks.value + "; "
    ensures var k := if remarks.Some? then |remarks.value| + 2 else 0; r[k..k + 6] == "阻塞原因: "
    ensures reason.Some? ==> r[|r| - |reason.value|..] == reason.value
    ensures reason.None? ==> r[|r| - 4..] == "null"
  {
    var prefix := if remarks.None? then "" else remarks.value + "; ";
    var said := if reason.None? then "null" else reason.value;
    prefix + "阻塞原因: " + said
  }

  class OrderService {
    var serviceCode: string
    var operationStaffId: Option<string>
    var operationDepartmentId: Option<string>
    var internalProtocolId: Option<string>
    var currency: string
    var priority: Priority
    var status: ServiceStatus
    var blockReason: Option<string>
    var remarks: Option<string>
    var assignedTime: Option<Time>
    var protocolConfirmedTime: Option<Time>
    var startedTime: Option<Time>
    var completedTime: Option<Time>

    /** Every stage the service task has passed on its forward path carries its timestamp. */
    ghost predicate Valid()
      reads this
    {
      (Stage(status) >= 1 ==> assignedTime.Some?) &&
      (Stage(status) >= 2 ==> protocolConfirmedTime.Some?) &&
      (Stage(status) >= 3 ==> startedTime.Some?) &&
      (Stage(status) >= 4 ==> completedTime.Some?)
    }

    /**
     * canConfirmProtocol(): confirmProtocol() would succeed (it needs ASSIGNED),
     * and a protocol is attached; an ASSIGNED task is refused only for lack of one.
     */
    predicate CanConfirmProtocol(): (b: bool)
      reads this
      ensures b ==> status == Assigned
      ensures b ==> internalProtocolId.Some?
      ensures status == Assigned && !b ==> internalProtocolId.None?
      ensures status != Assigned ==> !b
    {
      status == Assigned && internalProtocolId.Some?
    }

    /** A new task: PENDING, NORMAL priority, currency CNY, nothing assigned or stamped. */
    constructor (serviceCode: string)
      ensures Valid()
      ensures this.serviceCode == serviceCode && status == Pending
      ensures priority == Normal && currency == "CNY"
      ensures operationStaffId.None? && operationDepartmentId.None? && internalProtocolId.None?
      ensures blockReason.None? && remarks.None?
      ensures assignedTime.None? && protocolConfirmedTime.None? && startedTime.None? && completedTime.None?
    {
      this.serviceCode := serviceCode;
      operationStaffId, operationDepartmentId, internalProtocolId := None, None, None;
      currency := "CNY";
      priority := Normal;
      status := Pending;
      blockReason, remarks := None, None;
      assignedTime, protocolConfirmedTime, startedTime, completedTime := None, None, None, None;
    }

    /** assignToOperation(): only a PENDING task can be assigned. */
    method AssignToOperation(now: Time) returns (r: Outcome<LifecycleError>)
      requires Valid()
      modifies this`status, this`assignedTime
      ensures Valid()
      ensures r.Done? <==> old(status) == Pending
      ensures r.Refused? ==> r.error == NotPending && status == old(status) && assignedTime == old(assignedTime)
      ensures r.Done? ==> status == Assigned && assignedTime == Some(now)
    {
      if status != Pending {
        return Refused(NotPending);
      }
      status := Assigned;
      assignedTime := Some(now);
      return Done;
    }

    /** assign(staff, department, protocol): records the assignment from any status. */
    method Assign(staffId: Option<string>, departmentId: Option<string>, protocolId: Option<string>, now: Time)
      requires Valid()
      modifies this`operationStaffId, this`operationDepartmentId, this`internalProtocolId, this`status, this`assignedTime
      ensures Valid()
      ensures operationStaffId == staffId && operationDepartmentId == departmentId && internalProtocolId == protocolId
      ensures status == Assigned && assignedTime == Some(now)
    {
      operationStaffId := staffId;
      operationDepartmentId := departmentId;
      internalProtocolId := protocolId;
      status := Assigned;
      assignedTime := Some(now);
    }

    /** confirmProtocol(): ASSIGNED to PROTOCOL_CONFIRMED only. */
    method ConfirmProtocol(now: Time) returns (r: Outcome<LifecycleError>)
      requires Valid()
      modifies this`status, this`protocolConfirmedTime
      ensures Valid()
      ensures r.Done? <==> old(status) == Assigned
      ensures r.Refused? ==> r.error == NotAssigned && status == old(status) && protocolConfirmedTime == old(protocolConfirmedTime)
      ensures r.Done? ==> status == ProtocolConfirmed && protocolConfirmedTime == Some(now) && IsProtocolConfirmed(status)
    {
      if status != Assigned {
        return Refused(NotAssigned);
      }
      status := ProtocolConfirmed;
      protocolConfirmedTime := Some(now);
      return Done;
    }

    /** start(): PROTOCOL_CONFIRMED to IN_PROGRESS only. */
    method Start(now: Time) returns (r: Outcome<LifecycleError>)
      requires Valid()
      modifies this`status, this`startedTime
      ensures Valid()
      ensures r.Done? <==> old(status) == ProtocolConfirmed
      ensures r.Refused? ==> r.error == NotProtocolConfirmed && status == old(status) && startedTime == old(startedTime)
      ensures r.Done? ==> status == InProgress && startedTime == Some(now)
    {
      if status != ProtocolConfirmed {
        return Refused(NotProtocolConfirmed);
      }
      status := InProgress;
      startedTime := Some(now);
      return Done;
    }

    /** complete(): IN_PROGRESS to COMPLETED only. */
    method Complete(now: Time) returns (r: Outcome<LifecycleError>)
      requires Valid()
      modifies this`status, this`completedTime
      ensures Valid()
      ensures r.Done? <==> old(status) == InProgress
      ensures r.Refused? ==> r.error == NotInProgress && status == old(status) && completedTime == old(completedTime)
      ensures r.Done? ==> status == Completed && completedTime == Some(now)
    {
      if status != InProgress {
        return Refused(NotInProgress);
      }
      status := Completed;
      completedTime := Some(now);
      return Done;
    }

    /** block(reason): BLOCKED from any status; the reason is kept and appended to the remarks. */
    method Block(reason: Option<string>)
      requires Valid()
      modifies this`status, this`blockReason, this`remarks
      ensures Valid()
      ensures status == Blocked && blockReason == reason
      ensures remarks == Some(BlockedRemarks(old(remarks), reason))
    {
      status := Blocked;
      blockReason := reason;
      remarks := Some(BlockedRemarks(remarks, reason));
    }
  }
}
