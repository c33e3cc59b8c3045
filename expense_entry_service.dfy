/**
 * The expense-entry service (ExpenseEntryService) over its repository, which
 * is modelled as the table's rows in id order. The constraint queries of the
 * validation service are the parameters serviceLookup and supplierLookup.
 */
module ExpenseEntryStore {
  import opened Wrappers
  import opened ExpenseEntries
  import opened FeeValidation

  /** The request fields the service reads (ExpenseEntryRequest). */
  datatype EntryRequest = EntryRequest(
    orderId: string,
    serviceCode: string,
    feeCode: string,
    entryType: EntryType,
    counterpartEntity: string,
    counterpartSupplierType: Option<string>,
    ourEntityId: string,
    ourDepartmentId: string,
    amount: real,
    currency: string,
    isTransitEntity: bool,
    remarks: Option<string>)

  /** The ClearingException each guard throws. */
  datatype ServiceError = DuplicateEntry | EntryNotFound | EntryLocked | EntryConfirmed | ValidationNotPassed | EntryNotConfirmed

  datatype EntrySummary = EntrySummary(
    orderId: string,
    totalReceivable: real,
    totalPayable: real,
    netAmount: real,
    receivableCount: nat,
    payableCount: nat,
    totalCount: nat)

  /** The validation create and update store: the service check, merged with the supplier check for a payable. */
  function EntryValidation(req: EntryRequest, serviceLookup: ConstraintLookup, supplierLookup: ConstraintLookup): (v: ValidationResult)
    ensures req.entryType == Receivable ==> v == ValidateFeeService(serviceLookup)
    ensures req.entryType == Payable ==>
      v == MergeForEntry(ValidateFeeService(serviceLookup), ValidateFeeSupplier(req.counterpartSupplierType, supplierLookup))
  {
    var service := ValidateFeeService(serviceLookup);
    if req.entryType == Payable then
      MergeForEntry(service, ValidateFeeSupplier(req.counterpartSupplierType, supplierLookup))
    else service
  }

  /** An entry with the same order, service, fee code and direction as the request. */
  predicate SameKey(e: ExpenseEntry, req: EntryRequest) {
    e.orderId == req.orderId && e.serviceCode == req.serviceCode && e.feeCode == req.feeCode && e.entryType == req.entryType
  }

  /** existsByOrderIdAndServiceCodeAndFeeCodeAndEntryType. */
  predicate HasKey(rows: seq<ExpenseEntry>, req: EntryRequest) {
    exists i :: 0 <= i < |rows| && SameKey(rows[i], req)
  }

  /** buildExpenseEntry: the request's fields, the validation result, DRAFT and version 1. */
  function BuildEntry(id: nat, req: EntryRequest, v: ValidationResult): (e: ExpenseEntry)
    ensures e.id == id && SameKey(e, req) && e.amount == req.amount
    ensures e.entryStatus == Draft && e.versionNumber == 1
    ensures e.validationStatus == v.status && e.validationMessage == Some(v.message)
  {
    ExpenseEntry(id, req.orderId, req.serviceCode, req.feeCode, req.entryType, req.counterpartEntity,
                 req.counterpartSupplierType, req.ourEntityId, req.ourDepartmentId, req.amount, req.currency,
                 req.isTransitEntity, v.status, Some(v.message), Draft, 1, req.remarks)
  }

  /** updateEntityFields: every request field but the order id, the new validation, version + 1; status kept. */
  function UpdatedEntry(e: ExpenseEntry, req: EntryRequest, v: ValidationResult): (u: ExpenseEntry)
    ensures u.id == e.id && u.orderId == e.orderId && u.entryStatus == e.entryStatus
    ensures u.versionNumber == e.versionNumber + 1
    ensures u.serviceCode == req.serviceCode && u.feeCode == req.feeCode && u.entryType == req.entryType && u.amount == req.amount
    ensures u.validationStatus == v.status && u.validationMessage == Some(v.message)
  {
    e.(serviceCode := req.serviceCode, feeCode := req.feeCode, entryType := req.entryType,
       counterpartEntity := req.counterpartEntity, counterpartSupplierType := req.counterpartSupplierType,
       ourEntityId := req.ourEntityId, ourDepartmentId := req.ourDepartmentId, amount := req.amount,
       currency := req.currency, isTransitEntity := req.isTransitEntity, validationStatus := v.status,
       validationMessage := Some(v.message), remarks := req.remarks, versionNumber := e.versionNumber + 1)
  }

  /** Ids strictly increase along the rows, as an identity column does. */
  ghost predicate IdsIncreasing(rows: seq<ExpenseEntry>) {
    forall i, j :: 0 <= i < j < |rows| ==> rows[i].id < rows[j].id
  }

  /** findById: the position of the row with that id. */
  function IndexOf(rows: seq<ExpenseEntry>, id: nat): (r: Option<nat>)
    ensures r.Some? ==> r.value < |rows| && rows[r.value].id == id
    ensures r.None? ==> forall i :: 0 <= i < |rows| ==> rows[i].id != id
  {
    if rows == [] then None
    else if rows[0].id == id then Some(0)
    else
      var r := IndexOf(rows[1..], id);
      if r.None? then None else Some(r.value + 1)
  }

  /** Every locked row of `before` is still there, unchanged. */
  ghost predicate LockedRowsKept(before: seq<ExpenseEntry>, after: seq<ExpenseEntry>) {
    forall i :: 0 <= i < |before| && before[i].IsLocked() ==> before[i] in after
  }

  /** Removing one unlocked row keeps the ids increasing and below the next id, and keeps every locked row. */
  lemma RemoveKeepsRows(before: seq<ExpenseEntry>, i: nat, nextId: nat)
    requires i < |before| && !before[i].IsLocked()
    requires IdsIncreasing(before) && forall k :: 0 <= k < |before| ==> before[k].id < nextId
    ensures var after := before[..i] + before[i + 1..];
      IdsIncreasing(after) && (forall k :: 0 <= k < |after| ==> after[k].id < nextId) && LockedRowsKept(before, after)
  {
    var after := before[..i] + before[i + 1..];
    assert forall k :: 0 <= k < |after| ==> after[k] == (if k < i then before[k] else before[k + 1]);
    forall k | 0 <= k < |before| && before[k].IsLocked() ensures before[k] in after {
      if k < i { assert after[k] == before[k]; } else { assert k > i && after[k - 1] == before[k]; }
    }
  }

  /** Replacing one row keeps every locked row when a locked row is replaced by itself. */
  lemma ReplaceKeepsLocked(before: seq<ExpenseEntry>, i: nat, u: ExpenseEntry)
    requires i < |before|
    requires before[i].IsLocked() ==> u == before[i]
    ensures LockedRowsKept(before, before[i := u])
  {
    var after := before[i := u];
    forall k | 0 <= k < |before| && before[k].IsLocked() ensures before[k] in after {
      assert after[k] == before[k];
    }
  }

  /** batchConfirm's effect on one row: confirmed when requested, not locked and validation passed. */
  function BatchConfirmed(e: ExpenseEntry, ids: seq<nat>): (u: ExpenseEntry)
    ensures u.id == e.id
    ensures u == e || (u == e.(entryStatus := Confirmed) && e.id in ids && !e.IsLocked() && e.IsValidationPassed())
    ensures e.id in ids && !e.IsLocked() && e.IsValidationPassed() ==> u.entryStatus == Confirmed
  {
    if e.id in ids && !e.IsLocked() && e.IsValidationPassed() then e.(entryStatus := Confirmed) else e
  }

  // ---- getExpenseEntrySummary: folds over findByOrderId(orderId) ----

  /** findByOrderId. */
  function OrderRows(rows: seq<ExpenseEntry>, orderId: string): (r: seq<ExpenseEntry>)
    ensures |r| <= |rows|
    ensures forall i :: 0 <= i < |r| ==> r[i].orderId == orderId && r[i] in rows
  {
    if rows == [] then []
    else if rows[0].orderId == orderId then [rows[0]] + OrderRows(rows[1..], orderId)
    else OrderRows(rows[1..], orderId)
  }

  function TotalOf(entries: seq<ExpenseEntry>, t: EntryType): real {
    if entries == [] then 0.0
    else (if entries[0].entryType == t then entries[0].amount else 0.0) + TotalOf(entries[1..], t)
  }

  function CountOf(entries: seq<ExpenseEntry>, t: EntryType): nat {
    if entries == [] then 0
    else (if entries[0].entryType == t then 1 else 0) + CountOf(entries[1..], t)
  }

  /** The summary of an order's entries. */
  function Summary(orderId: string, entries: seq<ExpenseEntry>): (s: EntrySummary)
    ensures s.netAmount == s.totalReceivable - s.totalPayable
    ensures s.totalCount == |entries|
  {
    var r := TotalOf(entries, Receivable);
    var p := TotalOf(entries, Payable);
    EntrySummary(orderId, r, p, r - p, CountOf(entries, Receivable), CountOf(entries, Payable), |entries|)
  }

  /** Every entry is counted exactly once, as receivable or as payable. */
  lemma {:induction false} CountsAddUp(orderId: string, entries: seq<ExpenseEntry>)
    ensures Summary(orderId, entries).receivableCount + Summary(orderId, entries).payableCount == Summary(orderId, entries).totalCount
  {
    if entries != [] {
      CountsAddUp(orderId, entries[1..]);
    }
  }

  lemma {:induction false} TotalAppend(entries: seq<ExpenseEntry>, e: ExpenseEntry, t: EntryType)
    ensures TotalOf(entries + [e], t) == TotalOf(entries, t) + (if e.entryType == t then e.amount else 0.0)
    ensures CountOf(entries + [e], t) == CountOf(entries, t) + (if e.entryType == t then 1 else 0)
  {
    if entries != [] {
      assert (entries + [e])[1..] == entries[1..] + [e];
      TotalAppend(entries[1..], e, t);
    }
  }

  lemma {:induction false} OrderRowsAppend(rows: seq<ExpenseEntry>, e: ExpenseEntry, orderId: string)
    ensures OrderRows(rows + [e], orderId) == OrderRows(rows, orderId) + (if e.orderId == orderId then [e] else [])
  {
    if rows != [] {
      assert (rows + [e])[1..] == rows[1..] + [e];
      OrderRowsAppend(rows[1..], e, orderId);
    }
  }

  /** Appending a new row moves its order's summary by exactly that row: its amount to its side's total, one to its side's count. */
  lemma NewRowSummary(rows: seq<ExpenseEntry>, e: ExpenseEntry)
    ensures
      var before := Summary(e.orderId, OrderRows(rows, e.orderId));
      var after := Summary(e.orderId, OrderRows(rows + [e], e.orderId));
      after.totalCount == before.totalCount + 1 &&
      (e.IsReceivable() ==> after.totalReceivable == before.totalReceivable + e.amount && after.totalPayable == before.totalPayable
                            && after.receivableCount == before.receivableCount + 1 && after.payableCount == before.payableCount) &&
      (e.IsPayable() ==> after.totalPayable == before.totalPayable + e.amount && after.totalReceivable == before.totalReceivable
                         && after.payableCount == before.payableCount + 1 && after.receivableCount == before.receivableCount) &&
      after.netAmount == before.netAmount + (if e.IsReceivable() then e.amount else -e.amount)
  {
    OrderRowsAppend(rows, e, e.orderId);
    var old_ := OrderRows(rows, e.orderId);
    TotalAppend(old_, e, Receivable);
    TotalAppend(old_, e, Payable);
  }

  class ExpenseEntryService {
    var rows: seq<ExpenseEntry>
    var nextId: nat

    ghost predicate Valid()
      reads this
    {
      IdsIncreasing(rows) && (forall i :: 0 <= i < |rows| ==> rows[i].id < nextId)
    }

    constructor ()
      ensures Valid() && rows == [] && nextId == 1
    {
      rows := [];
      nextId := 1;
    }

    /** createExpenseEntry: rejects a duplicate key, otherwise saves a DRAFT entry under a fresh id. */
    method Create(req: EntryRequest, serviceLookup: ConstraintLookup, supplierLookup: ConstraintLookup)
      returns (r: Result<ExpenseEntry, ServiceError>)
      requires Valid()
      modifies this
      ensures Valid()
      ensures r.Err? <==> HasKey(old(rows), req)
      ensures r.Err? ==> r.error == DuplicateEntry && rows == old(rows) && nextId == old(nextId)
      ensures r.Ok? ==> r.value == BuildEntry(old(nextId), req, EntryValidation(req, serviceLookup, supplierLookup))
      ensures r.Ok? ==> rows == old(rows) + [r.value] && nextId == old(nextId) + 1
      ensures LockedRowsKept(old(rows), rows)
    {
      if HasKey(rows, req) {
        return Err(DuplicateEntry);
      }
      var e := BuildEntry(nextId, req, EntryValidation(req, serviceLookup, supplierLookup));
      rows := rows + [e];
      nextId := nextId + 1;
      return Ok(e);
    }

    /** updateExpenseEntry: a missing or locked entry is refused; otherwise its fields are replaced and its version goes up by one. */
    method Update(id: nat, req: EntryRequest, serviceLookup: ConstraintLookup, supplierLookup: ConstraintLookup)
      returns (r: Result<ExpenseEntry, ServiceError>)
      requires Valid()
      modifies this`rows
      ensures Valid()
      ensures IndexOf(old(rows), id).None? ==> r == Err(EntryNotFound) && rows == old(rows)
      ensures IndexOf(old(rows), id).Some? && old(rows)[IndexOf(old(rows), id).value].IsLocked() ==> r == Err(EntryLocked) && rows == old(rows)
      ensures r.Ok? ==> IndexOf(old(rows), id).Some? && !old(rows)[IndexOf(old(rows), id).value].IsLocked()
      ensures r.Ok? ==>
        var i := IndexOf(old(rows), id).value;
        r.value == UpdatedEntry(old(rows)[i], req, EntryValidation(req, serviceLookup, supplierLookup)) &&
        rows == old(rows)[i := r.value]
      ensures LockedRowsKept(old(rows), rows)
    {
      var found := IndexOf(rows, id);
      if found.None? {
        return Err(EntryNotFound);
      }
      var i := found.value;
      if rows[i].IsLocked() {
        return Err(EntryLocked);
      }
      var u := UpdatedEntry(rows[i], req, EntryValidation(req, serviceLookup, supplierLookup));
      ReplaceKeepsLocked(rows, i, u);
      rows := rows[i := u];
      return Ok(u);
    }

    /** deleteExpenseEntry: a missing entry, or a CONFIRMED or LOCKED one, is refused. */
    method Delete(id: nat) returns (r: Outcome<ServiceError>)
      requires Valid()
      modifies this`rows
      ensures Valid()
      ensures IndexOf(old(rows), id).None? ==> r == Refused(EntryNotFound) && rows == old(rows)
      ensures IndexOf(old(rows), id).Some? && old(rows)[IndexOf(old(rows), id).value].IsConfirmed() ==> r == Refused(EntryConfirmed) && rows == old(rows)
      ensures r.Done? <==> IndexOf(old(rows), id).Some? && !old(rows)[IndexOf(old(rows), id).value].IsConfirmed()
      ensures r.Done? ==> var i := IndexOf(old(rows), id).value; rows == old(rows)[..i] + old(rows)[i + 1..]
      ensures LockedRowsKept(old(rows), rows)
    {
      var found := IndexOf(rows, id);
      if found.None? {
        return Refused(EntryNotFound);
      }
      var i := found.value;
      if rows[i].IsConfirmed() {
        return Refused(EntryConfirmed);
      }
      RemoveKeepsRows(rows, i, nextId);
      rows := rows[..i] + rows[i + 1..];
      return Done;
    }

    /** confirmExpenseEntry: a missing or locked entry, or one whose validation did not pass, is refused; otherwise it becomes CONFIRMED. */
    method Confirm(id: nat) returns (r: Result<ExpenseEntry, ServiceError>)
      requires Valid()
      modifies this`rows
      ensures Valid()
      ensures IndexOf(old(rows), id).None? ==> r == Err(EntryNotFound) && rows == old(rows)
      ensures IndexOf(old(rows), id).Some? ==>
        var e := old(rows)[IndexOf(old(rows), id).value];
        (e.IsLocked() ==> r == Err(EntryLocked) && rows == old(rows)) &&
        (!e.IsLocked() && !e.IsValidationPassed() ==> r == Err(ValidationNotPassed) && rows == old(rows)) &&
        (!e.IsLocked() && e.IsValidationPassed() ==>
          r == Ok(e.(entryStatus := Confirmed)) && rows == old(rows)[IndexOf(old(rows), id).value := r.value])
      ensures LockedRowsKept(old(rows), rows)
    {
      var found := IndexOf(rows, id);
      if found.None? {
        return Err(EntryNotFound);
      }
      var i := found.value;
      if rows[i].IsLocked() {
        return Err(EntryLocked);
      }
      if !rows[i].IsValidationPassed() {
        return Err(ValidationNotPassed);
      }
      var u := rows[i].(entryStatus := Confirmed);
      ReplaceKeepsLocked(rows, i, u);
      rows := rows[i := u];
      return Ok(u);
    }

    /** lockExpenseEntry: only a confirmed entry (CONFIRMED or LOCKED) can be locked. */
    method Lock(id: nat) returns (r: Result<ExpenseEntry, ServiceError>)
      requires Valid()
      modifies this`rows
      ensures Valid()
      ensures IndexOf(old(rows), id).None? ==> r == Err(EntryNotFound) && rows == old(rows)
      ensures IndexOf(old(rows), id).Some? ==>
        var e := old(rows)[IndexOf(old(rows), id).value];
        (!e.IsConfirmed() ==> r == Err(EntryNotConfirmed) && rows == old(rows)) &&
        (e.IsConfirmed() ==> r == Ok(e.(entryStatus := Locked)) && rows == old(rows)[IndexOf(old(rows), id).value := r.value])
      ensures LockedRowsKept(old(rows), rows)
    {
      var found := IndexOf(rows, id);
      if found.None? {
        return Err(EntryNotFound);
      }
      var i := found.value;
      if !rows[i].IsConfirmed() {
        return Err(EntryNotConfirmed);
      }
      var u := rows[i].(entryStatus := Locked);
      ReplaceKeepsLocked(rows, i, u);
      rows := rows[i := u];
      return Ok(u);
    }

    /** batchConfirmExpenseEntries: every requested entry that is not locked and passed validation becomes CONFIRMED; the others stay as they were. */
    method BatchConfirm(ids: seq<nat>) returns (saved: seq<ExpenseEntry>)
      requires Valid()
      modifies this`rows
      ensures Valid()
      ensures |rows| == |old(rows)|
      ensures forall i :: 0 <= i < |rows| ==> rows[i] == BatchConfirmed(old(rows)[i], ids)
      ensures forall i :: 0 <= i < |saved| ==> saved[i] in rows && saved[i].id in ids
      ensures forall i :: 0 <= i < |rows| && rows[i].id in ids ==> rows[i] in saved
      ensures LockedRowsKept(old(rows), rows)
    {
      var i := 0;
      saved := [];
      while i < |rows|
        invariant 0 <= i <= |rows| == |old(rows)|
        invariant forall k :: 0 <= k < i ==> rows[k] == BatchConfirmed(old(rows)[k], ids)
        invariant forall k :: i <= k < |rows| ==> rows[k] == old(rows)[k]
        invariant forall k :: 0 <= k < |saved| ==> saved[k] in rows[..i] && saved[k].id in ids
        invariant forall k :: 0 <= k < i && rows[k].id in ids ==> rows[k] in saved
      {
        var u := BatchConfirmed(rows[i], ids);
        rows := rows[i := u];
        if u.id in ids {
          saved := saved + [u];
        }
        i := i + 1;
      }
      forall k | 0 <= k < |old(rows)| && old(rows)[k].IsLocked() ensures old(rows)[k] in rows {
        assert rows[k] == old(rows)[k];
      }
    }

    /** getExpenseEntrySummary: the totals and counts of the stored rows of the order, each row counted on its own side. */
    function GetSummary(orderId: string): (s: EntrySummary)
      reads this
      ensures s.orderId == orderId
      ensures s.totalReceivable == TotalOf(OrderRows(rows, orderId), Receivable)
      ensures s.totalPayable == TotalOf(OrderRows(rows, orderId), Payable)
      ensures s.netAmount == s.totalReceivable - s.totalPayable
      ensures s.receivableCount + s.payableCount == s.totalCount == |OrderRows(rows, orderId)|
    {
      CountsAddUp(orderId, OrderRows(rows, orderId));
      Summary(orderId, OrderRows(rows, orderId))
    }
  }
}
