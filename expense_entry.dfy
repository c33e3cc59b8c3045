/** The expense entry (entity ExpenseEntry): one receivable or payable line of an order's fees. */
module ExpenseEntries {
  import opened Wrappers

  datatype EntryType = Receivable | Payable

  datatype ValidationStatus = Valid | Warning | Error

  datatype EntryStatus = Draft | Confirmed | Locked

  /** The validation message stored with an entry, by kind rather than by its formatted text. */
  datatype ValidationMessage =
    | NoConstraintFound
    | LookupFailed
    | Described(text: string)
    | PassedWithoutDescription
    | Forbidden
    | NeedsAttention(description: Option<string>)
    | UnknownConstraintType
    | Advice(inner: ValidationMessage)
    | NoSupplierCheck

  /**
   * The persisted fields. The enum columns are non-null in the table and
   * always set by the service, so they are plain values here.
   */
  datatype ExpenseEntry = ExpenseEntry(
    id: nat,
    orderId: string,
    serviceCode: string,
    feeCode: string,
    entryType: EntryType,
    counterpartEntity: string,
    counterpartSupplierType: Option<string>,
    ourEntityId: string,
    ourDepartmentId: string,
    amount: real,
    currency: string,
    isTransitEntity: bool,
    validationStatus: ValidationStatus,
    validationMessage: Option<ValidationMessage>,
    entryStatus: EntryStatus,
    versionNumber: int,
    remarks: Option<string>)
  {
    predicate IsReceivable() { entryType == Receivable }
    predicate IsPayable() { entryType == Payable }
    predicate IsValidationPassed() { validationStatus == Valid }
    predicate IsConfirmed() { entryStatus == Confirmed || entryStatus == Locked }
    predicate IsLocked() { entryStatus == Locked }
  }

  /**
   * An entry made by the no-argument constructor, whose field initialisers
   * give currency CNY, no transit entity, VALID, DRAFT and version 1.
   */
  function DefaultEntry(id: nat, orderId: string, serviceCode: string, feeCode: string, entryType: EntryType, amount: real): (e: ExpenseEntry)
    ensures e.entryStatus == Draft && !e.IsConfirmed() && !e.IsLocked()
    ensures e.IsValidationPassed() && e.versionNumber == 1
    ensures e.currency == "CNY" && !e.isTransitEntity
    ensures e.id == id && e.orderId == orderId && e.entryType == entryType && e.amount == amount
  {
    ExpenseEntry(id, orderId, serviceCode, feeCode, entryType, "", None, "", "", amount,
                 "CNY", false, Valid, None, Draft, 1, None)
  }

  /** A locked entry counts as confirmed; a confirmed entry that is not locked is CONFIRMED. */
  lemma LockedIsConfirmed(e: ExpenseEntry)
    ensures e.IsLocked() ==> e.IsConfirmed()
    ensures e.IsConfirmed() && !e.IsLocked() ==> e.entryStatus == Confirmed
  {
  }

  /** Every entry is exactly one of receivable and payable. */
  lemma ReceivableXorPayable(e: ExpenseEntry)
    ensures e.IsReceivable() != e.IsPayable()
  {
  }
}
