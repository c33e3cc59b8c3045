/**
 * Fee-code constraint checks (FeeValidationService). The constraint tables are
 * read through JDBC; here the outcome of that query is the parameter `lookup`.
 */
module FeeValidation {
  import opened Wrappers
  import opened Strings
  import opened ExpenseEntries

  datatype ValidationLevel = LevelValid | Suggestion | LevelWarning | Strict

  datatype ConstraintType = Allowed | ConstraintForbidden | ConstraintWarning | Unknown

  datatype ValidationResult = ValidationResult(
    status: ValidationStatus,
    message: ValidationMessage,
    level: ValidationLevel,
    constraintType: ConstraintType)

  /** What the constraint query gave: an exception, no active row, or the top-priority row's raw columns. */
  datatype ConstraintLookup =
    | QueryFailed
    | NoRow
    | Row(constraintType: Option<string>, constraintLevel: Option<string>, description: Option<string>)

  /** Enum.ordinal() of the level. */
  function Ordinal(l: ValidationLevel): (n: nat)
    ensures n <= 3
  {
    match l
    case LevelValid => 0
    case Suggestion => 1
    case LevelWarning => 2
    case Strict => 3
  }

  /** ConstraintType.valueOf: None when the column is null or names no constant (valueOf throws). */
  function ParseConstraintType(s: Option<string>): Option<ConstraintType> {
    if s == Some("ALLOWED") then Some(Allowed)
    else if s == Some("FORBIDDEN") then Some(ConstraintForbidden)
    else if s == Some("WARNING") then Some(ConstraintWarning)
    else if s == Some("UNKNOWN") then Some(Unknown)
    else None
  }

  /** ValidationLevel.valueOf. */
  function ParseLevel(s: Option<string>): Option<ValidationLevel> {
    if s == Some("VALID") then Some(LevelValid)
    else if s == Some("SUGGESTION") then Some(Suggestion)
    else if s == Some("WARNING") then Some(LevelWarning)
    else if s == Some("STRICT") then Some(Strict)
    else None
  }

  /** The WARNING / UNKNOWN result a missing row yields. */
  const NoConstraintResult := ValidationResult(Warning, NoConstraintFound, LevelWarning, Unknown)

  /** The WARNING / UNKNOWN result the catch block yields. */
  const FailureResult := ValidationResult(Warning, LookupFailed, LevelWarning, Unknown)

  /** buildValidationResult on parsed columns: the type decides the status, and a SUGGESTION level softens ERROR to WARNING. */
  function BuildResult(t: ConstraintType, level: ValidationLevel, description: Option<string>): (r: ValidationResult)
    ensures r.level == level && r.constraintType == t
    ensures t == Allowed ==> r.status == Valid
    ensures t == ConstraintForbidden ==> r.status == (if level == Suggestion then Warning else Error)
    ensures t == ConstraintWarning || t == Unknown ==> r.status == Warning
    ensures r.status == Error <==> t == ConstraintForbidden && level != Suggestion
  {
    var (status, message) :=
      match t
      case Allowed => (Valid, if description.Some? then Described(description.value) else PassedWithoutDescription)
      case ConstraintForbidden => (Error, Forbidden)
      case ConstraintWarning => (Warning, NeedsAttention(description))
      case Unknown => (Warning, UnknownConstraintType);
    if level == Suggestion && status == Error then
      ValidationResult(Warning, Advice(message), level, t)
    else
      ValidationResult(status, message, level, t)
  }

  /**
   * validateFeeServiceConstraint: a missing row, a failed query or an
   * unparseable column, else the result built from the top-priority row.
   */
  function ValidateFeeService(lookup: ConstraintLookup): (r: ValidationResult)
    ensures lookup.NoRow? ==> r == NoConstraintResult
    ensures lookup.QueryFailed? ==> r == FailureResult
    ensures lookup.Row? && (ParseConstraintType(lookup.constraintType).None? || ParseLevel(lookup.constraintLevel).None?) ==> r == FailureResult
    ensures r.status == Valid ==> r.constraintType == Allowed
  {
    match lookup
    case QueryFailed => FailureResult
    case NoRow => NoConstraintResult
    case Row(ct, cl, d) =>
      var t := ParseConstraintType(ct);
      var l := ParseLevel(cl);
      if t.None? || l.None? then FailureResult else BuildResult(t.value, l.value, d)
  }

  /**
   * validateFeeSupplierConstraint: a null or blank supplier type is VALID
   * without consulting the table; otherwise the same steps on the supplier table.
   */
  function ValidateFeeSupplier(supplierType: Option<string>, lookup: ConstraintLookup): (r: ValidationResult)
    ensures IsBlank(supplierType) ==> r == ValidationResult(Valid, NoSupplierCheck, LevelValid, Allowed)
    ensures !IsBlank(supplierType) ==> r == ValidateFeeService(lookup)
  {
    if IsBlank(supplierType) then ValidationResult(Valid, NoSupplierCheck, LevelValid, Allowed)
    else ValidateFeeService(lookup)
  }

  /** The merge create and update use: the supplier result replaces the service result only when strictly stricter. */
  function MergeForEntry(service: ValidationResult, supplier: ValidationResult): (r: ValidationResult)
    ensures r == service || r == supplier
    ensures Ordinal(r.level) >= Ordinal(service.level) && Ordinal(r.level) >= Ordinal(supplier.level)
    ensures Ordinal(service.level) == Ordinal(supplier.level) ==> r == service
  {
    if Ordinal(supplier.level) > Ordinal(service.level) then supplier else service
  }

  /** batchValidateExpenseEntries per entry: the service result only when strictly stricter, else the supplier result. */
  function BatchResult(service: ValidationResult, supplier: ValidationResult): (r: ValidationResult)
    ensures r == service || r == supplier
    ensures Ordinal(r.level) >= Ordinal(service.level) && Ordinal(r.level) >= Ordinal(supplier.level)
    ensures Ordinal(service.level) == Ordinal(supplier.level) ==> r == supplier
  {
    if Ordinal(service.level) > Ordinal(supplier.level) then service else supplier
  }

  /** The two merges agree except on a tie of levels, where one keeps the service and the other the supplier result. */
  lemma MergesDifferOnlyOnTies(service: ValidationResult, supplier: ValidationResult)
    ensures Ordinal(service.level) != Ordinal(supplier.level) ==> MergeForEntry(service, supplier) == BatchResult(service, supplier)
  {
  }
}
