/**
 * DefaultEntityService: the legal entity an order uses by default, found from
 * the user's department, and whether using another entity ("borrowing a
 * letterhead") needs approval.
 */
module DefaultEntity {
  import opened Wrappers
  import opened Strings

  /** The system default: the China sales entity. */
  const SystemDefaultEntity: string := "ENTITY_CN_SALES"

  /** The entities a default can be. */
  const DefaultEntities: set<string> := {
    "ENTITY_SH_SALES", "ENTITY_SH_OPERATION", "ENTITY_BJ_SALES", "ENTITY_BJ_OPERATION",
    "ENTITY_GZ_SALES", "ENTITY_GZ_OPERATION", "ENTITY_SZ_SALES", "ENTITY_SZ_OPERATION",
    "ENTITY_CN_SALES", "ENTITY_CN_OPERATION"}

  /** The department table of getDefaultEntityByDepartment: a department of a city maps to that city's entity. */
  function MappedEntity(departmentId: string): (e: Option<string>)
    ensures e.Some? ==> e.value in DefaultEntities
  {
    match departmentId
    case "DEPT_SALES_SH" => Some("ENTITY_SH_SALES")
    case "DEPT_OPERATION_SH" => Some("ENTITY_SH_OPERATION")
    case "DEPT_SALES_BJ" => Some("ENTITY_BJ_SALES")
    case "DEPT_OPERATION_BJ" => Some("ENTITY_BJ_OPERATION")
    case "DEPT_SALES_GZ" => Some("ENTITY_GZ_SALES")
    case "DEPT_OPERATION_GZ" => Some("ENTITY_GZ_OPERATION")
    case "DEPT_SALES_SZ" => Some("ENTITY_SZ_SALES")
    case "DEPT_OPERATION_SZ" => Some("ENTITY_SZ_OPERATION")
    case _ => None
  }

  /**
   * getDefaultEntityByDepartment: no department gives the system default; a
   * listed department its entity; any other department the China sales
   * entity if its id contains SALES, else the China operation entity if it
   * contains OPERATION, else the system default.
   */
  function DefaultEntityByDepartment(departmentId: Option<string>): (e: string)
    ensures e in DefaultEntities
    ensures departmentId.Some? && MappedEntity(departmentId.value).Some? ==> e == MappedEntity(departmentId.value).value
  {
    if departmentId.None? then SystemDefaultEntity
    else
      match MappedEntity(departmentId.value)
      case Some(entity) => entity
      case None =>
        if Contains(departmentId.value, "SALES") then "ENTITY_CN_SALES"
        else if Contains(departmentId.value, "OPERATION") then "ENTITY_CN_OPERATION"
        else SystemDefaultEntity
  }

  /** A missing department falls back to the China sales entity. */
  lemma MissingDepartmentGetsSystemDefault()
    ensures DefaultEntityByDepartment(None) == "ENTITY_CN_SALES"
  {
  }

  /** An unlisted department is matched on its name: SALES first, then OPERATION, then the system default. */
  lemma UnlistedDepartmentFallsBack(departmentId: string)
    requires MappedEntity(departmentId).None?
    ensures Contains(departmentId, "SALES") ==> DefaultEntityByDepartment(Some(departmentId)) == "ENTITY_CN_SALES"
    ensures !Contains(departmentId, "SALES") && Contains(departmentId, "OPERATION") ==>
              DefaultEntityByDepartment(Some(departmentId)) == "ENTITY_CN_OPERATION"
    ensures !Contains(departmentId, "SALES") && !Contains(departmentId, "OPERATION") ==>
              DefaultEntityByDepartment(Some(departmentId)) == SystemDefaultEntity
  {
  }

  /** The departments users are placed in. */
  const UserDepartments: set<string> := {"DEPT_SALES_SH", "DEPT_OPERATION_SH", "DEPT_SALES_BJ", "DEPT_OPERATION_BJ"}

  /** getUserDepartment: the fixed user table; an unknown user is in Shanghai sales, no user in no department. */
  function UserDepartment(userId: Option<string>): (d: Option<string>)
    ensures d.None? <==> userId.None?
    ensures d.Some? ==> d.value in UserDepartments
  {
    if userId.None? then None
    else
      match userId.value
      case "USER_001" => Some("DEPT_SALES_SH")
      case "zhangmeihua" => Some("DEPT_SALES_SH")
      case "USER_002" => Some("DEPT_OPERATION_SH")
      case "wangqiang" => Some("DEPT_OPERATION_SH")
      case "USER_003" => Some("DEPT_SALES_BJ")
      case "USER_004" => Some("DEPT_OPERATION_BJ")
      case _ => Some("DEPT_SALES_SH")
  }

  predicate KnownUser(userId: string) {
    userId in {"USER_001", "zhangmeihua", "USER_002", "wangqiang", "USER_003", "USER_004"}
  }

  /** getDefaultEntityByUserId: the default entity of the user's department. */
  function DefaultEntityByUserId(userId: Option<string>): (e: string)
    ensures e in DefaultEntities
  {
    DefaultEntityByDepartment(UserDepartment(userId))
  }

  /** An unknown user gets the Shanghai sales entity, no user the system default. */
  lemma UserDefaults(userId: string)
    ensures !KnownUser(userId) ==> UserDepartment(Some(userId)) == Some("DEPT_SALES_SH")
    ensures !KnownUser(userId) ==> DefaultEntityByUserId(Some(userId)) == "ENTITY_SH_SALES"
    ensures DefaultEntityByUserId(None) == SystemDefaultEntity
  {
  }

  /** Every user's default is a city entity, never a China-wide fallback. */
  lemma UsersGetCityEntities(userId: string)
    ensures DefaultEntityByUserId(Some(userId)) in {"ENTITY_SH_SALES", "ENTITY_SH_OPERATION", "ENTITY_BJ_SALES", "ENTITY_BJ_OPERATION"}
  {
    var d := UserDepartment(Some(userId)).value;
    assert d in UserDepartments;
    if d == "DEPT_SALES_SH" {
      assert MappedEntity(d) == Some("ENTITY_SH_SALES");
    } else if d == "DEPT_OPERATION_SH" {
      assert MappedEntity(d) == Some("ENTITY_SH_OPERATION");
    } else if d == "DEPT_SALES_BJ" {
      assert MappedEntity(d) == Some("ENTITY_BJ_SALES");
    } else {
      assert MappedEntity(d) == Some("ENTITY_BJ_OPERATION");
    }
  }

  /** hasEntityDifference: the entity used is not the user's default (a missing entity always differs). */
  predicate HasEntityDifference(userId: Option<string>, actualEntityId: Option<string>) {
    actualEntityId != Some(DefaultEntityByUserId(userId))
  }

  /** isSpecialEntity: an overseas entity, recognised by HK, SG, US or OVERSEAS in its id. */
  predicate IsSpecialEntity(entityId: Option<string>) {
    entityId.Some? &&
    (Contains(entityId.value, "HK") || Contains(entityId.value, "SG") ||
     Contains(entityId.value, "US") || Contains(entityId.value, "OVERSEAS"))
  }

  /** The amount from which a borrowed entity needs approval. */
  const ApprovalThreshold: real := 50000.0

  /**
   * requiresApproval: only a borrowed entity can need approval, and it does
   * when the amount reaches 50000 or the entity is an overseas one.
   */
  function RequiresApproval(userId: Option<string>, actualEntityId: Option<string>, amount: Option<real>): (b: bool)
    ensures b <==> HasEntityDifference(userId, actualEntityId) &&
                   ((amount.Some? && amount.value >= ApprovalThreshold) || IsSpecialEntity(actualEntityId))
  {
    if !HasEntityDifference(userId, actualEntityId) then false
    else if amount.Some? && amount.value >= ApprovalThreshold then true
    else if IsSpecialEntity(actualEntityId) then true
    else false
  }

  /** Using the default entity never needs approval, whatever the amount. */
  lemma DefaultEntityNeedsNoApproval(userId: Option<string>, amount: Option<real>)
    ensures !RequiresApproval(userId, Some(DefaultEntityByUserId(userId)), amount)
  {
  }

  /** A borrowed entity needs approval from 50000 on, and below it only when it is an overseas entity. */
  lemma BorrowedEntityApproval(userId: Option<string>, actualEntityId: Option<string>, amount: real)
    requires HasEntityDifference(userId, actualEntityId)
    ensures amount >= 50000.0 ==> RequiresApproval(userId, actualEntityId, Some(amount))
    ensures amount < 50000.0 ==> (RequiresApproval(userId, actualEntityId, Some(amount)) <==> IsSpecialEntity(actualEntityId))
  {
  }

  /** Approval is monotone in the amount: raising it never removes the need. */
  lemma ApprovalMonotoneInAmount(userId: Option<string>, actualEntityId: Option<string>, a: real, b: real)
    requires a <= b
    ensures RequiresApproval(userId, actualEntityId, Some(a)) ==> RequiresApproval(userId, actualEntityId, Some(b))
  {
  }
}
