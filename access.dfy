/**
 * Access decisions of the user controller: the admin-only gate used by
 * listing, creation and deletion, and the self-or-admin gate used by update.
 */
module Access {
  import opened Wrappers
  import opened Model

  /** How a role string is read for authorisation purposes. */
  datatype RoleClass = Admin | Tenant | Legacy | Unrecognised

  /** Classifies a stored role; the empty role predates the role field. */
  function Classify(role: string): RoleClass
  {
    if role == ADMIN_ROLE then Admin
    else if role == TENANT_ROLE then Tenant
    else if role == "" then Legacy
    else Unrecognised
  }

  /** The legacy empty role carries full administrator rights. */
  predicate ActsAsAdmin(c: RoleClass)
  {
    c == Admin || c == Legacy
  }

  /** `checkAdmin`: a logged-in caller whose role is the admin role or empty. */
  function CheckAdmin(caller: Option<User>): (allowed: bool)
    ensures allowed <==> caller.Some? && ActsAsAdmin(Classify(caller.value.role))
    ensures allowed ==> Classify(caller.value.role) != Tenant
  {
    caller.Some? && (caller.value.role == ADMIN_ROLE || caller.value.role == "")
  }

  /** The three answers of the check inside `updateUser`. */
  datatype Decision = Allow | DenyNoLogin | DenyNotPermitted

  /** The update gate: no caller is a login failure; otherwise admins and the target itself pass. */
  function UpdateAccess(caller: Option<User>, target: int): (d: Decision)
    ensures d == DenyNoLogin <==> caller.None?
    ensures d == Allow <==> CheckAdmin(caller) || (caller.Some? && caller.value.id == target)
    ensures d == DenyNotPermitted <==>
              caller.Some? && !ActsAsAdmin(Classify(caller.value.role)) && caller.value.id != target
  {
    match caller
    case None => DenyNoLogin
    case Some(u) =>
      if u.role != ADMIN_ROLE && u.role != "" && u.id != target then DenyNotPermitted else Allow
  }

  /** An administrator, legacy or current, may update every account. */
  lemma AdminMayUpdateAnyone(caller: Option<User>, target: int)
    requires CheckAdmin(caller)
    ensures UpdateAccess(caller, target) == Allow
  {
  }

  /** A tenant may update exactly its own account. */
  lemma TenantMayUpdateOnlyItself(u: User, target: int)
    requires u.role == TENANT_ROLE
    ensures !CheckAdmin(Some(u))
    ensures UpdateAccess(Some(u), target) == Allow <==> u.id == target
    ensures UpdateAccess(Some(u), target) != Allow ==> UpdateAccess(Some(u), target) == DenyNotPermitted
  {
  }

  /**
   * Without a caller neither gate opens, and the two gates refuse differently:
   * the admin gate with a permission failure, the update gate with a login failure.
   */
  lemma AbsentCallerRefused(target: int)
    ensures !CheckAdmin(None)
    ensures UpdateAccess(None, target) == DenyNoLogin
  {
  }
}
