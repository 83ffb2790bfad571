/**
 * The user record and the role names the controller compares against.
 * The persistence model itself is not part of this model; only the fields
 * the controller reads or rewrites are kept.
 */
module Model {

  /** The role of a full administrator. */
  const ADMIN_ROLE: string := "admin"

  /** The role given to accounts created without one. */
  const TENANT_ROLE: string := "tenant"

  /** An account, as the session returns it for the caller and as `addUser` binds it. */
  datatype User = User(id: int, username: string, password: string, role: string, remark: string)
}
