/** Console users and their roles, as the session and the user API deliver them. */
module Accounts {

  /** A role is the string the server sends; the console knows three of them. */
  type Role = string

  const ADMIN: Role := "ADMIN"
  const PHARMACIST: Role := "PHARMACIST"
  const STAFF: Role := "STAFF"

  predicate IsKnownRole(r: Role) {
    r == ADMIN || r == PHARMACIST || r == STAFF
  }

  datatype User = User(id: string, name: string, email: string, role: Role)
}
