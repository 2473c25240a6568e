/**
 * The user record returned by the API and the two permission checks on it.
 * `admin` is declared boolean, but it arrives as JSON, so it is kept as a
 * JavaScript value: `canViewAdmin` demands exactly `true`, `getUserType` only
 * truthiness.
 */
module Permissions {
  import opened Wrappers
  import opened JsValues

  datatype User = User(id: int, email: string, admin: JsValue)

  datatype UserType = RegularUser | AdminUser

  /** `user?.admin === true`. */
  predicate CanViewAdmin(user: Option<User>)
    ensures CanViewAdmin(user) <==> user.Some? && user.value.admin.Bool? && Truthy(user.value.admin)
  {
    user.Some? && user.value.admin == Bool(true)
  }

  /** `user?.admin ? 'admin' : 'user'`. */
  function GetUserType(user: Option<User>): (t: UserType)
    ensures t == AdminUser <==> user.Some? && Truthy(user.value.admin)
    ensures CanViewAdmin(user) ==> t == AdminUser
    ensures user == None ==> t == RegularUser
  {
    if user.Some? && Truthy(user.value.admin) then AdminUser else RegularUser
  }

  /** For a boolean admin flag the two checks agree, in both directions. */
  lemma UserTypeMatchesCanViewAdmin(user: Option<User>)
    requires user.Some? ==> user.value.admin.Bool?
    ensures GetUserType(user) == AdminUser <==> CanViewAdmin(user)
  {
  }

  /** For a non-boolean truthy flag (say the number 1) they disagree. */
  lemma NumericAdminFlagDisagrees(id: int, email: string)
    ensures GetUserType(Some(User(id, email, Num(1)))) == AdminUser
    ensures !CanViewAdmin(Some(User(id, email, Num(1))))
  {
  }
}
