/** The claim pickers shared, expression for expression, by auth/jwt and store/authSlice:
    each tries a fixed list of claim names, short names before URI-qualified ones, and takes
    the first truthy value. */
module Claims {
  import opened JsValues

  const NameIdentifierUri := "http://schemas.xmlsoap.org/ws/2005/05/identity/claims/nameidentifier"
  const NameUri := "http://schemas.xmlsoap.org/ws/2005/05/identity/claims/name"
  const EmailAddressUri := "http://schemas.xmlsoap.org/ws/2005/05/identity/claims/emailaddress"
  const RoleUri := "http://schemas.microsoft.com/ws/2008/06/identity/claims/role"

  /** `payload.nameid || payload[<nameidentifier URI>] || payload.sub || null` */
  function UserIdClaim(payload: Js): (r: Js)
    ensures Truthy(Get(payload, "nameid")) ==> r == Get(payload, "nameid")
    ensures !Truthy(Get(payload, "nameid")) && Truthy(Get(payload, NameIdentifierUri)) ==> r == Get(payload, NameIdentifierUri)
    ensures !Truthy(Get(payload, "nameid")) && !Truthy(Get(payload, NameIdentifierUri)) && Truthy(Get(payload, "sub")) ==> r == Get(payload, "sub")
    ensures !Truthy(Get(payload, "nameid")) && !Truthy(Get(payload, NameIdentifierUri)) && !Truthy(Get(payload, "sub")) ==> r == Null
  {
    Or(Get(payload, "nameid"), Or(Get(payload, NameIdentifierUri), Or(Get(payload, "sub"), Null)))
  }

  /** `payload.unique_name || payload.name || payload[<name URI>] || payload.email || null` */
  function UsernameClaim(payload: Js): (r: Js)
    ensures Truthy(Get(payload, "unique_name")) ==> r == Get(payload, "unique_name")
    ensures !Truthy(Get(payload, "unique_name")) && Truthy(Get(payload, "name")) ==> r == Get(payload, "name")
    ensures !Truthy(Get(payload, "unique_name")) && !Truthy(Get(payload, "name")) && Truthy(Get(payload, NameUri)) ==> r == Get(payload, NameUri)
    ensures !Truthy(Get(payload, "unique_name")) && !Truthy(Get(payload, "name")) && !Truthy(Get(payload, NameUri)) && Truthy(Get(payload, "email")) ==> r == Get(payload, "email")
    ensures !Truthy(Get(payload, "unique_name")) && !Truthy(Get(payload, "name")) && !Truthy(Get(payload, NameUri)) && !Truthy(Get(payload, "email")) ==> r == Null
  {
    Or(Get(payload, "unique_name"), Or(Get(payload, "name"), Or(Get(payload, NameUri), Or(Get(payload, "email"), Null))))
  }

  /** `payload.email || payload[<emailaddress URI>] || null` (auth/jwt only) */
  function EmailClaim(payload: Js): (r: Js)
    ensures Truthy(Get(payload, "email")) ==> r == Get(payload, "email")
    ensures !Truthy(Get(payload, "email")) && Truthy(Get(payload, EmailAddressUri)) ==> r == Get(payload, EmailAddressUri)
    ensures !Truthy(Get(payload, "email")) && !Truthy(Get(payload, EmailAddressUri)) ==> r == Null
  {
    Or(Get(payload, "email"), Or(Get(payload, EmailAddressUri), Null))
  }

  /** The first truthy of `role`, `roles` and the role URI claim, or the empty array. */
  function RawRoles(payload: Js): (r: Js)
    ensures Truthy(r)
    ensures Truthy(Get(payload, "role")) ==> r == Get(payload, "role")
    ensures !Truthy(Get(payload, "role")) && Truthy(Get(payload, "roles")) ==> r == Get(payload, "roles")
    ensures !Truthy(Get(payload, "role")) && !Truthy(Get(payload, "roles")) && Truthy(Get(payload, RoleUri)) ==> r == Get(payload, RoleUri)
    ensures !Truthy(Get(payload, "role")) && !Truthy(Get(payload, "roles")) && !Truthy(Get(payload, RoleUri)) ==> r == Arr([])
  {
    Or(Get(payload, "role"), Or(Get(payload, "roles"), Or(Get(payload, RoleUri), Arr([]))))
  }

  /** `Array.isArray(rawRoles) ? rawRoles : [rawRoles]`: always an array. A missing role claim
      gives no roles, a single role becomes a one-element list. */
  function RolesClaim(payload: Js): (r: seq<Js>)
    ensures RawRoles(payload).Arr? ==> r == RawRoles(payload).items
    ensures !RawRoles(payload).Arr? ==> r == [RawRoles(payload)] && Truthy(r[0])
  {
    AsArray(RawRoles(payload))
  }

  /** A token without any role claim carries no roles. */
  lemma NoRoleClaimNoRoles(payload: Js)
    requires !Truthy(Get(payload, "role")) && !Truthy(Get(payload, "roles")) && !Truthy(Get(payload, RoleUri))
    ensures RolesClaim(payload) == []
  {
  }

  /** A single role given as a string is wrapped into a one-element list. */
  lemma SingleRoleIsWrapped(payload: Js, role: string)
    requires Get(payload, "role") == Str(role) && role != ""
    ensures RolesClaim(payload) == [Str(role)]
  {
  }
}
