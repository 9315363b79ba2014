/** auth/jwt: turning a bearer token into the identity the context exposes. */
module Jwt {
  import opened JsValues
  import opened Claims

  /** The `jwt-decode` library, as a parameter: `Some(payload)` for a token it can decode,
      `None` where it throws. */
  type Decoder = string -> Option<Js>

  /** `jwtDecode(token)`: the library refuses anything that is not a string. */
  function JwtDecode(token: Js, decode: Decoder): (r: Throws<Js>)
    ensures !token.Str? ==> r.Threw?
    ensures token.Str? ==> (r.Returned? <==> decode(token.s).Some?)
    ensures r.Returned? ==> r.value == decode(token.s).value
  {
    if !token.Str? then Threw("Invalid token specified: must be a string")
    else match decode(token.s)
      case Some(payload) => Returned(payload)
      case None => Threw("Invalid token specified")
  }

  datatype Identity = Identity(userId: Js, username: Js, email: Js, roles: seq<Js>, claims: Js)

  /** The identity read from a decoded payload; the payload itself is kept as `claims`. */
  function IdentityOf(payload: Js): (u: Identity)
    ensures u.userId == UserIdClaim(payload) && u.username == UsernameClaim(payload)
    ensures u.email == EmailClaim(payload) && u.roles == RolesClaim(payload)
    ensures u.claims == payload
  {
    Identity(UserIdClaim(payload), UsernameClaim(payload), EmailClaim(payload), RolesClaim(payload), payload)
  }

  /** `getUserFromToken` as written: the guard returns `null` for every truthy token, and a
      falsy token goes on to `jwtDecode`. */
  function GetUserFromTokenAsWritten(token: Js, decode: Decoder): (r: Throws<Option<Identity>>)
    ensures Truthy(token) ==> r == Returned(None)
    ensures !Truthy(token) && !token.Str? ==> r.Threw?
  {
    if Truthy(token) then Returned(None)
    else match JwtDecode(token, decode)
      case Returned(payload) => Returned(Some(IdentityOf(payload)))
      case Threw(m) => Threw(m)
  }

  /** As written, no token ever yields a user: a truthy one is turned away by the guard, and
      the only falsy string, "", is not a token the decoder accepts. */
  lemma AsWrittenNeverYieldsUser(token: Js, decode: Decoder)
    requires decode("").None?
    ensures var r := GetUserFromTokenAsWritten(token, decode); !(r.Returned? && r.value.Some?)
  {
    if !Truthy(token) && token.Str? {
      assert token.s == "";
    }
  }

  /** `getUserFromToken` with the guard the function evidently intends (`if (!token)`): no
      token, no user; a token the decoder accepts gives the identity it carries. */
  function GetUserFromToken(token: Js, decode: Decoder): (r: Throws<Option<Identity>>)
    ensures !Truthy(token) ==> r == Returned(None)
    ensures Truthy(token) ==> (r.Returned? <==> JwtDecode(token, decode).Returned?)
    ensures Truthy(token) && r.Returned? ==> r.value == Some(IdentityOf(JwtDecode(token, decode).value))
  {
    if !Truthy(token) then Returned(None)
    else match JwtDecode(token, decode)
      case Returned(payload) => Returned(Some(IdentityOf(payload)))
      case Threw(m) => Threw(m)
  }

  /** The two versions part on every token the decoder accepts: as written it yields `null`,
      corrected it yields the token's identity. */
  lemma GuardFinding(t: string, decode: Decoder)
    requires t != "" && decode(t).Some?
    ensures GetUserFromTokenAsWritten(Str(t), decode) == Returned(None)
    ensures GetUserFromToken(Str(t), decode) == Returned(Some(IdentityOf(decode(t).value)))
  {
  }
}
