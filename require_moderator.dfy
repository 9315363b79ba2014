/** routes/RequireModerator: the guard in front of the moderation page. */
module RequireModerator {
  import opened JsValues
  import AuthSlice
  import Jwt
  import RequireAuth

  predicate IsModerator(user: Option<AuthSlice.SliceUser>) {
    user.Some? && Str("Moderator") in user.value.roles
  }

  /** Without a token: to the login page. With a token but without the Moderator role: to
      the home page. Otherwise the nested route. */
  function Guard(token: Js, user: Option<AuthSlice.SliceUser>, location: string): (d: RequireAuth.Decision)
    ensures d.RenderOutlet? <==> Truthy(token) && IsModerator(user)
    ensures !Truthy(token) ==> d == RequireAuth.Redirect("/login", true, location)
    ensures Truthy(token) && !IsModerator(user) ==> d == RequireAuth.Redirect("/", true, location)
  {
    if !Truthy(token) then RequireAuth.Redirect("/login", true, location)
    else if !IsModerator(user) then RequireAuth.Redirect("/", true, location)
    else RequireAuth.RenderOutlet
  }

  /** On a consistent store (the user is the one read from the token) the moderator guard
      admits exactly the tokens whose role claims name Moderator, and it admits no one the
      plain guard would turn away. */
  lemma AdmitsExactlyModerators(token: Js, user: Option<AuthSlice.SliceUser>, decode: Jwt.Decoder, location: string)
    requires AuthSlice.GetUserFromToken(token, decode) == Returned(user)
    ensures Guard(token, user, location).RenderOutlet? <==>
      Truthy(token) && Str("Moderator") in AuthSlice.UserOf(Jwt.JwtDecode(token, decode).value).roles
    ensures Guard(token, user, location).RenderOutlet? ==> RequireAuth.Guard(token, location).RenderOutlet?
  {
  }
}
