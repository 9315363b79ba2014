/** routes/RequireAuth: the guard in front of the pages that need a signed-in user. */
module RequireAuth {
  import opened JsValues

  /** What a guard renders: a `<Navigate replace>` carrying the current location, or the
      nested route. */
  datatype Decision = Redirect(to: string, replace: bool, from: string) | RenderOutlet

  /** No token in the store: off to the login page, remembering where the user was going. */
  function Guard(token: Js, location: string): (d: Decision)
    ensures d.RenderOutlet? <==> Truthy(token)
    ensures d.Redirect? ==> d == Redirect("/login", true, location)
  {
    if !Truthy(token) then Redirect("/login", true, location) else RenderOutlet
  }
}
