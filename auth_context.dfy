/** auth/AuthContext: the React context variant of the session (token, identity, login and
    logout). It reads identities with `Jwt.GetUserFromTokenAsWritten`, the picker as the
    source has it, so the provider publishes a token but never an identity. */
module AuthContext {
  import opened JsValues
  import Jwt
  import TokenStorage

  const NoTokenMessage := "Login OK ma token non trovato nella risposta."

  /** `result?.token || result?.accessToken || result?.jwt` */
  function ReceivedToken(result: Js): (t: Js)
    ensures Truthy(Get(result, "token")) ==> t == Get(result, "token")
    ensures !Truthy(Get(result, "token")) && Truthy(Get(result, "accessToken")) ==> t == Get(result, "accessToken")
    ensures !Truthy(Get(result, "token")) && !Truthy(Get(result, "accessToken")) ==> t == Get(result, "jwt")
  {
    Or(Get(result, "token"), Or(Get(result, "accessToken"), Get(result, "jwt")))
  }

  /** `token ? getUserFromToken(token) : null`: the identity read for a token. Only a truthy
      token reaches the picker, whose guard turns every truthy token away, so the read never
      throws and never yields an identity. */
  function ReadUser(token: Js, decode: Jwt.Decoder): (r: Throws<Option<Jwt.Identity>>)
    ensures r == Returned(None)
  {
    if Truthy(token) then Jwt.GetUserFromTokenAsWritten(token, decode) else Returned(None)
  }

  /** The value the provider publishes. */
  datatype AuthValue = AuthValue(token: Js, user: Option<Jwt.Identity>, isAuthenticated: bool)

  class AuthProvider {
    var token: Js
    var user: Option<Jwt.Identity>
    const storage: TokenStorage.Storage
    const decode: Jwt.Decoder

    /** The identity is the one read from the token. */
    ghost predicate Valid()
      reads this
    {
      ReadUser(token, decode) == Returned(user)
    }

    /** The initial state comes from storage: the stored token, and the identity read from
        it, which is always none. */
    constructor (storage: TokenStorage.Storage, decode: Jwt.Decoder)
      ensures this.storage == storage && this.decode == decode
      ensures token == storage.saved && user == None && Valid()
    {
      this.storage := storage;
      this.decode := decode;
      var initial := storage.GetToken();
      token := initial;
      user := ReadUser(initial, decode).value;
    }

    /** `!!token` */
    function IsAuthenticated(): (b: bool)
      reads this
      ensures b <==> Truthy(token)
    {
      Truthy(token)
    }

    function Value(): (v: AuthValue)
      reads this
      ensures v.token == token && v.user == user && v.isAuthenticated == IsAuthenticated()
    {
      AuthValue(token, user, IsAuthenticated())
    }

    /** `login(credentials)` once `loginApi` has settled with `response`. A rejected call or
        a reply without a token changes nothing. Otherwise the token is stored and published
        and the identity is read from it, which leaves the user empty: the session is
        authenticated without an identity. */
    method Login(response: Throws<Js>) returns (outcome: Throws<()>)
      modifies this, storage
      ensures response.Threw? ==> outcome == Threw(response.message)
      ensures response.Returned? && !Truthy(ReceivedToken(response.value)) ==> outcome == Threw(NoTokenMessage)
      ensures outcome.Threw? ==> token == old(token) && user == old(user) && storage.saved == old(storage.saved)
      ensures response.Returned? && Truthy(ReceivedToken(response.value)) ==>
        var t := ReceivedToken(response.value);
        outcome == Returned(()) && token == t && storage.saved == t && user == None
      ensures outcome.Returned? ==> Valid() && IsAuthenticated() && user == None
    {
      if response.Threw? {
        return Threw(response.message);
      }
      var received := ReceivedToken(response.value);
      if !Truthy(received) {
        return Threw(NoTokenMessage);
      }
      storage.SetToken(received);
      token := received;
      user := Jwt.GetUserFromTokenAsWritten(received, decode).value;
      return Returned(());
    }

    method Logout()
      modifies this, storage
      ensures token == Null && user == None && storage.saved == Null
      ensures Valid() && !IsAuthenticated()
    {
      storage.ClearToken();
      token := Null;
      user := None;
    }
  }

  /** `useAuth()`: outside a provider there is no context and the hook throws. */
  function UseAuth(ctx: Option<AuthValue>): (r: Throws<AuthValue>)
    ensures ctx.None? <==> r.Threw?
    ensures ctx.Some? ==> r == Returned(ctx.value)
  {
    if ctx.None? then Threw("useAuth must be used inside AuthProvider") else Returned(ctx.value)
  }
}
