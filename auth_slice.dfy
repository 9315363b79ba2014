/** store/authSlice: the redux slice holding the bearer token and the user read from it. */
module AuthSlice {
  import opened JsValues
  import opened Claims
  import Jwt
  import TokenStorage

  /** The user the slice keeps: no email and no raw claims, unlike auth/jwt's identity. */
  datatype SliceUser = SliceUser(userId: Js, username: Js, roles: seq<Js>)

  function UserOf(payload: Js): (u: SliceUser)
    ensures u.userId == UserIdClaim(payload) && u.username == UsernameClaim(payload)
    ensures u.roles == RolesClaim(payload)
  {
    SliceUser(UserIdClaim(payload), UsernameClaim(payload), RolesClaim(payload))
  }

  /** The slice's own `getUserFromToken`, whose guard reads `if (!token)`. */
  function GetUserFromToken(token: Js, decode: Jwt.Decoder): (r: Throws<Option<SliceUser>>)
    ensures !Truthy(token) ==> r == Returned(None)
    ensures Truthy(token) ==> (r.Returned? <==> Jwt.JwtDecode(token, decode).Returned?)
    ensures Truthy(token) && r.Returned? ==> r.value == Some(UserOf(Jwt.JwtDecode(token, decode).value))
  {
    if !Truthy(token) then Returned(None)
    else match Jwt.JwtDecode(token, decode)
      case Returned(payload) => Returned(Some(UserOf(payload)))
      case Threw(m) => Threw(m)
  }

  /** The slice's user agrees with the (corrected) auth/jwt identity on every field the two
      share: the claim priorities are the same. */
  lemma AgreesWithJwt(token: Js, decode: Jwt.Decoder)
    ensures GetUserFromToken(token, decode).Returned? <==> Jwt.GetUserFromToken(token, decode).Returned?
    ensures GetUserFromToken(token, decode).Returned? ==>
      (GetUserFromToken(token, decode).value.None? <==> Jwt.GetUserFromToken(token, decode).value.None?)
    ensures GetUserFromToken(token, decode).Returned? && GetUserFromToken(token, decode).value.Some? ==>
      var u, i := GetUserFromToken(token, decode).value.value, Jwt.GetUserFromToken(token, decode).value.value;
      u.userId == i.userId && u.username == i.username && u.roles == i.roles
  {
  }

  /** The slice state `{ token, user }` together with the storage it mirrors. */
  class AuthStore {
    var token: Js
    var user: Option<SliceUser>
    const storage: TokenStorage.Storage
    const decode: Jwt.Decoder

    /** The user is always the one read from the token: no token, no user. */
    ghost predicate Valid()
      reads this
    {
      GetUserFromToken(token, decode) == Returned(user)
    }

    /** The initial state, read from storage when the module loads. A stored token the
        decoder refuses makes the module itself throw; that start is excluded here. */
    constructor (storage: TokenStorage.Storage, decode: Jwt.Decoder)
      requires GetUserFromToken(storage.saved, decode).Returned?
      ensures this.storage == storage && this.decode == decode
      ensures token == Or(storage.saved, Null)
      ensures user == GetUserFromToken(storage.saved, decode).value
      ensures Valid()
    {
      this.storage := storage;
      this.decode := decode;
      var initial := storage.GetToken();
      token := Or(initial, Null);
      user := if Truthy(initial) then GetUserFromToken(initial, decode).value else None;
    }

    /** `dispatch(setCredentials(t))`. When decoding throws, the reducer throws before the
        storage write and the draft is discarded: nothing changes. */
    method SetCredentials(t: Js) returns (outcome: Throws<()>)
      modifies this, storage
      ensures outcome.Threw? <==> GetUserFromToken(t, decode).Threw?
      ensures outcome.Threw? ==> outcome == Threw(GetUserFromToken(t, decode).message)
      ensures outcome.Threw? ==> token == old(token) && user == old(user) && storage.saved == old(storage.saved)
      ensures outcome.Returned? ==> token == t && user == GetUserFromToken(t, decode).value && storage.saved == t
      ensures old(Valid()) || outcome.Returned? ==> Valid()
    {
      var u := GetUserFromToken(t, decode);
      if u.Threw? {
        return Threw(u.message);
      }
      token := t;
      user := u.value;
      storage.SetToken(t);
      return Returned(());
    }

    /** `dispatch(logout())` */
    method Logout()
      modifies this, storage
      ensures token == Null && user == None && storage.saved == Null
      ensures Valid()
    {
      token := Null;
      user := None;
      storage.ClearToken();
    }
  }

  /** After a successful `setCredentials` the store holds a user exactly when the token is
      truthy. */
  lemma UserIffToken(token: Js, user: Option<SliceUser>, decode: Jwt.Decoder)
    requires GetUserFromToken(token, decode) == Returned(user)
    ensures user.Some? <==> Truthy(token)
  {
  }
}
