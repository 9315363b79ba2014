/** The persisted bearer token. auth/tokenStorage is not part of this model: it is taken to
    hold exactly the value last handed to `setToken`, and `null` after `clearToken`. */
module TokenStorage {
  import opened JsValues

  class Storage {
    var saved: Js

    constructor (initial: Js)
      ensures saved == initial
    {
      saved := initial;
    }

    /** `getToken()` */
    function GetToken(): Js
      reads this
    {
      saved
    }

    /** `setToken(t)` */
    method SetToken(t: Js)
      modifies this
      ensures saved == t
    {
      saved := t;
    }

    /** `clearToken()` */
    method ClearToken()
      modifies this
      ensures saved == Null
    {
      saved := Null;
    }
  }
}
