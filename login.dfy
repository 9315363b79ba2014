/** pages/Login: the sign-in form. It hands the token to the redux store. */
module Login {
  import opened JsValues
  import opened Text
  import AuthSlice
  import AuthContext
  import Http

  /** The friendly text for a failed sign-in, chosen from the error's message. */
  function LoginErrorText(msg: string): (r: string)
    ensures r != ""
    ensures Includes(msg, "401") ==> r == "Email o password non corretti."
    ensures !Includes(msg, "401") && Includes(msg, "400") ==> r == "Dati non validi. Controlla email e password."
    ensures !Includes(msg, "401") && !Includes(msg, "400") && msg != "" ==> r == msg
    ensures msg == "" ==> r == "Errore durante il login. Riprova."
  {
    if Includes(msg, "401") then "Email o password non corretti."
    else if Includes(msg, "400") then "Dati non validi. Controlla email e password."
    else if msg != "" then msg
    else "Errore durante il login. Riprova."
  }

  /** The message `http` throws for a 401 or 400 response without a JSON body. */
  lemma BareStatusMessage(res: Http.Response)
    requires res.status == 401 || res.status == 400
    requires !Http.HasJson(res)
    ensures res.status == 401 ==> Http.Outcome(res) == Threw("HTTP 401")
    ensures res.status == 400 ==> Http.Outcome(res) == Threw("HTTP 400")
  {
    Http.StatusInMessage(res);
    StatusDigits();
  }

  lemma StatusDigits()
    ensures IntToDecimal(401) == "401" && IntToDecimal(400) == "400"
  {
    assert NatToDecimal(4) == "4";
    assert NatToDecimal(40) == "40";
  }

  /** A rejected sign-in that reaches the client as a bare 401 is reported as wrong
      credentials, and a bare 400 as invalid data. */
  lemma BareStatusesAreExplained(res: Http.Response)
    requires res.status == 401 || res.status == 400
    requires !Http.HasJson(res)
    ensures res.status == 401 ==> LoginErrorText(Http.Outcome(res).message) == "Email o password non corretti."
    ensures res.status == 400 ==> LoginErrorText(Http.Outcome(res).message) == "Dati non validi. Controlla email e password."
  {
    BareStatusMessage(res);
    if res.status == 401 {
      assert OccursAt("HTTP 401", "401", 5);
    } else {
      assert OccursAt("HTTP 400", "400", 5);
      NoOneInHttp400();
    }
  }

  lemma NoOneInHttp400()
    ensures !Includes("HTTP 400", "401")
  {
    var m := "HTTP 400";
    forall i | 0 <= i <= |m| - 3 ensures !OccursAt(m, "401", i) {
      assert m[i..i + 3][2] == m[i + 2];
    }
  }

  class LoginPage {
    var form: map<string, string>
    var loading: bool
    var error: Option<string>
    /** The routes the page has navigated to, oldest first. */
    var navigatedTo: seq<string>
    const store: AuthSlice.AuthStore

    constructor (store: AuthSlice.AuthStore)
      ensures form == map["email" := "", "password" := ""]
      ensures !loading && error == None && navigatedTo == [] && this.store == store
    {
      form := map["email" := "", "password" := ""];
      loading := false;
      error := None;
      navigatedTo := [];
      this.store := store;
    }

    /** A field edit: only the named field changes. */
    method HandleChange(name: string, value: string)
      modifies this
      ensures form == old(form)[name := value]
      ensures loading == old(loading) && error == old(error) && navigatedTo == old(navigatedTo)
    {
      form := form[name := value];
    }

    /** The synchronous half of `handleSubmit`: the old error goes, the spinner starts, and
        the form is what is sent. */
    method BeginSubmit() returns (sent: map<string, string>)
      modifies this
      ensures error == None && loading
      ensures sent == form && form == old(form) && navigatedTo == old(navigatedTo)
    {
      error := None;
      loading := true;
      sent := form;
    }

    /** The rest of `handleSubmit` once `loginApi` has settled with `response`. Only a reply
        carrying a token the store accepts signs the user in and moves on to the dashboard;
        every other path leaves the store and the route alone and shows a friendly error. The
        spinner always stops. */
    method CompleteSubmit(response: Throws<Js>)
      modifies this, store, store.storage
      ensures !loading && form == old(form)
      ensures response.Threw? ==> error == Some(LoginErrorText(response.message))
      ensures response.Returned? && !Truthy(AuthContext.ReceivedToken(response.value)) ==>
        error == Some(LoginErrorText(AuthContext.NoTokenMessage))
      ensures !(response.Returned? && Truthy(AuthContext.ReceivedToken(response.value))
                && AuthSlice.GetUserFromToken(AuthContext.ReceivedToken(response.value), store.decode).Returned?) ==>
        error.Some? && navigatedTo == old(navigatedTo) && store.token == old(store.token) && store.user == old(store.user)
        && store.storage.saved == old(store.storage.saved)
      ensures response.Returned? && Truthy(AuthContext.ReceivedToken(response.value)) ==>
        var t := AuthContext.ReceivedToken(response.value);
        var u := AuthSlice.GetUserFromToken(t, store.decode);
        (u.Threw? ==> error == Some(LoginErrorText(u.message))) &&
        (u.Returned? ==>
           error == old(error) && store.token == t && store.user == u.value
           && store.storage.saved == t && store.Valid() && navigatedTo == old(navigatedTo) + ["/dashboard"])
    {
      var failure: Option<string> := None;
      if response.Threw? {
        failure := Some(response.message);
      } else {
        var token := AuthContext.ReceivedToken(response.value);
        if !Truthy(token) {
          failure := Some(AuthContext.NoTokenMessage);
        } else {
          var dispatched := store.SetCredentials(token);
          if dispatched.Threw? {
            failure := Some(dispatched.message);
          } else {
            navigatedTo := navigatedTo + ["/dashboard"];
          }
        }
      }
      if failure.Some? {
        error := Some(LoginErrorText(failure.value));
      }
      loading := false;
    }
  }
}
