/** api/http: the one request function every API call goes through. */
module Http {
  import opened JsValues
  import opened Text
  import TokenStorage

  type Headers = map<string, string>

  datatype Request = Request(url: string, headers: Headers)

  /** What the client reads of a response: the status, the `content-type` header (absent
      when the server sends none) and the JSON body. */
  datatype Response = Response(status: int, contentType: Option<string>, body: Js)

  /** The request headers: JSON by default, the caller's headers over that, and the bearer
      token over everything when one is stored. */
  function BuildHeaders(caller: Headers, token: Js): (h: Headers)
    ensures "Content-Type" in h
    ensures h["Content-Type"] == if "Content-Type" in caller then caller["Content-Type"] else "application/json"
    ensures Truthy(token) ==> "Authorization" in h && h["Authorization"] == "Bearer " + ToStr(token)
    ensures !Truthy(token) ==> ("Authorization" in h <==> "Authorization" in caller)
    ensures !Truthy(token) && "Authorization" in caller ==> h["Authorization"] == caller["Authorization"]
    ensures forall k :: k != "Content-Type" && k != "Authorization" ==> (k in h <==> k in caller)
    ensures forall k :: k in caller && k != "Content-Type" && k != "Authorization" ==> h[k] == caller[k]
  {
    var merged := map["Content-Type" := "application/json"] + caller;
    if Truthy(token) then merged["Authorization" := "Bearer " + ToStr(token)] else merged
  }

  /** `res.ok` */
  predicate IsOk(status: int) {
    200 <= status <= 299
  }

  /** The body is read as JSON only when the content type says so. */
  predicate HasJson(res: Response) {
    Includes(if res.contentType.Some? then res.contentType.value else "", "application/json")
  }

  function ResponseData(res: Response): (data: Js)
    ensures HasJson(res) ==> data == res.body
    ensures !HasJson(res) ==> data == Null
  {
    if HasJson(res) then res.body else Null
  }

  /** The message of the error thrown for a failed response: the body's `message`, `error`
      or `title`, whichever comes first and is truthy, or else `HTTP <status>`. */
  function ErrorMessage(data: Js, status: int): (m: string)
    ensures Truthy(data) && Truthy(Get(data, "message")) ==> m == ToStr(Get(data, "message"))
    ensures Truthy(data) && !Truthy(Get(data, "message")) && Truthy(Get(data, "error")) ==> m == ToStr(Get(data, "error"))
    ensures Truthy(data) && !Truthy(Get(data, "message")) && !Truthy(Get(data, "error")) && Truthy(Get(data, "title")) ==> m == ToStr(Get(data, "title"))
    ensures !Truthy(data) || (!Truthy(Get(data, "message")) && !Truthy(Get(data, "error")) && !Truthy(Get(data, "title")))
      ==> m == "HTTP " + IntToDecimal(status)
  {
    var detail := if Truthy(data) then Or(Get(data, "message"), Or(Get(data, "error"), Get(data, "title"))) else data;
    ToStr(Or(detail, Str("HTTP " + IntToDecimal(status))))
  }

  /** What `http` resolves to or rejects with once the response is in. */
  function Outcome(res: Response): (r: Throws<Js>)
    ensures r.Returned? <==> IsOk(res.status)
    ensures r.Returned? ==> r.value == ResponseData(res)
    ensures r.Threw? ==> r.message == ErrorMessage(ResponseData(res), res.status)
  {
    if IsOk(res.status) then Returned(ResponseData(res)) else Threw(ErrorMessage(ResponseData(res), res.status))
  }

  /** A failed response without a usable JSON detail is reported with its status code in the
      message, which is what the pages look for when they pick a friendly text. */
  lemma StatusInMessage(res: Response)
    requires !IsOk(res.status)
    requires !HasJson(res) || !Truthy(res.body)
      || (!Truthy(Get(res.body, "message")) && !Truthy(Get(res.body, "error")) && !Truthy(Get(res.body, "title")))
    ensures Outcome(res) == Threw("HTTP " + IntToDecimal(res.status))
    ensures Includes(Outcome(res).message, IntToDecimal(res.status))
  {
    var d := IntToDecimal(res.status);
    var m := "HTTP " + d;
    assert OccursAt(m, d, 5);
  }

  /** `http(path, { headers })` with `fetch` as a parameter: it sends the request built from
      the stored token, forgets the token on a 401, and settles with `Outcome`. A rejected
      `fetch` rejects `http` with the same error and touches nothing. */
  method Send(storage: TokenStorage.Storage, baseUrl: string, path: string, caller: Headers,
              fetch: Request -> Throws<Response>) returns (result: Throws<Js>)
    modifies storage
    ensures var req := Request(baseUrl + path, BuildHeaders(caller, old(storage.saved)));
      match fetch(req)
      case Threw(m) => result == Threw(m) && storage.saved == old(storage.saved)
      case Returned(res) =>
        result == Outcome(res) && storage.saved == if res.status == 401 then Null else old(storage.saved)
  {
    var headers := BuildHeaders(caller, storage.GetToken());
    var sent := fetch(Request(baseUrl + path, headers));
    if sent.Threw? {
      return Threw(sent.message);
    }
    var res := sent.value;
    if res.status == 401 {
      storage.ClearToken();
    }
    result := Outcome(res);
  }
}
