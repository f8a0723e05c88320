/** The authentication service: the token store over the browser's key-value storage, the
    admin login call, and the headers and URL of every authenticated request. */
module Auth {
  import opened Common
  import opened Http

  const ApiBaseUrl := "https://api.uzbekfoodstaff.ae/api/v1"
  const AccessTokenKey := "access_token"
  const RefreshTokenKey := "refresh_token"
  const LangKey := "lang"
  const LoginPath := "/user/admin/login/"

  /** The browser's `localStorage`: string keys to string values. */
  class LocalStorage {
    var items: map<string, string>

    constructor (items: map<string, string>)
      ensures this.items == items
    {
      this.items := items;
    }

    function GetItem(key: string): (v: Option<string>)
      reads this
      ensures v.Some? <==> key in items
      ensures v.Some? ==> v.value == items[key]
    {
      if key in items then Some(items[key]) else None
    }

    method SetItem(key: string, value: string)
      modifies this
      ensures items == old(items)[key := value]
    {
      items := items[key := value];
    }

    method RemoveItem(key: string)
      modifies this
      ensures items == old(items) - {key}
    {
      items := items - {key};
    }
  }

  datatype LoginResponse = LoginResponse(success: bool, statusCode: int, message: string, refresh: string, access: string)

  /** What `login` does with its caller: returns the decoded response, or throws. */
  datatype LoginOutcome = Returned(response: LoginResponse) | Threw(message: string)

  /** `getItem("lang") || "ru"` */
  function LangOrDefault(items: map<string, string>): (lang: string)
    ensures LangKey in items && items[LangKey] != "" ==> lang == items[LangKey]
    ensures !(LangKey in items && items[LangKey] != "") ==> lang == "ru"
  {
    if LangKey in items && items[LangKey] != "" then items[LangKey] else "ru"
  }

  /** `!!getItem("access_token")`: a stored, non-empty access token. */
  predicate HasToken(items: map<string, string>) {
    AccessTokenKey in items && items[AccessTokenKey] != ""
  }

  /** The headers of an authenticated request: a JSON content type unless the body is form
      data, a Bearer credential when a token is stored (section 2.1 of RFC 6750), the UI
      language, and then the caller's own headers, which win over all of these. */
  function RequestHeaders(items: map<string, string>, isFormData: bool, callerHeaders: map<string, string>)
    : (h: map<string, string>)
    ensures forall k :: k in callerHeaders ==> k in h && h[k] == callerHeaders[k]
    ensures forall k :: k in h ==> k in callerHeaders || k in {"Content-Type", "Authorization", "Accept-Language"}
    ensures "Content-Type" !in callerHeaders ==>
              ("Content-Type" in h <==> !isFormData)
              && (!isFormData ==> h["Content-Type"] == "application/json")
    ensures "Authorization" !in callerHeaders ==>
              ("Authorization" in h <==> HasToken(items))
              && (HasToken(items) ==> h["Authorization"] == "Bearer " + items[AccessTokenKey])
    ensures "Accept-Language" !in callerHeaders ==>
              "Accept-Language" in h && h["Accept-Language"] == LangOrDefault(items)
  {
    var contentType: map<string, string> := if isFormData then map[] else map["Content-Type" := "application/json"];
    var auth: map<string, string> := if HasToken(items) then map["Authorization" := "Bearer " + items[AccessTokenKey]] else map[];
    contentType + auth + map["Accept-Language" := LangOrDefault(items)] + callerHeaders
  }

  /** With no header of its own from the caller, a signed-in request carries exactly the
      three default headers, and the credential is "Bearer", one space, then the token. */
  lemma SignedInDefaults(items: map<string, string>)
    requires HasToken(items)
    ensures var h := RequestHeaders(items, false, map[]);
            h.Keys == {"Content-Type", "Authorization", "Accept-Language"}
            && StartsWith(h["Authorization"], "Bearer ")
            && h["Authorization"][7..] == items[AccessTokenKey]
  {
    var h := RequestHeaders(items, false, map[]);
    assert "Content-Type" in h && "Authorization" in h && "Accept-Language" in h;
    assert h["Authorization"] == "Bearer " + items[AccessTokenKey];
  }

  /** The URL of a call: the API base followed by the endpoint. */
  function RequestUrl(endpoint: string): (url: string)
    ensures StartsWith(url, ApiBaseUrl) && url[|ApiBaseUrl|..] == endpoint
  {
    ApiBaseUrl + endpoint
  }

  /** One outgoing fetch: URL, method, headers and body. */
  datatype Call = Call(url: string, verb: Method, headers: map<string, string>, body: Body)

  /** `makeAuthenticatedRequest(endpoint, options)`; a multipart body is form data. */
  function AuthenticatedCall(items: map<string, string>, endpoint: string, verb: Method, body: Body,
                             callerHeaders: map<string, string>): (c: Call)
    ensures c.url == RequestUrl(endpoint) && c.verb == verb && c.body == body
    ensures c.headers == RequestHeaders(items, body.Multipart?, callerHeaders)
  {
    Call(RequestUrl(endpoint), verb, RequestHeaders(items, body.Multipart?, callerHeaders), body)
  }

  class AuthService {
    const storage: LocalStorage
    /** The login calls issued, in order. */
    var calls: seq<Call>

    constructor (storage: LocalStorage)
      ensures this.storage == storage && calls == []
    {
      this.storage := storage;
      calls := [];
    }

    function GetAccessToken(): (t: Option<string>)
      reads this, storage
      ensures t == storage.GetItem(AccessTokenKey)
    {
      storage.GetItem(AccessTokenKey)
    }

    function GetRefreshToken(): (t: Option<string>)
      reads this, storage
      ensures t == storage.GetItem(RefreshTokenKey)
    {
      storage.GetItem(RefreshTokenKey)
    }

    /** `!!getAccessToken()`: signed in exactly when a non-empty access token is stored. */
    function IsAuthenticated(): (b: bool)
      reads this, storage
      ensures b <==> HasToken(storage.items)
    {
      var t := GetAccessToken();
      t.Some? && t.value != ""
    }

    /** POST the credentials. A non-ok response throws "Login failed" and a failed fetch
        throws its own error, both storing nothing. An ok response is returned as decoded;
        only when it reports success are both tokens stored. */
    method Login(email: string, password: string, reply: Reply<LoginResponse>) returns (outcome: LoginOutcome)
      modifies this, storage
      ensures calls == old(calls) + [Call(RequestUrl(LoginPath), POST, map["Content-Type" := "application/json"],
                                         Json([Field("email", Str(email)), Field("password", Str(password))]))]
      ensures reply.NotOk? ==> outcome == Threw("Login failed") && storage.items == old(storage.items)
      ensures reply.Thrown? ==> outcome == Threw(reply.message) && storage.items == old(storage.items)
      ensures reply.Ok? ==> outcome == Returned(reply.body)
      ensures reply.Ok? && reply.body.success ==>
                storage.items == old(storage.items)[AccessTokenKey := reply.body.access][RefreshTokenKey := reply.body.refresh]
      ensures reply.Ok? && !reply.body.success ==> storage.items == old(storage.items)
    {
      calls := calls + [Call(RequestUrl(LoginPath), POST, map["Content-Type" := "application/json"],
                             Json([Field("email", Str(email)), Field("password", Str(password))]))];
      if reply.NotOk? {
        return Threw("Login failed");
      }
      if reply.Thrown? {
        return Threw(reply.message);
      }
      var data := reply.body;
      if data.success {
        storage.SetItem(AccessTokenKey, data.access);
        storage.SetItem(RefreshTokenKey, data.refresh);
      }
      outcome := Returned(data);
    }

    method Logout()
      modifies storage
      ensures storage.items == old(storage.items) - {AccessTokenKey, RefreshTokenKey}
      ensures !IsAuthenticated()
    {
      storage.RemoveItem(AccessTokenKey);
      storage.RemoveItem(RefreshTokenKey);
    }

    /** The call for `endpoint` with the headers built from what is stored now. */
    function MakeAuthenticatedRequest(endpoint: string, verb: Method, body: Body, callerHeaders: map<string, string>)
      : (c: Call)
      reads this, storage
      ensures c == AuthenticatedCall(storage.items, endpoint, verb, body, callerHeaders)
      ensures "Authorization" !in callerHeaders ==> ("Authorization" in c.headers <==> IsAuthenticated())
    {
      AuthenticatedCall(storage.items, endpoint, verb, body, callerHeaders)
    }
  }

  /** Signing in with a successful response signs the service in. */
  lemma {:induction false} SuccessfulLoginAuthenticates(before: map<string, string>, r: LoginResponse)
    requires r.success && r.access != ""
    ensures HasToken(before[AccessTokenKey := r.access][RefreshTokenKey := r.refresh])
  {
    var after := before[AccessTokenKey := r.access][RefreshTokenKey := r.refresh];
    assert AccessTokenKey != RefreshTokenKey by {
      assert AccessTokenKey[0] == 'a' && RefreshTokenKey[0] == 'r';
    }
    assert after[AccessTokenKey] == r.access;
  }

  /** The module-level `AuthService.instance`, created on first use. */
  class AuthServiceHolder {
    var instance: Option<AuthService>

    constructor ()
      ensures instance == None
    {
      instance := None;
    }

    /** Every call returns the one instance: created by the first call, reused after. */
    method GetInstance(storage: LocalStorage) returns (s: AuthService)
      modifies this
      ensures old(instance).Some? ==> s == old(instance).value
      ensures old(instance).None? ==> fresh(s) && s.storage == storage && s.calls == []
      ensures instance == Some(s)
    {
      if instance.None? {
        var created := new AuthService(storage);
        instance := Some(created);
      }
      s := instance.value;
    }
  }

  /** Two calls in a row return the same instance. */
  method GetInstanceTwice(holder: AuthServiceHolder, storage: LocalStorage) returns (a: AuthService, b: AuthService)
    modifies holder
    ensures a == b
  {
    a := holder.GetInstance(storage);
    b := holder.GetInstance(storage);
  }
}
