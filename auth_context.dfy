/** The session provider of the client: reading the stored credential, restoring the
    session on start-up, the periodic expiry check, logging in and out, and the
    authenticated request wrapper with its error classification. */
module AuthContext {
  import opened Common
  import opened JsStrings
  import opened JsValues
  import opened TokenCodec
  import opened Http
  import opened Environment

  const BaseUrl := "http://localhost:5000"
  const SessionExpiredMessage := "Session expired. Please log in again."
  const NoAuthTokenMessage := "No authentication token found"
  const GenericErrorMessage := "An error occurred"
  const LoginFailedMessage := "Login failed"

  // ---------------------------------------------------------------- login

  /** The login endpoint: an administrator id wins over a department, and with
      neither the petitioner endpoint is used. */
  function LoginEndpoint(department: JsValue, adminId: JsValue): (r: string)
    ensures r == "/api/admin/login" <==> IsTruthy(adminId)
    ensures r == "/api/login/official" <==> !IsTruthy(adminId) && IsTruthy(department)
    ensures r == "/api/login/petitioner" <==> !IsTruthy(adminId) && !IsTruthy(department)
  {
    if IsTruthy(adminId) then "/api/admin/login"
    else if IsTruthy(department) then "/api/login/official"
    else "/api/login/petitioner"
  }

  /** `typeof email === 'object' ? email.email : email`. `typeof null` is `'object'`,
      so a `null` email throws a `TypeError`. */
  function EmailValue(email: JsValue): (r: Result<JsValue, JsError>)
    ensures r.Err? <==> email == JNull
    ensures r.Err? ==> r.error == TypeError
    ensures !(email.JNull? || email.JArr? || email.JObj?) ==> r == Ok(email)
    ensures email.JObj? ==> r == Ok(Prop(email, "email"))
  {
    match email
    case JNull => Err(TypeError)
    case JArr(_) => Ok(JUndefined)
    case JObj(_) => Ok(Prop(email, "email"))
    case _ => Ok(email)
  }

  /** The login body: `email` and `password` always, and each of `department`,
      `employeeId` and `adminId` only when it is truthy. */
  function LoginPayload(email: JsValue, password: JsValue, department: JsValue,
                        employeeId: JsValue, adminId: JsValue): (r: map<string, JsValue>)
    ensures "email" in r && r["email"] == email
    ensures "password" in r && r["password"] == password
    ensures ("department" in r <==> IsTruthy(department)) && ("department" in r ==> r["department"] == department)
    ensures ("employeeId" in r <==> IsTruthy(employeeId)) && ("employeeId" in r ==> r["employeeId"] == employeeId)
    ensures ("adminId" in r <==> IsTruthy(adminId)) && ("adminId" in r ==> r["adminId"] == adminId)
    ensures r.Keys <= {"email", "password", "department", "employeeId", "adminId"}
  {
    map["email" := email, "password" := password]
    + (if IsTruthy(department) then map["department" := department] else map[])
    + (if IsTruthy(employeeId) then map["employeeId" := employeeId] else map[])
    + (if IsTruthy(adminId) then map["adminId" := adminId] else map[])
  }

  /** The login `POST` with a JSON body. */
  function LoginRequest(endpoint: string, payload: map<string, JsValue>): Request {
    Request("POST", BaseUrl + endpoint, map["Content-Type" := "application/json"], JsonBody(JObj(payload)))
  }

  /** What reading the login reply yields: the parsed `data` of an ok response, or the
      error thrown on the way (failed `fetch`, a body that is not JSON, a non-ok status
      with `data.error || 'Login failed'`, or a `null` body read as `data.token`). */
  function LoginReply(reply: Reply): (r: Result<JsValue, JsError>)
    ensures r.Ok? ==> Succeeded(reply) && !IsNullish(r.value) && reply.response.json == Some(r.value)
    ensures Succeeded(reply) && reply.response.json.Some? && !IsNullish(reply.response.json.value) ==>
              r == Ok(reply.response.json.value)
    ensures reply.Answered? && !reply.response.Ok() && reply.response.json.Some?
            && reply.response.json.value.JObj? ==>
              r == Err(Error(ToStr(Or(Prop(reply.response.json.value, "error"), JStr(LoginFailedMessage)))))
  {
    match reply
    case NetworkFailure => Err(TypeError)
    case Answered(response) =>
      match response.json
      case None => Err(SyntaxError)
      case Some(data) =>
        if IsNullish(data) then Err(TypeError)
        else if !response.Ok() then Err(Error(ToStr(Or(Prop(data, "error"), JStr(LoginFailedMessage)))))
        else Ok(data)
  }

  /** What `localStorage.setItem('user', JSON.stringify(v))` stores: `JSON.stringify`
      gives `undefined` for `undefined`, which is stored as the string `"undefined"`. */
  function StoredForm(v: JsValue, stringifyJson: JsValue -> string): string {
    if v.JUndefined? then "undefined" else stringifyJson(v)
  }

  /** The route chosen after login from `data.user.role`, compared exactly (not
      lower-cased); an official goes where `getRedirectPath` sends the department.
      A `null` or absent user makes `data.user.role` throw. */
  function LandingRoute(profile: JsValue, redirectPath: JsValue -> string): (r: Result<Option<string>, JsError>)
    ensures r.Err? <==> IsNullish(profile)
    ensures r.Ok? && r.value.Some? ==>
              Prop(profile, "role") in {JStr("petitioner"), JStr("official"), JStr("admin")}
    ensures !IsNullish(profile) && Prop(profile, "role") == JStr("admin") ==> r == Ok(Some("/admin/dashboard"))
    ensures !IsNullish(profile) && Prop(profile, "role") == JStr("petitioner") ==> r == Ok(Some("/petitioner/dashboard"))
    ensures !IsNullish(profile) && Prop(profile, "role") == JStr("official") ==>
              r == Ok(Some(redirectPath(Prop(profile, "department"))))
    ensures r == Ok(None) <==>
              !IsNullish(profile) && Prop(profile, "role") !in {JStr("petitioner"), JStr("official"), JStr("admin")}
  {
    if IsNullish(profile) then Err(TypeError)
    else
      var role := Prop(profile, "role");
      if role == JStr("petitioner") then Ok(Some("/petitioner/dashboard"))
      else if role == JStr("official") then Ok(Some(redirectPath(Prop(profile, "department"))))
      else if role == JStr("admin") then Ok(Some("/admin/dashboard"))
      else Ok(None)
  }

  // ---------------------------------------------------------------- logout

  /** The login route of a lower-cased role. */
  function RouteForRole(role: string): (r: string)
    ensures r in {"/login/petitioner", "/login/official", "/login/admin", "/login"}
    ensures r == "/login" <==> role !in {"petitioner", "official", "admin"}
  {
    if role == "petitioner" then "/login/petitioner"
    else if role == "official" then "/login/official"
    else if role == "admin" then "/login/admin"
    else "/login"
  }

  /** Where `logout` navigates for the user it saw: by `user?.role?.toLowerCase()`.
      `None` is the `TypeError` of a role that is neither nullish nor a string. */
  function LogoutRedirect(seen: JsValue): (r: Option<string>)
    ensures r.None? <==> !IsNullish(Prop(seen, "role")) && !Prop(seen, "role").JStr?
    ensures IsNullish(Prop(seen, "role")) ==> r == Some("/login")
    ensures Prop(seen, "role").JStr? ==> r == Some(RouteForRole(ToLower(Prop(seen, "role").s)))
  {
    var role := Prop(seen, "role");
    if IsNullish(role) then Some("/login")
    else if role.JStr? then Some(RouteForRole(ToLower(role.s)))
    else None
  }

  // ---------------------------------------------------------------- API responses

  /** The error codes that end the session. */
  predicate IsSessionCode(code: JsValue) {
    code == JStr("TOKEN_EXPIRED") || code == JStr("TOKEN_INVALID")
    || code == JStr("TOKEN_MISSING") || code == JStr("USER_NOT_FOUND")
  }

  /** How a non-ok response is reported: the message thrown and whether the session
      is ended first. */
  datatype ApiFailure = ApiFailure(message: string, forcesLogout: bool)

  /** `response.statusText || 'An error occurred'`. */
  function StatusFallback(response: Response): (r: string)
    ensures r != ""
  {
    if response.statusText != "" then response.statusText else GenericErrorMessage
  }

  /** The classification of a non-ok response. The "Session expired" error of a session
      code is thrown inside the `try` and caught there, so its message is replaced by
      the status text, as it is for a body that is not JSON (or is `null`). Other
      codes report `message || error || 'An error occurred'`. */
  function ClassifyFailure(response: Response): (f: ApiFailure)
    ensures f.forcesLogout <==> response.json.Some? && IsSessionCode(Prop(response.json.value, "code"))
    ensures f.forcesLogout || response.json.None? || IsNullish(response.json.value) ==>
              f.message == StatusFallback(response)
    ensures response.json.Some? && !IsNullish(response.json.value)
            && !IsSessionCode(Prop(response.json.value, "code")) ==>
              f.message == ToStr(Or(Or(Prop(response.json.value, "message"), Prop(response.json.value, "error")),
                                    JStr(GenericErrorMessage)))
  {
    match response.json
    case None => ApiFailure(StatusFallback(response), false)
    case Some(data) =>
      if IsNullish(data) then ApiFailure(StatusFallback(response), false)
      else if IsSessionCode(Prop(data, "code")) then ApiFailure(StatusFallback(response), true)
      else ApiFailure(ToStr(Or(Or(Prop(data, "message"), Prop(data, "error")), JStr(GenericErrorMessage))), false)
  }

  /** What `handleApiResponse` resolves or rejects with, once its token check passed. */
  function ApiResult(response: Response): (r: Result<Response, JsError>)
    ensures r.Ok? <==> response.Ok()
    ensures r.Ok? ==> r.value == response
    ensures !response.Ok() ==> r == Err(Error(ClassifyFailure(response).message))
  {
    if response.Ok() then Ok(response) else Err(Error(ClassifyFailure(response).message))
  }

  /** A forced logout never reports "Session expired": its message is the status text. */
  lemma ForcedLogoutMessage(response: Response)
    requires !response.Ok() && ClassifyFailure(response).forcesLogout
    requires response.statusText != SessionExpiredMessage
    ensures ApiResult(response) == Err(Error(StatusFallback(response)))
    ensures ApiResult(response) != Err(Error(SessionExpiredMessage))
  {
  }

  // ---------------------------------------------------------------- request preparation

  /** The absolute URL: a URL not starting with `http` is prefixed with the base. */
  function FullUrl(url: string): (r: string)
    ensures StartsWith(r, "http")
    ensures StartsWith(url, "http") ==> r == url
    ensures !StartsWith(url, "http") ==> r == BaseUrl + url
  {
    if StartsWith(url, "http") then url else BaseUrl + url
  }

  /** Prefixing is done at most once. */
  lemma FullUrlIdempotent(url: string)
    ensures FullUrl(FullUrl(url)) == FullUrl(url)
  {
  }

  /** The header object sent: `Authorization` with the bearer credential, JSON
      `Content-Type` unless the body is a `FormData`, then the caller's headers on top. */
  function RequestHeaders(token: string, options: FetchOptions): (r: map<string, string>)
    ensures forall k :: k in options.headers ==> k in r && r[k] == options.headers[k]
    ensures "Authorization" in r
    ensures "Authorization" !in options.headers ==> r["Authorization"] == "Bearer " + token
    ensures "Content-Type" in r <==> !options.body.FormBody? || "Content-Type" in options.headers
    ensures "Content-Type" in r && "Content-Type" !in options.headers ==> r["Content-Type"] == "application/json"
    ensures r.Keys == options.headers.Keys + {"Authorization"} + (if options.body.FormBody? then {} else {"Content-Type"})
  {
    var defaults := map["Authorization" := "Bearer " + token]
      + (if options.body.FormBody? then map[] else map["Content-Type" := "application/json"]);
    defaults + options.headers
  }

  // ---------------------------------------------------------------- the three expiry tests

  /** What the start-up effect concludes from the stored `token` and `user` at `now`. */
  datatype Restore = NoSession | Restored(profile: JsValue, warn: bool) | Rejected

  /** The start-up decision: both keys needed; a credential that decodes, expires after
      `now` (`exp * 1000 > now`, false for NaN) and a stored user that parses restore
      the session; anything else is rejected, which logs out. */
  function RestoreSession(token: Option<string>, storedUser: Option<string>, now: int,
                          parseJson: string -> Option<JsValue>): (r: Restore)
    ensures r.NoSession? <==> !Present(token) || !Present(storedUser)
    ensures r.Restored? ==>
              DecodeToken(token, parseJson).Ok?
              && NumGreater(ExpiryMillis(DecodeToken(token, parseJson).value), now)
              && parseJson(storedUser.value) == Some(r.profile)
              && r.warn == IsTokenExpiringSoon(DecodeToken(token, parseJson).value, now)
    ensures (Present(token) && Present(storedUser) && DecodeToken(token, parseJson).Ok?
             && NumGreater(ExpiryMillis(DecodeToken(token, parseJson).value), now)
             && parseJson(storedUser.value).Some?) ==> r.Restored?
    ensures r.Rejected? <==>
              Present(token) && Present(storedUser)
              && (DecodeToken(token, parseJson).Err?
                  || !NumGreater(ExpiryMillis(DecodeToken(token, parseJson).value), now)
                  || parseJson(storedUser.value).None?)
  {
    if !Present(token) || !Present(storedUser) then NoSession
    else
      match DecodeToken(token, parseJson)
      case Err(_) => Rejected
      case Ok(d) =>
        if !NumGreater(ExpiryMillis(d), now) then Rejected
        else
          match parseJson(storedUser.value)
          case None => Rejected
          case Some(profile) => Restored(profile, IsTokenExpiringSoon(d, now))
  }

  /** What the periodic check concludes at `now`. */
  datatype Check = NoToken | DecodeFailed | Expire | Warn(on: bool)

  /** The periodic check: nothing without a token; a credential that does not decode
      throws (the decode is outside any `try`); `now >= exp * 1000` (false for NaN)
      logs out; otherwise the warning is set to whether expiry is near. */
  function PeriodicCheck(token: Option<string>, now: int, parseJson: string -> Option<JsValue>): (r: Check)
    ensures r == NoToken <==> !Present(token)
    ensures r == DecodeFailed <==> Present(token) && DecodeToken(token, parseJson).Err?
    ensures r == Expire <==>
              Present(token) && DecodeToken(token, parseJson).Ok?
              && ExpiryMillis(DecodeToken(token, parseJson).value).Some?
              && now >= ExpiryMillis(DecodeToken(token, parseJson).value).value
    ensures r.Warn? ==> r.on == IsTokenExpiringSoon(DecodeToken(token, parseJson).value, now)
  {
    if !Present(token) then NoToken
    else
      match DecodeToken(token, parseJson)
      case Err(_) => DecodeFailed
      case Ok(d) =>
        var expiry := ExpiryMillis(d);
        if expiry.Some? && now >= expiry.value then Expire
        else Warn(IsTokenExpiringSoon(d, now))
  }

  /** What the authenticated request wrapper concludes before sending. */
  datatype Gate = MissingToken | BadToken | ExpiredToken | Proceed(token: string, decoded: DecodedToken)

  /** The pre-flight test: a missing token and an expired one (`exp * 1000 <= now`,
      false for NaN) log out; a credential that does not decode throws. */
  function FetchGate(token: Option<string>, now: int, parseJson: string -> Option<JsValue>): (r: Gate)
    ensures r == MissingToken <==> !Present(token)
    ensures r == BadToken <==> Present(token) && DecodeToken(token, parseJson).Err?
    ensures r == ExpiredToken <==>
              Present(token) && DecodeToken(token, parseJson).Ok?
              && ExpiryMillis(DecodeToken(token, parseJson).value).Some?
              && ExpiryMillis(DecodeToken(token, parseJson).value).value <= now
    ensures r.Proceed? ==> token == Some(r.token) && DecodeToken(token, parseJson) == Ok(r.decoded)
  {
    if !Present(token) then MissingToken
    else
      match DecodeToken(token, parseJson)
      case Err(_) => BadToken
      case Ok(d) =>
        var expiry := ExpiryMillis(d);
        if expiry.Some? && expiry.value <= now then ExpiredToken
        else Proceed(token.value, d)
  }

  /** A session that start-up restores at `now` passes the periodic check and the
      request wrapper's test at `now`, and the periodic check sets the same warning. */
  lemma RestoredSessionPassesChecks(token: Option<string>, storedUser: Option<string>, now: int,
                                    parseJson: string -> Option<JsValue>)
    requires RestoreSession(token, storedUser, now, parseJson).Restored?
    ensures PeriodicCheck(token, now, parseJson) == Warn(RestoreSession(token, storedUser, now, parseJson).warn)
    ensures FetchGate(token, now, parseJson).Proceed?
  {
  }

  /** For a numeric expiry the three tests agree: start-up rejects the credential
      exactly when the periodic check and the request wrapper end the session. */
  lemma ExpiryTestsAgree(token: Option<string>, storedUser: Option<string>, now: int,
                         parseJson: string -> Option<JsValue>)
    requires DecodeToken(token, parseJson).Ok?
    requires ExpiryMillis(DecodeToken(token, parseJson).value).Some?
    requires Present(storedUser) && parseJson(storedUser.value).Some?
    ensures RestoreSession(token, storedUser, now, parseJson).Rejected? <==>
              PeriodicCheck(token, now, parseJson) == Expire
    ensures PeriodicCheck(token, now, parseJson) == Expire <==>
              FetchGate(token, now, parseJson) == ExpiredToken
  {
  }

  /** A credential without `exp` (NaN expiry) is rejected at start-up, yet the periodic
      check only clears the warning and the request wrapper lets requests through. */
  lemma MissingExpiryDisagreement(token: Option<string>, storedUser: Option<string>, now: int,
                                  parseJson: string -> Option<JsValue>)
    requires DecodeToken(token, parseJson).Ok? && DecodeToken(token, parseJson).value.exp == JUndefined
    requires Present(storedUser)
    ensures RestoreSession(token, storedUser, now, parseJson) == Rejected
    ensures PeriodicCheck(token, now, parseJson) == Warn(false)
    ensures FetchGate(token, now, parseJson).Proceed?
  {
  }

  /** Whether a response handled at `now` raises the expiry warning; `None` when the
      stored credential does not decode, which makes the handler throw. */
  function ResponseWarning(token: Option<string>, now: int, parseJson: string -> Option<JsValue>): (r: Option<bool>)
    ensures r.None? <==> Present(token) && DecodeToken(token, parseJson).Err?
    ensures !Present(token) ==> r == Some(false)
    ensures Present(token) && DecodeToken(token, parseJson).Ok? ==>
              r == Some(IsTokenExpiringSoon(DecodeToken(token, parseJson).value, now))
  {
    if !Present(token) then Some(false)
    else
      match DecodeToken(token, parseJson)
      case Err(_) => None
      case Ok(d) => Some(IsTokenExpiringSoon(d, now))
  }

  // ---------------------------------------------------------------- the provider

  class AuthProvider {
    const browser: Browser
    /** `JSON.parse`; `None` is a thrown `SyntaxError`. */
    const parseJson: string -> Option<JsValue>
    /** `JSON.stringify` on defined values. */
    const stringifyJson: JsValue -> string
    /** `getRedirectPath('official', department)`. */
    const redirectPath: JsValue -> string

    var user: JsValue
    var loading: bool
    var tokenExpiryWarning: bool

    constructor (browser: Browser, parseJson: string -> Option<JsValue>,
                 stringifyJson: JsValue -> string, redirectPath: JsValue -> string)
      ensures this.browser == browser
      ensures this.parseJson == parseJson && this.stringifyJson == stringifyJson
      ensures this.redirectPath == redirectPath
      ensures user == JNull && loading && !tokenExpiryWarning
    {
      this.browser := browser;
      this.parseJson := parseJson;
      this.stringifyJson := stringifyJson;
      this.redirectPath := redirectPath;
      user := JNull;
      loading := true;
      tokenExpiryWarning := false;
    }

    /** A signed-in user always has both keys stored. */
    predicate SessionStored()
      reads this, browser`storage
    {
      IsTruthy(user) ==> "token" in browser.storage && "user" in browser.storage
    }

    /** The start-up decision for the current storage. */
    function RestoreNow(now: int): Restore
      reads browser`storage
    {
      RestoreSession(browser.GetItem("token"), browser.GetItem("user"), now, parseJson)
    }

    /** The periodic decision for the current storage. */
    function CheckNow(now: int): Check
      reads browser`storage
    {
      PeriodicCheck(browser.GetItem("token"), now, parseJson)
    }

    /** The request wrapper's decision for the current storage. */
    function GateNow(now: int): Gate
      reads browser`storage
    {
      FetchGate(browser.GetItem("token"), now, parseJson)
    }

    /** `logout` as written in a render that saw `seen` as its user: both keys removed,
        the user cleared and the warning off, then a navigation by the seen role;
        a non-string role throws after the state is cleared. */
    method ClearSession(seen: JsValue) returns (c: Completion)
      modifies browser`storage, browser`history, this`user, this`tokenExpiryWarning
      ensures browser.storage == old(browser.storage) - {"token", "user"}
      ensures user == JNull && !tokenExpiryWarning
      ensures LogoutRedirect(seen).Some? ==>
                c == Normal && browser.history == old(browser.history) + [LogoutRedirect(seen).value]
      ensures LogoutRedirect(seen).None? ==> c == Threw(TypeError) && browser.history == old(browser.history)
      ensures SessionStored()
    {
      browser.RemoveItem("token");
      browser.RemoveItem("user");
      user := JNull;
      tokenExpiryWarning := false;
      var route := LogoutRedirect(seen);
      if route.Some? {
        browser.Navigate(route.value);
        c := Normal;
      } else {
        c := Threw(TypeError);
      }
    }

    /** `logout()` from the current render. */
    method Logout() returns (c: Completion)
      modifies browser`storage, browser`history, this`user, this`tokenExpiryWarning
      ensures browser.storage == old(browser.storage) - {"token", "user"}
      ensures user == JNull && !tokenExpiryWarning
      ensures LogoutRedirect(old(user)).Some? ==>
                c == Normal && browser.history == old(browser.history) + [LogoutRedirect(old(user)).value]
      ensures LogoutRedirect(old(user)).None? ==> c == Threw(TypeError) && browser.history == old(browser.history)
    {
      c := ClearSession(user);
    }

    /** Logging out twice, the second call from the next render: the state is cleared as
        after one call, and the second call, whose render sees no user, goes to `/login`.
        Two calls through one render's `logout` would both read the old user. */
    method LogoutTwice() returns (c: Completion)
      modifies browser`storage, browser`history, this`user, this`tokenExpiryWarning
      ensures browser.storage == old(browser.storage) - {"token", "user"}
      ensures user == JNull && !tokenExpiryWarning
      ensures c == Normal
      ensures LogoutRedirect(old(user)).Some? ==>
                browser.history == old(browser.history) + [LogoutRedirect(old(user)).value, "/login"]
      ensures LogoutRedirect(old(user)).None? ==> browser.history == old(browser.history) + ["/login"]
    {
      var first := Logout();
      c := Logout();
      assert browser.storage - {"token", "user"} == browser.storage;
    }

    /** The start-up effect at `now`. Its `logout` is the first render's, which saw no
        user, so a rejected session always goes to `/login`. */
    method Bootstrap(now: int)
      modifies browser`storage, browser`history, this`user, this`tokenExpiryWarning, this`loading
      ensures !loading
      ensures old(RestoreNow(now)).NoSession? ==>
                user == JNull && tokenExpiryWarning == old(tokenExpiryWarning)
                && browser.storage == old(browser.storage) && browser.history == old(browser.history)
      ensures old(RestoreNow(now)).Restored? ==>
                user == old(RestoreNow(now)).profile
                && tokenExpiryWarning == (old(tokenExpiryWarning) || old(RestoreNow(now)).warn)
                && browser.storage == old(browser.storage) && browser.history == old(browser.history)
      ensures old(RestoreNow(now)).Rejected? ==>
                user == JNull && !tokenExpiryWarning
                && browser.storage == old(browser.storage) - {"token", "user"}
                && browser.history == old(browser.history) + ["/login"]
      ensures SessionStored()
    {
      var token := browser.GetItem("token");
      var storedUser := browser.GetItem("user");
      if Present(token) && Present(storedUser) {
        var decoded := DecodeToken(token, parseJson);
        if decoded.Ok? && NumGreater(ExpiryMillis(decoded.value), now) {
          var parsed := parseJson(storedUser.value);
          if parsed.Some? {
            user := parsed.value;
            if IsTokenExpiringSoon(decoded.value, now) {
              tokenExpiryWarning := true;
            }
          } else {
            var _ := ClearSession(JNull);
          }
        } else {
          var _ := ClearSession(JNull);
        }
      } else {
        user := JNull;
      }
      loading := false;
    }

    /** One run of the 30-second expiry check at `now`, with the first render's
        `logout` (which saw no user). */
    method CheckTokenExpiration(now: int) returns (c: Completion)
      modifies browser`storage, browser`history, this`user, this`tokenExpiryWarning
      ensures old(CheckNow(now)) == NoToken ==>
                c == Normal && user == old(user) && tokenExpiryWarning == old(tokenExpiryWarning)
                && browser.storage == old(browser.storage) && browser.history == old(browser.history)
      ensures old(CheckNow(now)) == DecodeFailed ==>
                c == Threw(Error(InvalidFormatMessage)) && user == old(user)
                && tokenExpiryWarning == old(tokenExpiryWarning)
                && browser.storage == old(browser.storage) && browser.history == old(browser.history)
      ensures old(CheckNow(now)) == Expire ==>
                c == Normal && user == JNull && !tokenExpiryWarning
                && browser.storage == old(browser.storage) - {"token", "user"}
                && browser.history == old(browser.history) + ["/login"]
      ensures old(CheckNow(now)).Warn? ==>
                c == Normal && user == old(user) && tokenExpiryWarning == old(CheckNow(now)).on
                && browser.storage == old(browser.storage) && browser.history == old(browser.history)
      ensures old(SessionStored()) ==> SessionStored()
    {
      var token := browser.GetItem("token");
      if !Present(token) {
        return Normal;
      }
      var decoded := DecodeToken(token, parseJson);
      if decoded.Err? {
        return Threw(decoded.error);
      }
      var expiry := ExpiryMillis(decoded.value);
      if expiry.Some? && now >= expiry.value {
        c := ClearSession(JNull);
        return;
      }
      tokenExpiryWarning := IsTokenExpiringSoon(decoded.value, now);
      c := Normal;
    }

    /** `handleApiResponse(response)` at `now`: the warning is raised when the stored
        credential expires soon (a credential that does not decode throws first);
        an ok response is returned unchanged; a non-ok one is reported by
        `ClassifyFailure`, after logging out for the session codes. */
    method HandleApiResponse(response: Response, now: int) returns (r: Result<Response, JsError>)
      modifies browser`storage, browser`history, this`user, this`tokenExpiryWarning
      ensures var w := old(ResponseWarning(browser.GetItem("token"), now, parseJson));
              w.None? ==>
                r == Err(Error(InvalidFormatMessage)) && user == old(user)
                && tokenExpiryWarning == old(tokenExpiryWarning)
                && browser.storage == old(browser.storage) && browser.history == old(browser.history)
      ensures var w := old(ResponseWarning(browser.GetItem("token"), now, parseJson));
              w.Some? ==> r == ApiResult(response)
      ensures var w := old(ResponseWarning(browser.GetItem("token"), now, parseJson));
              w.Some? && (response.Ok() || !ClassifyFailure(response).forcesLogout) ==>
                user == old(user) && tokenExpiryWarning == (old(tokenExpiryWarning) || w.value)
                && browser.storage == old(browser.storage) && browser.history == old(browser.history)
      ensures var w := old(ResponseWarning(browser.GetItem("token"), now, parseJson));
              w.Some? && !response.Ok() && ClassifyFailure(response).forcesLogout ==>
                user == JNull && !tokenExpiryWarning
                && browser.storage == old(browser.storage) - {"token", "user"}
                && browser.history == old(browser.history)
                   + (if LogoutRedirect(old(user)).Some? then [LogoutRedirect(old(user)).value] else [])
      ensures old(SessionStored()) ==> SessionStored()
    {
      var token := browser.GetItem("token");
      if Present(token) {
        var decoded := DecodeToken(token, parseJson);
        if decoded.Err? {
          return Err(decoded.error);
        }
        if IsTokenExpiringSoon(decoded.value, now) {
          tokenExpiryWarning := true;
        }
      }
      if !response.Ok() {
        var failure := ClassifyFailure(response);
        if failure.forcesLogout {
          var _ := Logout();
        }
        r := Err(Error(failure.message));
      } else {
        r := Ok(response);
      }
    }

    /** `authenticatedFetch(url, options)`: the pre-flight test reads the clock at `now`,
        `reply` is what `fetch` settles to, and the response is handled at `later`, when
        `fetch` has settled. The wall clock may have stepped back in between, so
        `later` may be smaller than `now`. A missing or expired credential logs out and rejects (with the `TypeError`
        of `logout` when that throws); one that does not decode rejects with nothing
        changed; otherwise the prepared request is sent and its response handled. */
    method AuthenticatedFetch(url: string, options: FetchOptions, now: int, later: int, reply: Reply)
      returns (r: Result<Response, JsError>)
      modifies browser`storage, browser`history, browser`requests, this`user, this`tokenExpiryWarning
      ensures old(GateNow(now)) == MissingToken || old(GateNow(now)) == ExpiredToken ==>
                browser.requests == old(browser.requests)
                && user == JNull && !tokenExpiryWarning
                && browser.storage == old(browser.storage) - {"token", "user"}
                && browser.history == old(browser.history)
                   + (if LogoutRedirect(old(user)).Some? then [LogoutRedirect(old(user)).value] else [])
      ensures old(GateNow(now)) == MissingToken ==>
                r == Err(if LogoutRedirect(old(user)).Some? then Error(NoAuthTokenMessage) else TypeError)
      ensures old(GateNow(now)) == ExpiredToken ==>
                r == Err(if LogoutRedirect(old(user)).Some? then Error(SessionExpiredMessage) else TypeError)
      ensures old(GateNow(now)) == BadToken ==>
                r == Err(Error(InvalidFormatMessage)) && browser.requests == old(browser.requests)
                && user == old(user) && tokenExpiryWarning == old(tokenExpiryWarning)
                && browser.storage == old(browser.storage) && browser.history == old(browser.history)
      ensures old(GateNow(now)).Proceed? ==>
                browser.requests == old(browser.requests)
                  + [Request(options.httpMethod, FullUrl(url),
                             RequestHeaders(old(GateNow(now)).token, options), options.body)]
      ensures old(GateNow(now)).Proceed? && reply.NetworkFailure? ==>
                r == Err(TypeError) && user == old(user) && tokenExpiryWarning == old(tokenExpiryWarning)
                && browser.storage == old(browser.storage) && browser.history == old(browser.history)
      ensures old(GateNow(now)).Proceed? && reply.Answered? ==>
                r == ApiResult(reply.response)
      ensures old(GateNow(now)).Proceed? && reply.Answered?
              && (reply.response.Ok() || !ClassifyFailure(reply.response).forcesLogout) ==>
                user == old(user)
                && tokenExpiryWarning == (old(tokenExpiryWarning)
                                          || IsTokenExpiringSoon(old(GateNow(now)).decoded, later))
                && browser.storage == old(browser.storage) && browser.history == old(browser.history)
      ensures old(GateNow(now)).Proceed? && reply.Answered?
              && !reply.response.Ok() && ClassifyFailure(reply.response).forcesLogout ==>
                user == JNull && !tokenExpiryWarning
                && browser.storage == old(browser.storage) - {"token", "user"}
                && browser.history == old(browser.history)
                   + (if LogoutRedirect(old(user)).Some? then [LogoutRedirect(old(user)).value] else [])
      ensures old(SessionStored()) ==> SessionStored()
    {
      var gate := FetchGate(browser.GetItem("token"), now, parseJson);
      match gate
      case MissingToken =>
        var c := Logout();
        r := Err(if c == Normal then Error(NoAuthTokenMessage) else TypeError);
      case BadToken =>
        r := Err(Error(InvalidFormatMessage));
      case ExpiredToken =>
        var c := Logout();
        r := Err(if c == Normal then Error(SessionExpiredMessage) else TypeError);
      case Proceed(token, decoded) =>
        var request := Request(options.httpMethod, FullUrl(url), RequestHeaders(token, options), options.body);
        browser.Send(request);
        match reply
        case NetworkFailure =>
          r := Err(TypeError);
        case Answered(response) =>
          r := HandleApiResponse(response, later);
    }

    /** `login(email, password, department, employeeId, adminId)`, `reply` being what the
        login `fetch` settles to. On success the credential and the user are stored,
        the user is set and the landing route is chosen; every failure before that
        leaves storage, user and history as they were. */
    method Login(email: JsValue, password: JsValue, department: JsValue, employeeId: JsValue,
                 adminId: JsValue, reply: Reply) returns (r: Result<JsValue, JsError>)
      modifies browser`storage, browser`history, browser`requests, this`user
      ensures EmailValue(email).Err? ==>
                r == Err(TypeError) && browser.requests == old(browser.requests)
      ensures EmailValue(email).Ok? ==>
                browser.requests == old(browser.requests)
                  + [LoginRequest(LoginEndpoint(department, adminId),
                                  LoginPayload(EmailValue(email).value, password, department, employeeId, adminId))]
      ensures EmailValue(email).Ok? && LoginReply(reply).Err? ==> r == LoginReply(reply)
      ensures EmailValue(email).Err? || LoginReply(reply).Err? ==>
                user == old(user) && browser.storage == old(browser.storage)
                && browser.history == old(browser.history)
      ensures EmailValue(email).Ok? && LoginReply(reply).Ok? ==>
                var data := LoginReply(reply).value;
                var profile := Prop(data, "user");
                var landing := LandingRoute(profile, redirectPath);
                user == profile
                && browser.storage == old(browser.storage)["token" := ToStr(Prop(data, "token"))]
                                                          ["user" := StoredForm(profile, stringifyJson)]
                && browser.history == old(browser.history)
                                      + (if landing.Ok? && landing.value.Some? then [landing.value.value] else [])
                && r == (if landing.Err? then Err(TypeError) else Ok(data))
      ensures old(SessionStored()) ==> SessionStored()
    {
      var endpoint := LoginEndpoint(department, adminId);
      var emailValue := EmailValue(email);
      if emailValue.Err? {
        return Err(emailValue.error);
      }
      browser.Send(LoginRequest(endpoint, LoginPayload(emailValue.value, password, department, employeeId, adminId)));
      var outcome := LoginReply(reply);
      if outcome.Err? {
        return Err(outcome.error);
      }
      var data := outcome.value;
      browser.SetItem("token", ToStr(Prop(data, "token")));
      browser.SetItem("user", StoredForm(Prop(data, "user"), stringifyJson));
      user := Prop(data, "user");
      var landing := LandingRoute(user, redirectPath);
      if landing.Err? {
        return Err(landing.error);
      }
      if landing.value.Some? {
        browser.Navigate(landing.value.value);
      }
      r := Ok(data);
    }
  }
}

