/** Reading the claims of the signed credential the server issues (`header.payload.signature`,
    the payload being unpadded base64url JSON), and the "expiring soon" test. */
module TokenCodec {
  import opened Common
  import opened JsStrings
  import opened JsValues
  import opened Base64

  /** The record `decodeToken` returns: `id` as given, `role` lower-cased, `exp` as given
      (possibly `undefined`). */
  datatype DecodedToken = DecodedToken(id: JsValue, role: string, exp: JsValue)

  const NoTokenMessage := "No token provided"
  const InvalidFormatMessage := "Invalid token format"

  /** Five minutes, in milliseconds. */
  const ExpiryWarningWindow := 5 * 60 * 1000

  /** The checks made on the middle segment inside the `try`: URL-safe alphabet mapped
      back, `atob`, `JSON.parse`, a truthy payload with a truthy `id` and a truthy
      `role` that is a string (any other `role` makes `toLowerCase` throw). */
  function DecodePayload(segment: string, parseJson: string -> Option<JsValue>): (r: Option<DecodedToken>)
    ensures r.Some? ==> Atob(UrlToStandard(segment)).Some?
    ensures r.Some? ==> IsTruthy(r.value.id) && r.value.role != [] && IsLowerCase(r.value.role)
  {
    var bytes := Atob(UrlToStandard(segment));
    if bytes.None? then None
    else
      var decoded := parseJson(Latin1(bytes.value));
      if decoded.None? then None
      else
        var d := decoded.value;
        var role := Prop(d, "role");
        if !IsTruthy(d) || !IsTruthy(Prop(d, "id")) || !IsTruthy(role) || !role.JStr? then None
        else Some(DecodedToken(Prop(d, "id"), ToLower(role.s), Prop(d, "exp")))
  }

  /** `decodeToken(token)`: an absent or empty credential is refused outside the `try`;
      every failure inside it surfaces as the one error `Invalid token format`. */
  function DecodeToken(token: Option<string>, parseJson: string -> Option<JsValue>): (r: Result<DecodedToken, JsError>)
    ensures !Present(token) <==> r == Err(Error(NoTokenMessage))
    ensures r.Err? ==> r.error == Error(NoTokenMessage) || r.error == Error(InvalidFormatMessage)
    ensures Present(token) && |Split(token.value, '.')| != 3 ==> r == Err(Error(InvalidFormatMessage))
    ensures r.Ok? ==> IsTruthy(r.value.id) && r.value.role != [] && IsLowerCase(r.value.role)
  {
    if !Present(token) then Err(Error(NoTokenMessage))
    else
      var parts := Split(token.value, '.');
      if |parts| != 3 then Err(Error(InvalidFormatMessage))
      else
        match DecodePayload(parts[1], parseJson)
        case None => Err(Error(InvalidFormatMessage))
        case Some(d) => Ok(d)
  }

  /** `decoded.exp * 1000`; `None` is NaN (for instance when `exp` is absent). */
  function ExpiryMillis(d: DecodedToken): (r: Option<int>)
    ensures r.Some? <==> ToNumber(d.exp).Some?
    ensures r.Some? ==> r.value == ToNumber(d.exp).value * 1000
    ensures d.exp.JUndefined? ==> r.None?
  {
    Scale(ToNumber(d.exp), 1000)
  }

  /** `isTokenExpiringSoon(decoded)` at time `now` (milliseconds): false for a falsy
      `exp`, otherwise whether fewer than five minutes remain (false when NaN). */
  function IsTokenExpiringSoon(d: DecodedToken, now: int): (r: bool)
    ensures !IsTruthy(d.exp) ==> !r
    ensures ExpiryMillis(d).None? ==> !r
    ensures IsTruthy(d.exp) && ExpiryMillis(d).Some? ==>
              (r <==> ExpiryMillis(d).value - now < ExpiryWarningWindow)
  {
    var expiry := ExpiryMillis(d);
    IsTruthy(d.exp) && expiry.Some? && expiry.value - now < ExpiryWarningWindow
  }

  // ---------------------------------------------------------------- lemmas

  /** The payload segment of an issued credential, once decoded, yields the claims'
      `id`, lower-cased `role` and `exp` when `id` is truthy and `role` is a
      non-empty string, and nothing otherwise. */
  lemma DecodeEncodedPayload(payload: seq<uint8>, parseJson: string -> Option<JsValue>, claims: JsValue)
    requires parseJson(Latin1(payload)) == Some(claims)
    ensures DecodePayload(EncodeUrl(payload), parseJson)
         == if IsTruthy(Prop(claims, "id")) && Prop(claims, "role").JStr? && Prop(claims, "role").s != ""
            then Some(DecodedToken(Prop(claims, "id"), ToLower(Prop(claims, "role").s), Prop(claims, "exp")))
            else None
  {
    AtobOfEncodeUrl(payload);
  }

  /** A credential issued as `header.base64url(payload).signature`, whose payload parses
      to `claims`, decodes exactly when `claims` has a truthy `id` and a non-empty
      string `role`, and then to those claims with the role lower-cased. */
  lemma DecodeIssuedToken(header: string, payload: seq<uint8>, signature: string,
                          parseJson: string -> Option<JsValue>, claims: JsValue)
    requires '.' !in header && '.' !in signature
    requires parseJson(Latin1(payload)) == Some(claims)
    ensures var r := DecodeToken(Some(header + "." + EncodeUrl(payload) + "." + signature), parseJson);
            r.Ok? <==> IsTruthy(Prop(claims, "id")) && Prop(claims, "role").JStr? && Prop(claims, "role").s != ""
    ensures var r := DecodeToken(Some(header + "." + EncodeUrl(payload) + "." + signature), parseJson);
            r.Ok? ==> r.value == DecodedToken(Prop(claims, "id"), ToLower(Prop(claims, "role").s), Prop(claims, "exp"))
  {
    var mid := EncodeUrl(payload);
    SplitThree(header, mid, signature, '.');
    assert Split(header + "." + mid + "." + signature, '.') == [header, mid, signature];
    DecodeEncodedPayload(payload, parseJson, claims);
  }

  /** Five minutes or more before expiry there is no warning, and from then on there is:
      the warning, once due, stays due as time passes. */
  lemma ExpiringSoonIsMonotone(d: DecodedToken, now: int, later: int)
    requires now <= later
    requires IsTokenExpiringSoon(d, now)
    ensures IsTokenExpiringSoon(d, later)
  {
  }

  /** A token with a truthy `exp` that has already passed is also expiring soon. */
  lemma ExpiredIsExpiringSoon(d: DecodedToken, now: int)
    requires IsTruthy(d.exp) && ExpiryMillis(d).Some? && ExpiryMillis(d).value <= now
    ensures IsTokenExpiringSoon(d, now)
  {
  }
}
