# Grievance portal client: session provider and department dashboards

This project models two parts of the React client of a grievance portal.

1. **The session provider** (`AuthProvider`):
   - reading the signed credential the server issues, a `header.payload.signature` string whose middle segment is unpadded base64url JSON;
   - the five-minute "expiring soon" test;
   - restoring a session from `localStorage` on start-up;
   - the periodic expiry check;
   - `login`: endpoint choice, request body, storage and the landing route;
   - `logout`: clearing, then a redirect chosen by role;
   - the authenticated request wrapper: URL, headers, the pre-flight token test and how a failed response is classified.

2. **The Water and Electricity department dashboards**:
   - each keeps four per-status grievance lists (`pending`, `assigned`, `inProgress`, `resolved`), `stats`, the active tab, the decline modal, the error text and the loading flag;
   - the list fetch and its error paths;
   - the accept, start-progress, resolve (upload first) and decline handlers;
   - the buttons each tab shows;
   - the rule that enables Decline;
   - Water's search filter and Electricity's logout.

## Structure

Modules, one file each:

- `Common`: `Option`, `Result` and `Present`, a non-empty stored string.
- `JsStrings`: the string built-ins the client calls:
  - `toLowerCase`, `includes`, `trim`, `startsWith`;
  - one-character `replace` and `split`.
- `JsValues`: JavaScript values. Covers parsed JSON, `undefined`, truthiness, `?.`, `||`, `String(v)` and `Number(v)` (with NaN as `None`), and the exceptions.
- `Base64`: `atob` as the WHATWG forgiving-base64 decode, and the base64url encoding a server signs with.
- `TokenCodec`: `decodeToken` and `isTokenExpiringSoon`.
- `Http`: requests, responses and `fetch` replies as values.
- `Environment`: class `Browser`, with:
  - `localStorage` as a map;
  - the navigation history;
  - the trace of sent requests.
- `AuthContext`:
  - the pure decisions of the provider;
  - class `AuthProvider`, whose `user`, `loading` and `tokenExpiryWarning` fields are the provider's state cells.
- `Grievances`: what both dashboards share:
  - the tabs, the buckets and the requests;
  - how a list reply is read;
  - the `Board` record of a dashboard's state;
  - the start and the settling of a list fetch.
- `Water` and `Electricity`: each holds its dashboard as a class (`WaterDashboard`, `ElectricityDashboard`), with one method per handler, and the pure functions those methods are specified by.

### Modelling choices

- **No real network.** Every network call takes the reply it settles to as a parameter: a network failure, or a response with status, status text and an optional parsed JSON body. Every request sent is appended to `Browser.requests`, so contracts state the order of calls and which calls are guarded. Navigation is appended to `Browser.history`.
- **The list fetch is split in two.**
  - `IssueFetch` is its synchronous part. It sets the loading flag, clears the error, sends the request and queues the tab in `inFlight`. The Water dashboard also records, in `issuedBy`, the `user` of the render that issued the request.
  - `SettleFetch(reply)` settles the oldest queued request into the bucket of the tab *it was sent for*. This is what the closure in `fetchGrievances` does, since it captured `activeTab` when it was called.
  - A handler that refreshes and then switches tab therefore issues two fetches first, and they settle one after another.
- **Other network calls are atomic.** The action handlers are each one method call, with their replies given.
- **Time is a parameter.** `Date.now()` is the parameter `now`, in milliseconds. Reads separated by an `await` get separate parameters.
- **Opaque helpers.** `JSON.parse`, `JSON.stringify` and `getRedirectPath` are functions fixed when the provider is built. `getRedirectPath` is defined outside these sources.
- **Stale closures.** The bootstrap effect and the 30-second interval run from the first render, whose `user` was `null`. Their `logout` therefore always redirects to `/login`: `ClearSession(JNull)`. The handlers' `logout` is the current render's and uses the current user. A Water list request's 401 calls the `logout` of the render that issued it, so it uses the user recorded for that request in `issuedBy`; that user may have been cleared since.

## Model

| member | source | states |
|---|---|---|
| JsStrings.ToLower | client/src/context/AuthContext.jsx:44 | Same length; every character lower-cased; the result has no capitals |
| JsStrings.ToLowerIdempotent | client/src/context/AuthContext.jsx:191 | Lower-casing twice is lower-casing once |
| JsStrings.ToLowerOfLowerCase | client/src/context/AuthContext.jsx:191 | A string with no capitals is unchanged by `toLowerCase`. A role decoded from the credential is already lower case |
| JsStrings.IncludesIff | client/src/official_dept/Water.jsx:248-249 | The left-to-right scan `includes` finds `sub` exactly when `sub` occurs at some index |
| JsStrings.IncludesEmpty | client/src/official_dept/Water.jsx:248 | Every string includes the empty query |
| JsStrings.TrimStart | client/src/official_dept/Water.jsx:516 | The longest suffix that does not start with white space; everything dropped is white space |
| JsStrings.TrimEnd | client/src/official_dept/Water.jsx:516 | The longest prefix that does not end with white space; everything dropped is white space |
| JsStrings.Trim | client/src/official_dept/Water.jsx:516 | `trim()` is empty exactly when every character is white space |
| JsStrings.ReplaceAll | client/src/context/AuthContext.jsx:27 | Replaces each occurrence of one character by another and nothing else; the replaced character no longer occurs |
| JsStrings.Split | client/src/context/AuthContext.jsx:21 | At least one part; no part contains the separator |
| JsStrings.SplitLength | client/src/context/AuthContext.jsx:21-22 | The number of parts is one more than the number of separators, so three parts means exactly two dots |
| JsStrings.JoinSplit | client/src/context/AuthContext.jsx:21 | Joining the parts with the separator gives back the string |
| JsStrings.SplitSeparatorFreePrefix | client/src/context/AuthContext.jsx:21 | A prefix without the separator is glued to the first part of the rest |
| JsStrings.SplitJoin | client/src/context/AuthContext.jsx:21 | Splitting a join of separator-free parts gives back the parts |
| JsStrings.SplitThree | client/src/context/AuthContext.jsx:21-26 | `a.b.c` with dot-free `a`, `b`, `c` splits into `[a, b, c]`, so `parts[1]` is the payload segment |
| JsValues.FalsyValues | client/src/context/AuthContext.jsx:16 | Exactly `undefined`, `null`, `false`, `0` and `""` are falsy |
| JsValues.Prop | client/src/context/AuthContext.jsx:191 | `v?.key` is defined only for an object that has the key, and is then its value |
| JsValues.Or | client/src/context/AuthContext.jsx:230 | `a \|\| b` is truthy exactly when one of the operands is |
| JsValues.ToStr | client/src/official_dept/Water.jsx:104 | `String(v)`: a string is kept as it is. Every other value except an array has a non-empty text, such as `undefined`, `null`, `true` or a numeral |
| JsValues.ToNumber | client/src/context/AuthContext.jsx:71 | `Number(v)`: `undefined` and objects are NaN (`None`), `null` is 0, and a number is itself. A decimal numeral string reads as its value (`NumberOfString`) |
| JsValues.NatToDigits | client/src/official_dept/Water.jsx:104 | The decimal numeral: at least one digit, no leading zero |
| JsValues.StringToNumber | client/src/context/AuthContext.jsx:71 | `Number(s)` of an all-white-space string is 0 |
| JsValues.DigitsValueOfNatToDigits | client/src/official_dept/Water.jsx:104 | Reading a numeral back gives the number |
| JsValues.TrimNoWhiteSpace | client/src/context/AuthContext.jsx:71 | A string with no white space is its own trimmed form |
| JsValues.DigitsNoWhiteSpace | client/src/context/AuthContext.jsx:71 | A numeral contains no white space |
| JsValues.NumberOfString | client/src/context/AuthContext.jsx:71 | `Number(String(n)) == n` for every integer, so a numeric `exp` sent as a string compares as the number |
| JsValues.DigitsRead | client/src/context/AuthContext.jsx:71 | A non-empty digit string converts to its value |
| JsValues.MinusDigitsRead | client/src/context/AuthContext.jsx:71 | A `-` followed by a non-empty digit string converts to minus its value |
| JsValues.NonNegativeDecimalReadsBack | client/src/context/AuthContext.jsx:71 | The decimal form of a non-negative integer converts back to it |
| JsValues.NegativeDecimalReadsBack | client/src/context/AuthContext.jsx:71 | The decimal form of a negative integer, `-` and the numeral of its magnitude, converts back to it |
| JsValues.DecimalReadsBack | client/src/context/AuthContext.jsx:71 | The decimal form of every integer converts back to it |
| Base64.AlphabetChar | client/src/context/AuthContext.jsx:28 | The standard-alphabet character for six bits, inverted by its decoding |
| Base64.UrlAlphabetChar | client/src/context/AuthContext.jsx:26-27 | The base64url character: `-` for 62, `_` for 63, and the standard character below 62 |
| Base64.EncodeSextets | client/src/context/AuthContext.jsx:28 | The groups of any byte string never have a length that is 1 mod 4, the length `atob` rejects |
| Base64.DecodeLength | client/src/context/AuthContext.jsx:28 | n six-bit groups decode to n·3/4 bytes |
| Base64.EncodeLength | client/src/context/AuthContext.jsx:28 | n bytes encode to (4n+2)/3 groups |
| Base64.RemoveAsciiWhitespace | client/src/context/AuthContext.jsx:28 | `atob` drops exactly the ASCII white space |
| Base64.StripPadding | client/src/context/AuthContext.jsx:28 | At most two `=` are removed, and only from a length that is a multiple of four |
| Base64.Sextets | client/src/context/AuthContext.jsx:28 | One group per character |
| Base64.Latin1 | client/src/context/AuthContext.jsx:28-29 | The binary string has one character per byte, with that byte's code |
| Base64.EncodeUrl | client/src/context/AuthContext.jsx:21-26 | An encoded payload contains no `.`, so it survives the split |
| Base64.UrlToStandard | client/src/context/AuthContext.jsx:27 | The mapped segment has no `-` or `_` |
| Base64.GroupRoundTrip | client/src/context/AuthContext.jsx:28 | Each byte of a three-byte group is recovered from its four sextets |
| Base64.DecodeEncode | client/src/context/AuthContext.jsx:28 | Decoding the sextets of any byte string gives it back |
| Base64.StandardChars | client/src/context/AuthContext.jsx:28 | Standard base64 without padding is all standard alphabet, and reading its characters back gives the groups |
| Base64.UrlToStandardOfEncodeUrl | client/src/context/AuthContext.jsx:27 | Mapping base64url back to the standard alphabet is standard base64 |
| Base64.AlphabetStringIsClean | client/src/context/AuthContext.jsx:28 | `atob` removes no white space and no padding from a string of the standard alphabet |
| Base64.AtobOfEncodeUrl | client/src/context/AuthContext.jsx:26-28 | `atob(segment.replace(-→+).replace(_→/))` returns the signed payload bytes |
| Base64.AtobRejectsUrlAlphabet | client/src/context/AuthContext.jsx:27-28 | Without the mapping, `atob` throws on any `-` or `_`; the two `replace` calls are needed |
| Base64.Atob | client/src/context/AuthContext.jsx:28 | `atob` throws (`None`) when the input, after white space and padding are removed, has a length that is 1 mod 4, or holds a character outside the standard alphabet. `AtobOfEncodeUrl` and `DecodeEncode` give its result on an encoded payload |
| TokenCodec.DecodePayload | client/src/context/AuthContext.jsx:26-46 | The payload segment decodes only when `atob` accepts the mapped segment. Its claims then have a truthy `id` and a non-empty, lower-case `role`. `DecodeEncodedPayload` gives the exact result on an issued credential |
| TokenCodec.ExpiryMillis | client/src/context/AuthContext.jsx:71 | `decoded.exp * 1000`: NaN (`None`) exactly when `Number(exp)` is NaN, so for a missing `exp`; otherwise `Number(exp)` times 1000 |
| TokenCodec.DecodeToken | client/src/context/AuthContext.jsx:15-51 | A missing or empty token gives `No token provided`. A split with other than three parts gives `Invalid token format`, and so does every other failure inside the `try`. A success has a truthy `id` and a non-empty lower-case `role`. |
| TokenCodec.IsTokenExpiringSoon | client/src/context/AuthContext.jsx:53-59 | False for a falsy `exp` and for NaN; otherwise true exactly when `exp*1000 - now < 300000` |
| TokenCodec.DecodeEncodedPayload | client/src/context/AuthContext.jsx:26-46 | The payload segment of an issued credential decodes to the claims' `id`, lower-cased `role` and `exp` iff `id` is truthy and `role` is a non-empty string |
| TokenCodec.DecodeIssuedToken | client/src/context/AuthContext.jsx:20-46 | take a credential `h.base64url(p).s` whose payload parses to `claims`. It decodes iff `claims` has a truthy `id` and a non-empty string `role`. It then decodes to that `id`, the lower-cased `role` and `exp` as given. |
| TokenCodec.ExpiringSoonIsMonotone | client/src/context/AuthContext.jsx:53-59 | Once the warning is due it stays due at every later time |
| TokenCodec.ExpiredIsExpiringSoon | client/src/context/AuthContext.jsx:53-59 | A passed numeric `exp` also counts as expiring soon |
| Environment.Browser.constructor | client/src/context/AuthContext.jsx:62 | Starts with the given storage, no navigations and no requests |
| Environment.Browser.GetItem | client/src/context/AuthContext.jsx:62 | `getItem` is `null` exactly for an absent key, and otherwise the stored string |
| Environment.Browser.SetItem | client/src/context/AuthContext.jsx:159 | Exactly that key is set |
| Environment.Browser.RemoveItem | client/src/context/AuthContext.jsx:185-186 | Exactly that key is removed |
| Environment.Browser.Navigate | client/src/context/AuthContext.jsx:194 | One route is appended to the history |
| Environment.Browser.Send | client/src/context/AuthContext.jsx:269-275 | One request is appended to the trace |
| AuthContext.LoginEndpoint | client/src/context/AuthContext.jsx:126-133 | Admin endpoint iff `adminId` is truthy; official endpoint iff not, but `department` is; petitioner endpoint otherwise |
| AuthContext.EmailValue | client/src/context/AuthContext.jsx:136 | `email.email` for an object, reading `null.email` is a `TypeError`, any other value is kept |
| AuthContext.LoginPayload | client/src/context/AuthContext.jsx:143-149 | `email` and `password` always; each of `department`, `employeeId` and `adminId` present exactly when truthy, with its value; no other key |
| AuthContext.LoginReply | client/src/context/AuthContext.jsx:152-156 | Success exactly for an ok response with a non-null JSON body, and then with that body. A non-ok JSON object throws `data.error \|\| 'Login failed'` |
| AuthContext.LandingRoute | client/src/context/AuthContext.jsx:169-175 | Throws exactly for a `null`/`undefined` user. `petitioner` and `admin` (exact comparison) go to their dashboards, and `official` goes to `getRedirectPath` of the user's `department`. Any other role navigates nowhere |
| AuthContext.RouteForRole | client/src/context/AuthContext.jsx:192-204 | One of the four login routes; `/login` exactly for a role other than petitioner, official, admin |
| AuthContext.LogoutRedirect | client/src/context/AuthContext.jsx:191-204 | A nullish role goes to `/login`, and a string role by its lower-cased form. Any other role throws |
| AuthContext.StatusFallback | client/src/context/AuthContext.jsx:234 | `statusText \|\| 'An error occurred'` is never empty |
| AuthContext.ClassifyFailure | client/src/context/AuthContext.jsx:217-236 | Logout is forced iff the JSON `code` is one of the four session codes. Its message is then `statusText \|\| 'An error occurred'`. A body that is not JSON, or is `null`, gets the same message. Other codes get `message \|\| error \|\| 'An error occurred'`. |
| AuthContext.ApiResult | client/src/context/AuthContext.jsx:217-239 | Resolves exactly for an ok response, and then with it unchanged. A non-ok response rejects with the message `ClassifyFailure` gives it |
| AuthContext.ForcedLogoutMessage | client/src/context/AuthContext.jsx:227-234 | after a forced logout the thrown message is the status text, never "Session expired", because the inner throw is caught. |
| AuthContext.FullUrl | client/src/context/AuthContext.jsx:257-258 | The URL starts with `http`: kept when it did, otherwise prefixed with the base |
| AuthContext.FullUrlIdempotent | client/src/context/AuthContext.jsx:258 | A sanity fact about `FullUrl`, used by no other contract: prefixing happens at most once |
| AuthContext.RequestHeaders | client/src/context/AuthContext.jsx:260-274 | The caller's headers win. `Authorization` is always present: `Bearer <token>` unless the caller overrides it. `Content-Type` is present iff the body is not `FormData` or the caller sets it itself; the default is JSON. No other key is present. |
| AuthContext.RestoreSession | client/src/context/AuthContext.jsx:86-116 | No session iff either key is missing or empty. With both keys, the session is restored iff the credential decodes, `exp*1000 > now` and the stored user parses; it is rejected otherwise. A restored profile is the parsed user, and its warning is `isTokenExpiringSoon` |
| AuthContext.PeriodicCheck | client/src/context/AuthContext.jsx:61-84 | Nothing to do iff no token. A decode failure iff the token does not decode. Logout iff the token decodes with a numeric `exp` and `now >= exp*1000`. In the remaining case the warning is exactly `isTokenExpiringSoon` |
| AuthContext.FetchGate | client/src/context/AuthContext.jsx:243-254 | Missing iff no token. Bad iff it does not decode. Expired iff it decodes with a numeric `exp` and `exp*1000 <= now`. Otherwise it proceeds, carrying the stored token and its decoding |
| AuthContext.RestoredSessionPassesChecks | client/src/context/AuthContext.jsx:61-116 | A session restored at `now` passes the periodic check with the same warning, and passes the request wrapper's test |
| AuthContext.ExpiryTestsAgree | client/src/context/AuthContext.jsx:71-93 | For a numeric `exp` the three expiry tests agree: start-up rejects iff the periodic check expires iff the request wrapper expires |
| AuthContext.MissingExpiryDisagreement | client/src/context/AuthContext.jsx:71-93 | Without `exp` (NaN) start-up rejects the credential. The periodic check only clears the warning, and the request wrapper lets requests through |
| AuthContext.ResponseWarning | client/src/context/AuthContext.jsx:209-215 | Without a stored token the warning is cleared. When a stored token does not decode, the handler throws before reading the response, and only then. Otherwise the warning is `isTokenExpiringSoon` of the decoded claims at `now` |
| AuthContext.AuthProvider.constructor | client/src/context/AuthContext.jsx:10-12 | `user` null, `loading` true, no warning |
| AuthContext.AuthProvider.ClearSession | client/src/context/AuthContext.jsx:184-205 | Logout as seen by a render with a given user. `token` and `user` are removed, the user is nulled and the warning is off. The redirect is chosen by the seen role. A non-string role throws after clearing. |
| AuthContext.AuthProvider.Logout | client/src/context/AuthContext.jsx:184-205 | Storage is the old storage minus `token` and `user`. The user is null and the warning is false. The route is chosen by the lowercased prior role. A non-string role throws `TypeError` without navigating. |
| AuthContext.AuthProvider.LogoutTwice | client/src/context/AuthContext.jsx:184-205 | the second call runs from the next render, which sees no user. The cleared state is the same as after one call, and that second call goes to `/login` |
| AuthContext.AuthProvider.Bootstrap | client/src/context/AuthContext.jsx:86-116 | `loading` ends false. With no session, `user` is null, and storage, history and the warning are untouched. A restored session sets the stored profile and raises the warning if it expires soon. A rejected session clears both keys and goes to `/login`. A signed-in user still has both keys. |
| AuthContext.AuthProvider.CheckTokenExpiration | client/src/context/AuthContext.jsx:61-84 | With no token, nothing changes. A token that does not decode throws `Invalid token format` and changes nothing. `now >= exp*1000` logs out to `/login`. Otherwise the warning becomes exactly `isTokenExpiringSoon` and nothing else changes. |
| AuthContext.AuthProvider.HandleApiResponse | client/src/context/AuthContext.jsx:207-240 | A stored token that does not decode throws first, with nothing changed. Otherwise the result is `ApiResult`. An unforced outcome only raises the warning. The session codes log out, by the current user's role, before rejecting. |
| AuthContext.AuthProvider.AuthenticatedFetch | client/src/context/AuthContext.jsx:242-278 | A missing or expired token (at `now`) logs out and rejects without sending. The rejection is `No authentication token found` or `Session expired…`, or logout's `TypeError`. A token that does not decode rejects with nothing changed. Otherwise exactly one request is sent: the full URL, the merged headers, the caller's method and body. Its reply is handed to `handleApiResponse`, which reads the clock again at `later`, once `fetch` has settled. A network failure rejects with nothing changed. |
| AuthContext.AuthProvider.Login | client/src/context/AuthContext.jsx:123-182 | Exactly one login request is sent, to the chosen endpoint with the built body. Any failure before the reply is read as ok rethrows, with user, storage and history unchanged. Success stores `token` and `String(JSON.stringify(user))` and sets the user. It then navigates by role, and a null user throws after storing. |
| Grievances.TabName | client/src/official_dept/Water.jsx:18-23 | Each tab's key is one of the four store keys |
| Grievances.TabNameInjective | client/src/official_dept/Water.jsx:61 | Different tabs have different keys. `ListRequestNamesTab` uses it to show that a list URL names one tab |
| Grievances.With | client/src/official_dept/Water.jsx:81-84 | `{...prev, [tab]: v}` replaces that bucket and keeps the other three |
| Grievances.ListRequests | client/src/official_dept/Water.jsx:61-65 | One list request per tab, in order |
| Grievances.ListRequest | client/src/official_dept/Water.jsx:61-65 | A `GET` with no body, the bearer credential and no `Content-Type`. Definition; `ListRequests` and `ListRequestNamesTab` characterize it |
| Grievances.ListRequestNamesTab | client/src/official_dept/Water.jsx:61 | Two list requests of one department and credential are equal only for the same tab |
| Grievances.AcceptRequest | client/src/official_dept/Water.jsx:104-109 | A `POST` with no body, the bearer credential and no `Content-Type`. `ActionRequestsDiffer` tells it from the other actions |
| Grievances.StartProgressRequest | client/src/official_dept/Water.jsx:132-139 | A `POST` with the bearer credential, JSON content type and `comment` set to the fixed text |
| Grievances.UploadRequest | client/src/official_dept/Water.jsx:172-178 | A `POST` with the bearer credential, no `Content-Type` of its own, and a form whose one field is `document`, the file |
| Grievances.ResolveRequest | client/src/official_dept/Water.jsx:185-194 | A `POST` with the bearer credential, JSON content type, and the fixed resolution text under the dashboard's body key |
| Grievances.DeclineRequest | client/src/official_dept/Water.jsx:219-226 | A `POST` with the bearer credential, JSON content type, and `reason` set to the given reason |
| Grievances.ActionRequestsDiffer | client/src/official_dept/Water.jsx:97-240 | Requests for different actions on one grievance go to different URLs |
| Grievances.ListResult | client/src/official_dept/Water.jsx:67-88 | Data exactly from an ok reply with a non-null JSON body: the bucket becomes its `grievances`, and its `stats` are taken only when truthy. Unauthorized iff the dashboard tells 401 apart and the status is 401 |
| Grievances.ListResultWithout401 | client/src/official_dept/Electricity.jsx:56-58 | A dashboard that does not tell 401 apart reads every reply the same way, except that 401 is a plain failure |
| Grievances.TabActions | client/src/official_dept/Water.jsx:388-443 | Accept and Decline exactly on `pending`; start-progress exactly on `assigned`; resolve and chat exactly on `inProgress` |
| Grievances.Successor | client/src/official_dept/Water.jsx:115-117 | The workflow order `pending`, `assigned`, `inProgress`, `resolved`: no tab follows `resolved`, and no tab is followed by itself or by `pending` |
| Grievances.AdvancesFrom | client/src/official_dept/Water.jsx:115-117 | True exactly when `t` is the successor of the tab that offers `a`: `assigned` for accept and decline, `inProgress` for start-progress, `resolved` for resolve and chat |
| Grievances.DeclineEnabledIff | client/src/official_dept/Water.jsx:516 | Decline is enabled exactly when the reason contains a non-white-space character |
| Grievances.StartFetch | client/src/official_dept/Water.jsx:53-65 | Buckets, stats and tab are kept. `loading` is on iff a token is stored. The error is cleared, or set to the fixed text when there is no token. The tab is queued iff a token is stored. Nothing else changes. |
| Grievances.FetchTrace | client/src/official_dept/Water.jsx:56-65 | A request iff a token is stored; at most one, to `.../department/<dept>/<tab>` |
| Grievances.FinishFetch | client/src/official_dept/Water.jsx:67-94 | The oldest request settles, and `loading` goes off. Only the bucket of the tab the request was sent for is replaced, and `stats` only when the reply carried truthy stats. A failure or a 401 changes no bucket and no stats. A failure sets the fixed error text. Nothing else changes. |
| Grievances.TwoFetchesFillTwoBuckets | client/src/official_dept/Water.jsx:81-84 | The two list requests of a refresh and a tab switch, settled in order, each fill their own bucket and leave the other two alone |
| Water.Effect | client/src/official_dept/Water.jsx:37-49 | Without a user, nothing changes. With one, `id` and `email` are shown, and the current tab is queued iff a token is stored |
| Water.SwitchTab | client/src/official_dept/Water.jsx:311-329 | The tab becomes `t` and buckets and stats are kept. A fetch is queued iff the tab changed and a user and a token exist. Nothing changes for the current tab |
| Water.RefreshThenSwitch | client/src/official_dept/Water.jsx:115-117 | A refresh and then a switch queue, and send in this order, the list request for the current tab, then the one for the new tab |
| Water.Declined | client/src/official_dept/Water.jsx:232-235 | Modal closed, reason cleared, selection cleared, buckets kept, the current tab queued iff a token is stored |
| Water.DeclineBoard | client/src/official_dept/Water.jsx:212-240 | Success is `Declined`. Every failure sets the decline error and keeps modal, reason and buckets, and queues nothing |
| Water.DeclineTrace | client/src/official_dept/Water.jsx:214-226 | The decline request, with the current reason, is sent first iff a token is stored and the grievance is not null |
| Water.SearchKey | client/src/official_dept/Water.jsx:248-249 | `''` for a missing field. A string field gives `Some` of its lower-cased text. Any other value throws, and only such a value throws |
| Water.Matches | client/src/official_dept/Water.jsx:247-250 | Throws exactly when `grievanceId` is unreadable, or when it does not include the lower-cased query and `title` is unreadable. A readable `grievanceId` that includes the query keeps the item without reading `title`. With both keys readable, the item is kept iff either includes the query |
| Water.FilterItems | client/src/official_dept/Water.jsx:247-250 | Defined iff the test throws on no item. The result is a subsequence of the bucket whose elements are exactly the matching items |
| Water.FilterCounts | client/src/official_dept/Water.jsx:247-250 | Each matching item occurs in the result as often as in the bucket, and no other item occurs |
| Water.FilteredGrievances | client/src/official_dept/Water.jsx:247 | A bucket that is not an array throws; otherwise the filter of its items |
| Water.MatchesEmptyQuery | client/src/official_dept/Water.jsx:248 | Against `''` an item is kept iff its `grievanceId` is readable |
| Water.EmptyQueryKeepsAll | client/src/official_dept/Water.jsx:247-250 | The empty query keeps every item, exactly when every `grievanceId` is missing or a string |
| Water.FilterIdempotent | client/src/official_dept/Water.jsx:247-250 | Filtering the filtered list again with the same query changes nothing |
| Water.ButtonsMatchTab | client/src/official_dept/Water.jsx:388-443 | Water's buttons (Accept and Decline; Start; Chat and Resolve; none) offer exactly each tab's actions |
| Water.Buttons | client/src/official_dept/Water.jsx:388-443 | No button exactly on `resolved`; no two buttons on a row do the same thing. Which actions appear is `ButtonsMatchTab` |
| Water.WaterDashboard.constructor | client/src/official_dept/Water.jsx:14-35 | The initial state: `pending` tab, empty buckets, zero stats, loading, no error, nothing selected |
| Water.WaterDashboard.Filtered | client/src/official_dept/Water.jsx:247-250 | The list shown is `FilteredGrievances` of the current tab's bucket under the current query, so `FilterItems` and `FilterCounts` say which items appear and how often. It is a subsequence of the bucket |
| Water.WaterDashboard.IssueFetch | client/src/official_dept/Water.jsx:51-65 | The state is `StartFetch`, and exactly `FetchTrace` is sent. A queued request records the current `user` in `issuedBy`, one entry per queued tab |
| Water.WaterDashboard.SettleFetch | client/src/official_dept/Water.jsx:66-94 | The oldest request and its recorded user leave the queue. A reply other than 401 gives `FinishFetch` of it, and the session is untouched. A 401 runs the `logout` of the render that issued the request, with the user recorded for it: both keys go, the user is null and the warning is off. If that logout does not throw, it navigates by the recorded user's role and then to `/login`, and no bucket or error changes. If it throws (a recorded user whose role is neither nullish nor a string), the 401 is read as a failure with the fixed error text. A signed-in user keeps both keys. |
| Water.WaterDashboard.RunEffect | client/src/official_dept/Water.jsx:37-49 | The state is `Effect`; without a user, `/login` is navigated to and nothing is sent |
| Water.WaterDashboard.SelectTab | client/src/official_dept/Water.jsx:311-329 | The state is `SwitchTab`, with its requests and navigations |
| Water.WaterDashboard.HandleAccept | client/src/official_dept/Water.jsx:97-123 | The accept request is sent iff a token is stored and the grievance is not null. On success it refreshes the tab current at call time and then switches to `assigned`, the tab after the one that offers Accept. This sends both list requests in that order. A failure changes nothing. |
| Water.WaterDashboard.HandleStartProgress | client/src/official_dept/Water.jsx:125-152 | The start request is sent iff a token is stored. Success refreshes and switches to `inProgress`, the tab after the one that offers Start. A missing token or a failure sets `Failed to start progress` and keeps the tab. |
| Water.WaterDashboard.HandleResolve | client/src/official_dept/Water.jsx:154-210 | Nothing happens without a token or without a chosen file. The upload goes first. The resolve request, with body key `resolutionMessage`, goes only after an ok upload. Only an ok resolve refreshes, and the tab stays. Failures change nothing. |
| Water.WaterDashboard.HandleDecline | client/src/official_dept/Water.jsx:212-240 | The state is `DeclineBoard` and the requests `DeclineTrace` |
| Water.WaterDashboard.ClickDecline | client/src/official_dept/Water.jsx:494-523 | Only with the modal open and a reason that trims non-empty does the click run `handleDecline(selectedGrievance)`; otherwise nothing happens |
| Water.WaterDashboard.OpenDecline | client/src/official_dept/Water.jsx:401-405 | Selects the row and opens the modal |
| Water.WaterDashboard.CancelDecline | client/src/official_dept/Water.jsx:506-509 | Closes the modal and clears the reason |
| Water.WaterDashboard.SetDeclineReason | client/src/official_dept/Water.jsx:501 | Only the reason changes |
| Water.WaterDashboard.SetSearchQuery | client/src/official_dept/Water.jsx:342 | Only the query changes |
| Water.WaterDashboard.SelectGrievance | client/src/official_dept/Water.jsx:361 | Only the selection changes |
| Water.WaterDashboard.ViewChat | client/src/official_dept/Water.jsx:242-245 | Selects the grievance and opens the chat |
| Electricity.OrNotAvailable | client/src/official_dept/Electricity.jsx:35-36 | The stored item when present and non-empty, else `N/A` |
| Electricity.Effect | client/src/official_dept/Electricity.jsx:34-38 | Stored ids or `N/A` are shown, with no user check. The current tab is queued iff a token is stored, and buckets and stats are kept |
| Electricity.SwitchTab | client/src/official_dept/Electricity.jsx:303-322 | The tab becomes `t`. A fetch is queued iff it changed and a token is stored. Nothing changes for the current tab |
| Electricity.RefreshThenSwitch | client/src/official_dept/Electricity.jsx:96-99 | The direct refresh fetches the tab current at call time, then the effect fetches the new tab, in that order |
| Electricity.Declined | client/src/official_dept/Electricity.jsx:126-129 | Modal closed, reason cleared, selection kept, the current tab queued iff a token is stored |
| Electricity.DeclinedDiffersFromWater | client/src/official_dept/Electricity.jsx:126-129 | Water's successful decline is Electricity's with the selection also cleared |
| Electricity.DeclineBoard | client/src/official_dept/Electricity.jsx:106-134 | Success is `Declined`; any failure leaves the state exactly as it was (toast only), so the modal stays open with its reason |
| Electricity.DeclineTrace | client/src/official_dept/Electricity.jsx:108-120 | The decline request with the current reason is sent first, exactly when a token is stored |
| Electricity.ButtonsMatchTab | client/src/official_dept/Electricity.jsx:375-417 | Electricity's buttons (Accept and Decline; Start Progress; Mark as Resolved and Chat; none) offer exactly each tab's actions |
| Electricity.Buttons | client/src/official_dept/Electricity.jsx:375-417 | No button exactly on `resolved`; no two buttons on a row do the same thing. Which actions appear is `ButtonsMatchTab` |
| Electricity.SameActionsAsWater | client/src/official_dept/Electricity.jsx:375-417 | Both dashboards offer the same actions on every tab |
| Electricity.ElectricityDashboard.constructor | client/src/official_dept/Electricity.jsx:10-32 | The initial state, as on the Water dashboard |
| Electricity.ElectricityDashboard.IssueFetch | client/src/official_dept/Electricity.jsx:40-54 | The state is `StartFetch`, and exactly `FetchTrace` is sent |
| Electricity.ElectricityDashboard.SettleFetch | client/src/official_dept/Electricity.jsx:56-75 | `FinishFetch` of the reply read without a 401 case (never unauthorized); nothing outside the dashboard changes |
| Electricity.ElectricityDashboard.RunEffect | client/src/official_dept/Electricity.jsx:34-38 | The state is `Effect` on the stored items, and the list request for the tab goes out |
| Electricity.ElectricityDashboard.SelectTab | client/src/official_dept/Electricity.jsx:303-322 | The state is `SwitchTab`, with its requests |
| Electricity.ElectricityDashboard.HandleAccept | client/src/official_dept/Electricity.jsx:78-104 | The accept request is sent iff a token is stored. Success refreshes the tab current at call time and then switches to `assigned`, the tab after the one that offers Accept. A failure changes nothing. |
| Electricity.ElectricityDashboard.HandleDecline | client/src/official_dept/Electricity.jsx:106-134 | The state is `DeclineBoard` and the requests `DeclineTrace` |
| Electricity.ElectricityDashboard.ClickDecline | client/src/official_dept/Electricity.jsx:430-456 | The click acts only with the modal open, a reason that trims non-empty and a selection. It then runs `handleDecline(selectedGrievance._id)`. With no selection, reading `_id` throws and nothing is sent. |
| Electricity.ElectricityDashboard.HandleStartProgress | client/src/official_dept/Electricity.jsx:136-164 | The start request is sent iff a token is stored. Success refreshes and switches to `inProgress`, the tab after the one that offers Start Progress. A failure leaves everything as it was. |
| Electricity.ElectricityDashboard.HandleResolve | client/src/official_dept/Electricity.jsx:166-223 | The upload goes first. The resolve request, with body key `resolution`, goes only after an ok upload. An ok resolve refreshes and switches to `resolved`, the tab after the one that offers Mark as Resolved. Failures change nothing. |
| Electricity.ElectricityDashboard.HandleLogout | client/src/official_dept/Electricity.jsx:225-230 | Storage loses exactly `employeeId`, `email` and `token`; a stored `user` stays with its value; then `/` |
| Electricity.ElectricityDashboard.OpenDecline | client/src/official_dept/Electricity.jsx:385-388 | Selects the row and opens the modal |
| Electricity.ElectricityDashboard.CancelDecline | client/src/official_dept/Electricity.jsx:442-445 | Closes the modal and clears the reason |
| Electricity.ElectricityDashboard.SetDeclineReason | client/src/official_dept/Electricity.jsx:437 | Only the reason changes |
| Electricity.ElectricityDashboard.SetSearchQuery | client/src/official_dept/Electricity.jsx:335 | Only the query changes; no list depends on it |
| Electricity.ElectricityDashboard.ViewChat | client/src/official_dept/Electricity.jsx:232-235 | Selects the grievance and opens the chat |

### Where the code differs from its description

Each point below follows the code.

- `checkTokenExpiration` decodes outside any `try`, so an undecodable stored token makes it throw. It does not log out, and its `!decoded` branch is dead.
- `handleApiResponse`'s "Session expired" throw is inside its own `try`, so the caller sees the status text instead.
- `login` does not check the credential it receives. It stores `String(data.token)`, even `"undefined"`. A success without `user` stores `"undefined"` as the user and then throws on `data.user.role`.
- A login with only `employeeId` uses the petitioner endpoint: only `adminId` and `department` choose the endpoint.
- The Electricity dashboard's logout leaves `user` in storage.
- The Electricity dashboard shows a search box, but its list is not filtered. It reads but never uses the provider's `user`.

## Left out

- JSX rendering, CSS, icons and toasts. A handler whose only failure response is a toast is modelled as leaving the state unchanged.
- The chat component and the details and chat panes' markup. The Electricity `showDetails` flag and its close button are not modelled, since no handler opens it.
- `console` logging. It has no effect on state.
- Real `fetch`, HTTP, multipart encoding and header-name case-insensitivity. Replies are parameters, and headers are a map with case-sensitive keys.
- `JSON.parse`'s and `JSON.stringify`'s internals. They are fixed arbitrary functions. The payload's `JSON.parse` is the same function as the stored user's.
- `getRedirectPath`, which is defined outside the modelled files. It is a fixed arbitrary function of the department.
- Floating-point numbers. Numbers are integers, and a numeric string that is not a decimal integer reads as NaN. `exp * 1000` is exact.
- Unicode case mapping. `toLowerCase` maps only ASCII letters.
- UTF-16. A Dafny `char` is a Unicode scalar value, not a UTF-16 code unit. A character outside the Basic Multilingual Plane (an emoji, say) is one `char` in the model but two units in JavaScript, and a lone surrogate cannot be represented.
- Built-in properties of strings and arrays (such as `length`) are not read through `?.`. Only own properties of plain objects are.
- React scheduling:
  - effects are run by calling `RunEffect`/`SelectTab`;
  - the effects' re-runs when `user` changes are not automatic;
  - the 30-second interval is one `CheckTokenExpiration(now)` call per tick;
  - the stale-closure `logout` of the bootstrap effect and the interval is fixed to the first render's;
  - each dashboard's `useState` cells are one record field (`board`) that the handlers update.
- Concurrency beyond the list fetch:
  - list requests settle in the order they were issued;
  - action handlers run to completion with their replies given, so no other event interleaves between a request and its settlement.
- The file picker's DOM and `click`. A chosen file or none is a parameter.
- A failing upload or resolve inside `onchange` rejects a promise nobody awaits, so the outer `catch` never sees it. It is modelled as changing nothing.
- A render-time `TypeError` (a non-array bucket, a `grievanceId` that is not a string) is the value `None` of `Filtered`. What React does then is not modelled.
- An ok list reply whose JSON body is `null` is read by `ListResult` as `Failed`: reading `data.stats` throws (Water.jsx:86, Electricity.jsx:67) and the `catch` sets the error. The updater `prev => ({...prev, [activeTab]: data.grievances})` queued just before (Water.jsx:81-84, Electricity.jsx:62-65) reads `null.grievances` and throws again when React runs it at the next render. That second throw is not modelled.
- `Date.now()` and `toLocaleDateString`. The time is the parameter `now`, and dates are not formatted. The clock reads within one synchronous call (such as `checkTokenExpiration`'s own read and the one inside `isTokenExpiringSoon`) are taken as one instant. `authenticatedFetch` reads the clock before and after its `await`, and gets the two instants `now` and `later`. They are unrelated: `Date.now()` is a wall clock, which may step back.
