# freebox-go client and authentication, modelled in Dafny

This project models the core of `freebox-go`, a Go client for the Freebox
appliance's HTTP control API. It covers:

- the client record: discovery URL, HTTP client, API descriptor, versioned
  base URL, application credential (`appId`, `appToken`, `appVersion`) and
  session token;
- the construction options and `NewClient`, which applies them left to right
  and then runs discovery;
- discovery's version gate (the first `.`-separated segment of `api_version`
  must be exactly `"6"`) and its base-URL build;
- the request builder behind `Get`, `Post` and `Put`;
- the application-authorization handshake (`Authorize`: request, then poll
  while `"pending"`, then succeed only on `"granted"`);
- session login (`OpenSession`, `Login`).

The network is an oracle. The class `Api.Transport` holds the script of
replies the appliance will give, in order, and a log of every request sent.
Each round trip consumes one reply, which is either an error or a decoded
JSON document. Once the script is exhausted, every further round trip fails.
As a result the handshake's poll loop always terminates.

Operations that change a client are imperative methods on `Client.Client`,
or module-level methods that take the client as their first argument
(Go's methods on `*Client` in authentication.go). The four top-level
operations (`Discover`, `Authorize`, `OpenSession` and `Login`) are proved
against pure functions (`DiscoverRun`, `AuthorizeRun`, `OpenSessionRun`,
`LoginRun`). Each function describes the whole effect as a `Run` value: the
result, the client's fields afterwards, the requests sent and the replies
left. `Apply` is proved against `ApplyOption`, which gives the new fields or
the option's error. `SetApp` and `SetSessionToken` state their new fields as
an update of `State()`. The single round trips (`Request`, `Get`, `Post`,
`Put`, `RequestAuthorization` and `TrackAuthorizationProgress`) state the
request they send, built by `Outgoing`, and the reply they return. The lemmas about these functions state what the
source promises.

Files: `wrappers.dfy` (Option, Result), `text.dfy` (Go's `strings.Split`,
`strings.TrimRight` and `%d`), `api.dfy` (requests, documents, transport),
`client.dfy` (client.go), `authentication.dfy` (authentication.go).

`strings.Split` always returns at least one piece, so the `invalid version`
branch at client.go:83-85 cannot be reached. Every rejected version,
`"garbage"` and `""` included, fails with `unsupported version`. `Client.Admit` and `Client.VersionGateExamples`
state this.

## Model

| member | source | states |
|---|---|---|
| `Text.Split` | client.go:82 | always at least one piece; joining the pieces with the separator gives the input back; no piece contains the separator; the first piece is the prefix before the first separator |
| `Text.TrimRight` | client.go:71 | the result is a prefix of the input that does not end in the cut character, and everything removed is that character |
| `Text.NatToDecimal` | authentication.go:60 | the numeral is all digits, reads back as the number, and has no leading zero |
| `Text.FormatInt` | authentication.go:60 | `%d` formatting: a `-` exactly for negative numbers, followed by the shortest decimal numeral of the absolute value |
| `Text.FormatIntInjective` | authentication.go:60 | distinct integers format to distinct strings |
| `Api.Transport.Do` | client.go:117-125 | one round trip: the request is appended to the log, the next scripted reply is returned and consumed, and an exhausted script yields a transport error |
| `Client.ApplyOption` | client.go:160-188 | each `With*` option sets only its own fields and never touches `apiVersion` or `baseUrl`; only a failing option errors |
| `Client.ApplyOptions` | client.go:54-59 | the fold errors exactly when some option errors; it never changes `apiVersion` or `baseUrl`; the resulting HTTP client is the default or one installed by an option |
| `Client.ApplyOptionsAppend` | client.go:54-59 | applying `a + b` is applying `a` and then `b` to the result, stopping at the first error |
| `Client.UnsetFieldsKept` | client.go:160-188 | a field that no option in the list sets keeps its starting value |
| `Client.LastOptionWins` | client.go:54-59 | later options override earlier ones: the last option that sets a field decides its value |
| `Client.FirstRejectionAborts` | client.go:54-58 | the first failing option ends construction with its error, whatever follows it |
| `Client.FirstSegmentIsSix` | client.go:82-86 | the first `.`-separated segment is `"6"` exactly when the version is `"6"` or starts with `"6."` |
| `Client.Admit` | client.go:82-92 | the gate accepts exactly when the first segment is `"6"` and then builds the box host, the reported API base path and `v6/`; any other version is `unsupported version`, so `invalid version` is unreachable |
| `Client.VersionGateExamples` | client.go:82-88 | `"6"`, `"6.0"`, `"6.x"` pass; `"60.1"`, `""`, `"7.0"`, `"5.9"`, `"garbage"` are unsupported |
| `Client.DiscoveryRequest` | client.go:71 | discovery is a bare GET of the discovery URL without trailing `/` characters, followed by `/api_version` |
| `Client.DiscoveryIgnoresTrailingSlash` | client.go:71 | adding a trailing `/` to the discovery URL does not change the request |
| `Client.DiscoverRun` | client.go:69-95 | one request; success exactly when the reply is a version document whose first segment is `"6"`; on success only `apiVersion` (the document) and `baseUrl` (independent of the discovery URL) change; on failure nothing changes and the error is the round trip's own or `unsupported version` |
| `Client.Outgoing` | client.go:107-115 | the URL is the base URL followed by the resource; `Content-Type: application/json` is always set; `X-Fbx-App-Auth` is present exactly when authenticated and then carries the session token |
| `Client.Client.constructor` | client.go:49-52 | a new client has the default discovery URL and HTTP client and every other field empty |
| `Client.Client.Apply` | client.go:160-188 | runs one option on the client's fields as `ApplyOption` describes; a failing option changes nothing |
| `Client.Client.ApplyAll` | client.go:54-59 | the option loop: the fields end as `ApplyOptions` gives them, and the first failing option stops the loop with its error |
| `Client.Client.Discover` | client.go:69-95 | the client's fields and transport change exactly as `DiscoverRun` says |
| `Client.Client.Request` | client.go:97-132 | sends exactly the request `Outgoing` describes and returns the next reply; no client field changes |
| `Client.Client.Get` | client.go:134-136 | a `GET` with no body |
| `Client.Client.Post` | client.go:138-140 | a `POST` with the given body |
| `Client.Client.Put` | client.go:142-144 | a `PUT` with the given body |
| `Client.Client.SetApp` | client.go:150-154 | overwrites exactly `appId`, `appToken` and `appVersion` |
| `Client.Client.SetSessionToken` | client.go:156-158 | overwrites exactly `sessionToken` |
| `Client.NewClient` | client.go:48-67 | options are applied left to right; a failing option aborts with its error before any request; otherwise discovery runs on the chosen HTTP client, and a client is returned exactly when discovery succeeds |
| `Authentication.TokenRequestBody` | authentication.go:9-14 | the authorization request carries `app_id`, `app_name`, `app_version` and `device_name` from the payload |
| `Authentication.AuthorizationRequest` | authentication.go:49-51 | starting the handshake is an unauthenticated `POST` to `login/authorize/` whose body is the payload |
| `Authentication.ProgressRequest` | authentication.go:58-65 | a poll is an unauthenticated `GET` of `login/authorize/<track id>` with no body |
| `Authentication.ProgressRequestInjective` | authentication.go:60 | polls for different track ids are different requests |
| `Authentication.SessionRequest` | authentication.go:72-83 | opening a session is an unauthenticated `POST` to `login/session/` with `app_id` and the password derived from the app token and the challenge |
| `Authentication.LoginStatusRequest` | authentication.go:131 | the status request is a `GET` of `login/` carrying the current session token |
| `Authentication.Poll` | authentication.go:101-113 | at least one poll; the replies consumed are exactly the polls made; a settled status is never `"pending"`; running out of replies ends with a transport error |
| `Authentication.PollSettled` | authentication.go:101-113 | a loop that settles did so on the first non-pending status, after pending statuses only |
| `Authentication.PollSettlesAt` | authentication.go:101-113 | pending statuses followed by another status: the loop settles on it after exactly that many polls |
| `Authentication.PollBroken` | authentication.go:102-105 | a loop that fails does so at its last poll, after pending statuses only, with that poll's error |
| `Authentication.PollFailsAt` | authentication.go:102-105 | pending statuses followed by a failing poll: the loop stops there with that error, and no poll follows |
| `Authentication.AuthorizeRun` | authentication.go:90-122 | the first request is the authorization `POST`; on success only the credential changes, to the payload's app id and version and the returned token; on any error nothing changes; a failing authorization request ends it with that request's error, no poll and one reply consumed |
| `Authentication.OnlyGrantedAuthorizes` | authentication.go:96-121 | success implies an authorization answer, then pending statuses, then `"granted"`; the token returned is the one from the first answer, and every poll targets that answer's track id |
| `Authentication.GrantedAuthorizes` | authentication.go:96-121 | an authorization answer, then pending statuses, then `"granted"`, always succeeds with the first answer's token and installs the credential |
| `Authentication.HandshakeScenario` | authentication.go:90-122 | track id 42, one `"pending"`, then `"granted"`: two polls of `login/authorize/42`, then the issued token is installed with the caller's app id and version |
| `Authentication.OtherStatusRejected` | authentication.go:115-117 | settling on any status other than `"granted"` fails with `invalid authorization status: <status>` and changes nothing |
| `Authentication.PollErrorEndsHandshake` | authentication.go:101-105 | a failing poll ends the handshake with its error, with no further poll and no change to the client |
| `Authentication.OpenSessionRun` | authentication.go:67-86 | never changes the client; without a credential it fails with `no app configured` and sends nothing; otherwise it sends exactly the session request and returns the decoded session answer or the round trip's error, consuming one reply |
| `Authentication.LoginRun` | authentication.go:125-146 | only `sessionToken` can change, and only on success; without a credential it sends nothing; a failing or undecodable status request ends it with that error and nothing else sent; when the box reports logged in it sends only the status request and changes nothing; otherwise it opens a session with the reported challenge and takes the token from the session answer exactly when that answer decodes, failing otherwise with the session step's own error |
| `Authentication.LoginIdempotentWhenLoggedIn` | authentication.go:135-137 | two logins while the box reports a live session both succeed, send the same single request and leave the client unchanged |
| `Authentication.RequestAuthorization` | authentication.go:49-56 | sends the authorization `POST` and decodes its answer; no client field changes |
| `Authentication.TrackAuthorizationProgress` | authentication.go:58-65 | sends one poll and decodes its answer; no client field changes |
| `Authentication.OpenSession` | authentication.go:67-86 | behaves as `OpenSessionRun` says, without changing any client field |
| `Authentication.AwaitDecision` | authentication.go:101-113 | the poll loop returns `Poll`'s outcome, sends exactly `Poll`'s number of progress requests for the track id and consumes exactly the replies `Poll` reads; no client field changes |
| `Authentication.Authorize` | authentication.go:90-122 | the client and transport change exactly as `AuthorizeRun` says |
| `Authentication.Login` | authentication.go:125-146 | the client and transport change exactly as `LoginRun` says |

## Left out

- `generatePassword` (helpers.go:9-16, HMAC-SHA1 keyed by the app token, hex encoded) is not part of this model. Operations that need it take it as a function parameter `derive`. Its error result is not modelled, since writing to an HMAC never fails.
- HTTP transport and JSON encoding and decoding are the `Transport` oracle. Building a request is assumed never to fail, so the errors of `json.Marshal` and `http.NewRequest` are not modelled.
- A reply holding a document of another type stands for a body that cannot be decoded. The model does not reproduce `encoding/json` filling missing fields with zero values.
- The response envelope (`success`, `msg`, `error_code`) is not modelled. The source decodes it but never reads it, so, as in the source, a failure envelope is handled like a success.
- The `TODO`s at client.go:127-129 are not modelled as behaviour, because the source does not implement them: challenge extraction, success checking and 403 handling.
- The two-second `time.Sleep` between polls is a no-op step; there is no clock. The source has no cancellation or timeout. A box that stays `"pending"` forever would make `Authorize` loop forever. The model can only script finitely many replies, so it does not represent that run.
- The `APIVersion()` getter (client.go:146-148) is not a separate member. The model's `apiVersion` field is read directly.
- Beyond its role as the oracle, the `*http.Client` passed to `WithHTTPClient` is not modelled. `ClientOption.Rejected` stands for a caller-written option that returns an error, since `Option` is an open function type and the four library options never fail.
- Nil pointers are not modelled: a nil payload and a `null` document, on which the source would panic.
- Go's `int` track id is an unbounded integer. `%d` prints both the same way within Go's range.
- port_forwarding.go and the programs under examples/ are not part of this model: they are REST wrappers and command-line drivers.
