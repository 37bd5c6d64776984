/**
 * The application-authorization handshake and session login of
 * authentication.go. The Go methods on `*Client` are methods here that take
 * the client as their first argument. Each operation comes with a function
 * that describes its whole effect as a value (a `Run`), and the lemmas
 * about those functions state what the handshake and the login promise.
 */
module Authentication {
  import opened Wrappers
  import opened Text
  import opened Api
  import opened Client

  const NoAppConfigured := "no app configured"
  const Pending := "pending"
  const Granted := "granted"

  /** The error of a handshake that settled on any status but "granted". */
  function InvalidStatus(status: string): string
  {
    "invalid authorization status: " + status
  }

  /** The identity an application submits when asking to be authorized. */
  datatype TokenRequestPayload = TokenRequestPayload(
    appId: string,
    appName: string,
    appVersion: string,
    deviceName: string)

  /** The payload as the JSON object it is sent as. */
  function TokenRequestBody(p: TokenRequestPayload): (body: map<string, string>)
    ensures body.Keys == {"app_id", "app_name", "app_version", "device_name"}
    ensures body["app_id"] == p.appId && body["app_version"] == p.appVersion
    ensures body["app_name"] == p.appName && body["device_name"] == p.deviceName
  {
    map["app_id" := p.appId, "app_name" := p.appName, "app_version" := p.appVersion, "device_name" := p.deviceName]
  }

  /**
   * The password derivation (HMAC-SHA1 of the challenge keyed by the app
   * token, hex encoded), given to the operations that need it.
   */
  type PasswordDeriver = (string, string) -> string

  /** An application credential is configured. */
  predicate HasApp(s: Settings)
  {
    s.appId != "" && s.appToken != ""
  }

  /** The request that starts the handshake: an unauthenticated POST of the payload to `login/authorize/`. */
  function AuthorizationRequest(s: Settings, p: TokenRequestPayload): (request: HttpRequest)
    ensures request.verb == "POST" && request.url == s.baseUrl + "login/authorize/"
    ensures AuthorizationHeader !in request.header
    ensures request.body == Some(TokenRequestBody(p))
  {
    Outgoing(s, "POST", "login/authorize/", false, Some(TokenRequestBody(p)))
  }

  /** The progress poll for one track id: an unauthenticated GET of `login/authorize/<id>`. */
  function ProgressRequest(s: Settings, trackId: int): (request: HttpRequest)
    ensures request.verb == "GET" && request.body == None && AuthorizationHeader !in request.header
    ensures request.url == s.baseUrl + "login/authorize/" + FormatInt(trackId)
  {
    Outgoing(s, "GET", "login/authorize/" + FormatInt(trackId), false, None)
  }

  /** Polls for distinct track ids are distinct requests. */
  lemma ProgressRequestInjective(s: Settings, a: int, b: int)
    requires ProgressRequest(s, a) == ProgressRequest(s, b)
    ensures a == b
  {
    var n := |s.baseUrl + "login/authorize/"|;
    assert ProgressRequest(s, a).url[n..] == FormatInt(a);
    assert ProgressRequest(s, b).url[n..] == FormatInt(b);
    FormatIntInjective(a, b);
  }

  /** The session request: an unauthenticated POST of the app id and the password for `challenge`. */
  function SessionRequest(s: Settings, derive: PasswordDeriver, challenge: string): (request: HttpRequest)
    ensures request.verb == "POST" && request.url == s.baseUrl + "login/session/"
    ensures AuthorizationHeader !in request.header
    ensures request.body == Some(map["app_id" := s.appId, "password" := derive(s.appToken, challenge)])
  {
    Outgoing(s, "POST", "login/session/", false,
             Some(map["app_id" := s.appId, "password" := derive(s.appToken, challenge)]))
  }

  /** The login-status request: a GET of `login/` that carries the current session token. */
  function LoginStatusRequest(s: Settings): (request: HttpRequest)
    ensures request.verb == "GET" && request.url == s.baseUrl + "login/" && request.body == None
    ensures AuthorizationHeader in request.header && request.header[AuthorizationHeader] == s.sessionToken
  {
    Outgoing(s, "GET", "login/", true, None)
  }

  /** `n` copies of `x`. */
  function Repeat<T>(x: T, n: nat): (r: seq<T>)
    ensures |r| == n && forall i :: 0 <= i < n ==> r[i] == x
  {
    if n == 0 then [] else Repeat(x, n - 1) + [x]
  }

  /**
   * The polling loop as a value: the status it settled on or the error
   * that ended it, how many polls it made, and the script left afterwards.
   */
  datatype PollRun = PollRun(outcome: Result<string>, polls: nat, rest: seq<Reply>)

  predicate IsPending(r: Reply)
  {
    r.Answer? && r.document.ProgressDocument? && r.document.progress.status == Pending
  }

  /** A progress answer with a status that ends the loop. */
  predicate SettlesOn(r: Reply, status: string)
  {
    r.Answer? && r.document.ProgressDocument? && r.document.progress.status == status && status != Pending
  }

  /** Polls while the status is "pending"; stops at the first other status or the first error. */
  function Poll(replies: seq<Reply>): (r: PollRun)
    ensures 1 <= r.polls
    ensures r.polls <= |replies| ==> r.rest == replies[r.polls..]
    ensures r.polls > |replies| ==> r.polls == |replies| + 1 && r.rest == [] && r.outcome == Err(NoReply)
    ensures r.outcome.Ok? ==> r.outcome.value != Pending
    decreases |replies|
  {
    match AsProgress(Next(replies))
    case Err(e) => PollRun(Err(e), 1, Remaining(replies))
    case Ok(progress) =>
      if progress.status != Pending then PollRun(Ok(progress.status), 1, replies[1..])
      else
        var later := Poll(replies[1..]);
        assert later.polls <= |replies[1..]| ==> replies[1..][later.polls..] == replies[later.polls + 1..];
        PollRun(later.outcome, later.polls + 1, later.rest)
  }

  /** A poll loop that settles did so on the first non-pending answer, after pending answers only. */
  lemma {:induction false} PollSettled(replies: seq<Reply>)
    requires Poll(replies).outcome.Ok?
    ensures var r := Poll(replies);
      && r.polls <= |replies|
      && (forall i :: 0 <= i < r.polls - 1 ==> IsPending(replies[i]))
      && SettlesOn(replies[r.polls - 1], r.outcome.value)
    decreases |replies|
  {
    if AsProgress(Next(replies)).Ok? && AsProgress(Next(replies)).value.status == Pending {
      PollSettled(replies[1..]);
    }
  }

  /** Pending answers followed by a settling one: the loop settles on it after exactly that many polls. */
  lemma {:induction false} PollSettlesAt(replies: seq<Reply>, k: nat, status: string)
    requires k < |replies|
    requires forall i :: 0 <= i < k ==> IsPending(replies[i])
    requires SettlesOn(replies[k], status)
    ensures Poll(replies) == PollRun(Ok(status), k + 1, replies[k + 1..])
    decreases k
  {
    if k > 0 {
      PollSettlesAt(replies[1..], k - 1, status);
      assert replies[1..][k..] == replies[k + 1..];
    }
  }

  /**
   * A poll loop that fails does so at its last poll, after pending answers
   * only, with the error of that poll; no poll follows it.
   */
  lemma {:induction false} PollBroken(replies: seq<Reply>)
    requires Poll(replies).outcome.Err?
    ensures var r := Poll(replies);
      && (forall i :: 0 <= i < r.polls - 1 ==> IsPending(replies[i]))
      && (r.polls <= |replies| ==> AsProgress(replies[r.polls - 1]) == Err(r.outcome.error))
    decreases |replies|
  {
    if AsProgress(Next(replies)).Ok? {
      PollBroken(replies[1..]);
    }
  }

  /** Pending answers followed by one that fails: the loop ends there with that error. */
  lemma {:induction false} PollFailsAt(replies: seq<Reply>, k: nat)
    requires k < |replies|
    requires forall i :: 0 <= i < k ==> IsPending(replies[i])
    requires AsProgress(replies[k]).Err?
    ensures Poll(replies) == PollRun(Err(AsProgress(replies[k]).error), k + 1, replies[k + 1..])
    decreases k
  {
    if k > 0 {
      PollFailsAt(replies[1..], k - 1);
      assert replies[1..][k..] == replies[k + 1..];
    }
  }

  /** What `Authorize` does to a client whose transport will answer with `replies`. */
  function AuthorizeRun(s: Settings, payload: TokenRequestPayload, replies: seq<Reply>): (r: Run<string>)
    ensures r.result.Err? ==> r.state == s
    ensures r.result.Ok? ==>
      r.state == s.(appId := payload.appId, appToken := r.result.value, appVersion := payload.appVersion)
    ensures |r.requests| >= 1 && r.requests[0] == AuthorizationRequest(s, payload)
    ensures AsAuthorization(Next(replies)).Err? ==>
      r == Run(Err(AsAuthorization(Next(replies)).error), s, [AuthorizationRequest(s, payload)], Remaining(replies))
  {
    var ask := AuthorizationRequest(s, payload);
    match AsAuthorization(Next(replies))
    case Err(e) => Run(Err(e), s, [ask], Remaining(replies))
    case Ok(grant) =>
      var poll := Poll(replies[1..]);
      var requests := [ask] + Repeat(ProgressRequest(s, grant.trackId), poll.polls);
      match poll.outcome
      case Err(e) => Run(Err(e), s, requests, poll.rest)
      case Ok(status) =>
        if status != Granted then Run(Err(InvalidStatus(status)), s, requests, poll.rest)
        else Run(Ok(grant.appToken),
                 s.(appId := payload.appId, appToken := grant.appToken, appVersion := payload.appVersion),
                 requests, poll.rest)
  }

  /**
   * A handshake succeeds only when the authorization answer is followed by
   * pending statuses and then "granted"; it returns the app token of the
   * authorization answer and polls that answer's track id throughout.
   */
  lemma OnlyGrantedAuthorizes(s: Settings, payload: TokenRequestPayload, replies: seq<Reply>)
    requires AuthorizeRun(s, payload, replies).result.Ok?
    ensures replies != [] && replies[0].Answer? && replies[0].document.AuthorizationDocument?
    ensures var grant := replies[0].document.authorization;
      var r := AuthorizeRun(s, payload, replies);
      var n := |r.requests| - 1;
      && r.result.value == grant.appToken
      && n < |replies|
      && (forall i :: 1 <= i < n ==> IsPending(replies[i]))
      && SettlesOn(replies[n], Granted)
      && (forall i :: 1 <= i <= n ==> r.requests[i] == ProgressRequest(s, grant.trackId))
      && r.rest == replies[n + 1..]
  {
    var poll := Poll(replies[1..]);
    PollSettled(replies[1..]);
    forall i | 1 <= i < poll.polls ensures IsPending(replies[i]) {
      assert replies[i] == replies[1..][i - 1];
    }
    assert replies[poll.polls] == replies[1..][poll.polls - 1];
    assert replies[1..][poll.polls..] == replies[poll.polls + 1..];
  }

  /** An authorization answer, pending statuses and then "granted": the handshake succeeds with the first answer's token. */
  lemma GrantedAuthorizes(s: Settings, payload: TokenRequestPayload, replies: seq<Reply>,
                          appToken: string, trackId: int, k: nat)
    requires k + 1 < |replies|
    requires replies[0] == Answer(AuthorizationDocument(AuthorizationResult(appToken, trackId)))
    requires forall i :: 1 <= i <= k ==> IsPending(replies[i])
    requires SettlesOn(replies[k + 1], Granted)
    ensures AuthorizeRun(s, payload, replies) ==
      Run(Ok(appToken),
          s.(appId := payload.appId, appToken := appToken, appVersion := payload.appVersion),
          [AuthorizationRequest(s, payload)] + Repeat(ProgressRequest(s, trackId), k + 1),
          replies[k + 2..])
  {
    PollSettlesAt(replies[1..], k, Granted);
    assert replies[1..][k + 1..] == replies[k + 2..];
  }

  /**
   * The handshake against a box that answers with track id 42, one
   * "pending" and then "granted": the token of the first answer is
   * installed beside the caller's app id and version.
   */
  lemma HandshakeScenario(s: Settings, payload: TokenRequestPayload)
    ensures var replies := [Answer(AuthorizationDocument(AuthorizationResult("token", 42))),
                            Answer(ProgressDocument(ProgressResult(Pending, ""))),
                            Answer(ProgressDocument(ProgressResult(Granted, "")))];
      var r := AuthorizeRun(s, payload, replies);
      && r.result == Ok("token")
      && r.state.appId == payload.appId && r.state.appToken == "token" && r.state.appVersion == payload.appVersion
      && |r.requests| == 3
      && r.requests[1].url == r.requests[2].url == s.baseUrl + "login/authorize/42"
      && r.rest == []
  {
    var replies := [Answer(AuthorizationDocument(AuthorizationResult("token", 42))),
                    Answer(ProgressDocument(ProgressResult(Pending, ""))),
                    Answer(ProgressDocument(ProgressResult(Granted, "")))];
    GrantedAuthorizes(s, payload, replies, "token", 42, 1);
    assert NatToDecimal(4) == "4" && NatToDecimal(42) == NatToDecimal(4) + "2";
  }

  /** A handshake that settles on any other status fails with that status and changes nothing. */
  lemma OtherStatusRejected(s: Settings, payload: TokenRequestPayload, replies: seq<Reply>,
                            grant: AuthorizationResult, k: nat, status: string)
    requires k + 1 < |replies|
    requires replies[0] == Answer(AuthorizationDocument(grant))
    requires forall i :: 1 <= i <= k ==> IsPending(replies[i])
    requires SettlesOn(replies[k + 1], status) && status != Granted
    ensures AuthorizeRun(s, payload, replies) ==
      Run(Err(InvalidStatus(status)), s,
          [AuthorizationRequest(s, payload)] + Repeat(ProgressRequest(s, grant.trackId), k + 1),
          replies[k + 2..])
  {
    PollSettlesAt(replies[1..], k, status);
    assert replies[1..][k + 1..] == replies[k + 2..];
  }

  /** A poll that fails ends the handshake with its error; no further poll is sent and nothing changes. */
  lemma PollErrorEndsHandshake(s: Settings, payload: TokenRequestPayload, replies: seq<Reply>,
                               grant: AuthorizationResult, k: nat)
    requires k + 1 < |replies|
    requires replies[0] == Answer(AuthorizationDocument(grant))
    requires forall i :: 1 <= i <= k ==> IsPending(replies[i])
    requires AsProgress(replies[k + 1]).Err?
    ensures AuthorizeRun(s, payload, replies) ==
      Run(Err(AsProgress(replies[k + 1]).error), s,
          [AuthorizationRequest(s, payload)] + Repeat(ProgressRequest(s, grant.trackId), k + 1),
          replies[k + 2..])
  {
    PollFailsAt(replies[1..], k);
    assert replies[1..][k + 1..] == replies[k + 2..];
  }

  /** What `OpenSession` does: it never changes the client, and without a credential it sends nothing. */
  function OpenSessionRun(s: Settings, derive: PasswordDeriver, challenge: string, replies: seq<Reply>)
    : (r: Run<SessionResult>)
    ensures r.state == s
    ensures !HasApp(s) ==> r.result == Err(NoAppConfigured) && r.requests == [] && r.rest == replies
    ensures HasApp(s) ==> r.requests == [SessionRequest(s, derive, challenge)]
    ensures HasApp(s) ==> r.result == AsSession(Next(replies)) && r.rest == Remaining(replies)
  {
    if !HasApp(s) then Run(Err(NoAppConfigured), s, [], replies)
    else Run(AsSession(Next(replies)), s, [SessionRequest(s, derive, challenge)], Remaining(replies))
  }

  /** What `Login` does to a client whose transport will answer with `replies`. */
  function LoginRun(s: Settings, derive: PasswordDeriver, replies: seq<Reply>): (r: Run<()>)
    ensures r.state == s.(sessionToken := r.state.sessionToken)
    ensures !HasApp(s) ==> r.result == Err(NoAppConfigured) && r.requests == [] && r.rest == replies
    ensures r.result.Err? ==> r.state == s
    ensures HasApp(s) && AsLogin(Next(replies)).Err? ==>
      r == Run(Err(AsLogin(Next(replies)).error), s, [LoginStatusRequest(s)], Remaining(replies))
    ensures HasApp(s) && AsLogin(Next(replies)).Ok? && !AsLogin(Next(replies)).value.loggedIn ==>
      && r.rest == Remaining(replies[1..])
      && (r.result.Err? <==> AsSession(Next(replies[1..])).Err?)
      && (r.result.Err? ==> r.result.error == AsSession(Next(replies[1..])).error)
    ensures HasApp(s) && replies != [] && replies[0].Answer? && replies[0].document.LoginDocument? &&
            replies[0].document.login.loggedIn ==>
      r == Run(Ok(()), s, [LoginStatusRequest(s)], replies[1..])
    ensures HasApp(s) && replies != [] && replies[0].Answer? && replies[0].document.LoginDocument? &&
            !replies[0].document.login.loggedIn ==>
      && r.requests == [LoginStatusRequest(s), SessionRequest(s, derive, replies[0].document.login.challenge)]
      && (r.result.Ok? <==> |replies| >= 2 && replies[1].Answer? && replies[1].document.SessionDocument?)
      && (r.result.Ok? ==> r.state.sessionToken == replies[1].document.session.sessionToken)
  {
    if !HasApp(s) then Run(Err(NoAppConfigured), s, [], replies)
    else
      var ask := LoginStatusRequest(s);
      match AsLogin(Next(replies))
      case Err(e) => Run(Err(e), s, [ask], Remaining(replies))
      case Ok(status) =>
        if status.loggedIn then Run(Ok(()), s, [ask], Remaining(replies))
        else
          var attempt := OpenSessionRun(s, derive, status.challenge, Remaining(replies));
          match attempt.result
          case Err(e) => Run(Err(e), s, [ask] + attempt.requests, attempt.rest)
          case Ok(session) =>
            Run(Ok(()), s.(sessionToken := session.sessionToken), [ask] + attempt.requests, attempt.rest)
  }

  /** Logging in twice while the box reports a live session leaves the client as it was both times. */
  lemma LoginIdempotentWhenLoggedIn(s: Settings, derive: PasswordDeriver, first: string, second: string,
                                    more: seq<Reply>)
    requires HasApp(s)
    ensures var replies := [Answer(LoginDocument(LoginResult(true, first))),
                            Answer(LoginDocument(LoginResult(true, second)))] + more;
      var once := LoginRun(s, derive, replies);
      var twice := LoginRun(once.state, derive, once.rest);
      && once.result == twice.result == Ok(())
      && once.state == twice.state == s
      && once.requests == twice.requests == [LoginStatusRequest(s)]
      && twice.rest == more
  {
  }

  /** The request that starts the handshake; the client's fields do not change. */
  method RequestAuthorization(c: Client, payload: TokenRequestPayload) returns (r: Result<AuthorizationResult>)
    modifies c.transport
    ensures c.transport.sent == old(c.transport.sent) + [AuthorizationRequest(c.State(), payload)]
    ensures r == AsAuthorization(Next(old(c.transport.replies)))
    ensures c.transport.replies == Remaining(old(c.transport.replies))
  {
    var reply := c.Post("login/authorize/", false, Some(TokenRequestBody(payload)));
    r := AsAuthorization(reply);
  }

  /** One poll of the handshake's status; the client's fields do not change. */
  method TrackAuthorizationProgress(c: Client, trackId: int) returns (r: Result<ProgressResult>)
    modifies c.transport
    ensures c.transport.sent == old(c.transport.sent) + [ProgressRequest(c.State(), trackId)]
    ensures r == AsProgress(Next(old(c.transport.replies)))
    ensures c.transport.replies == Remaining(old(c.transport.replies))
  {
    var reply := c.Get("login/authorize/" + FormatInt(trackId), false);
    r := AsProgress(reply);
  }

  /**
   * Opens a session with the password for `challenge`; refuses without a
   * credential before sending anything, and never changes the client.
   */
  method OpenSession(c: Client, derive: PasswordDeriver, challenge: string) returns (r: Result<SessionResult>)
    modifies c.transport
    ensures var run := OpenSessionRun(c.State(), derive, challenge, old(c.transport.replies));
      && r == run.result
      && c.transport.sent == old(c.transport.sent) + run.requests
      && c.transport.replies == run.rest
  {
    if c.appId == "" || c.appToken == "" {
      return Err(NoAppConfigured);
    }
    var password := derive(c.appToken, challenge);
    var reply := c.Post("login/session/", false, Some(map["app_id" := c.appId, "password" := password]));
    r := AsSession(reply);
  }

  /**
   * Polls `trackId` while the status is "pending" and returns the first
   * other status, or the error of the poll that failed; the client's
   * fields do not change.
   */
  method AwaitDecision(c: Client, trackId: int) returns (r: Result<string>)
    modifies c.transport
    ensures var poll := Poll(old(c.transport.replies));
      && r == poll.outcome
      && c.transport.sent == old(c.transport.sent) + Repeat(ProgressRequest(c.State(), trackId), poll.polls)
      && c.transport.replies == poll.rest
  {
    ghost var script := c.transport.replies;
    ghost var log := c.transport.sent;
    ghost var polls: nat := 0;
    ghost var request := ProgressRequest(c.State(), trackId);
    while true
      invariant c.transport.sent == log + Repeat(request, polls)
      invariant Poll(script) == Poll(c.transport.replies).(polls := Poll(c.transport.replies).polls + polls)
      decreases |c.transport.replies|
    {
      var progress := TrackAuthorizationProgress(c, trackId);
      if progress.Err? {
        assert Poll(script) == PollRun(Err(progress.error), polls + 1, c.transport.replies);
        assert c.transport.sent == log + Repeat(request, polls + 1);
        return Err(progress.error);
      }
      if progress.value.status != Pending {
        assert Poll(script) == PollRun(Ok(progress.value.status), polls + 1, c.transport.replies);
        assert c.transport.sent == log + Repeat(request, polls + 1);
        return Ok(progress.value.status);
      }
      // The source sleeps two seconds here.
      polls := polls + 1;
    }
  }

  /**
   * Requests an app token, polls its track id while the status is
   * "pending" and, only when it settles on "granted", installs the
   * credential and returns the token.
   */
  method Authorize(c: Client, payload: TokenRequestPayload) returns (r: Result<string>)
    modifies c, c.transport
    ensures var run := AuthorizeRun(old(c.State()), payload, old(c.transport.replies));
      && r == run.result && c.State() == run.state
      && c.transport.sent == old(c.transport.sent) + run.requests
      && c.transport.replies == run.rest
  {
    var requested := RequestAuthorization(c, payload);
    if requested.Err? {
      return Err(requested.error);
    }
    var trackId, appToken := requested.value.trackId, requested.value.appToken;
    var decision := AwaitDecision(c, trackId);
    if decision.Err? {
      return Err(decision.error);
    }
    if decision.value != Granted {
      return Err(InvalidStatus(decision.value));
    }
    c.SetApp(payload.appId, appToken, payload.appVersion);
    r := Ok(appToken);
  }

  /**
   * Logs in with the configured credential: refuses without one, does
   * nothing more when the box reports a live session, and otherwise opens
   * a session with the reported challenge and keeps its token.
   */
  method Login(c: Client, derive: PasswordDeriver) returns (r: Result<()>)
    modifies c, c.transport
    ensures var run := LoginRun(old(c.State()), derive, old(c.transport.replies));
      && r == run.result && c.State() == run.state
      && c.transport.sent == old(c.transport.sent) + run.requests
      && c.transport.replies == run.rest
  {
    if c.appId == "" || c.appToken == "" {
      return Err(NoAppConfigured);
    }
    var reply := c.Get("login/", true);
    var status := AsLogin(reply);
    if status.Err? {
      return Err(status.error);
    }
    if status.value.loggedIn {
      return Ok(());
    }
    var session := OpenSession(c, derive, status.value.challenge);
    if session.Err? {
      return Err(session.error);
    }
    c.SetSessionToken(session.value.sessionToken);
    r := Ok(());
  }
}
