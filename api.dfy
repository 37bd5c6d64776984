/**
 * The appliance's HTTP API as the client sees it: the requests it sends,
 * the JSON documents it decodes from the answers, and the transport that
 * carries them. The transport stands for `net/http` together with
 * `encoding/json`: an oracle that answers each request with the next
 * scripted reply, either a decoded document or an error.
 */
module Api {
  import opened Wrappers

  /** A request handed to the transport; the body is a JSON object of strings. */
  datatype HttpRequest = HttpRequest(
    verb: string,
    url: string,
    header: map<string, string>,
    body: Option<map<string, string>>)

  /** The discovery document served at `/api_version`. */
  datatype APIVersion = APIVersion(
    boxModelName: string,
    apiBaseUrl: string,
    httpsPort: int,
    deviceName: string,
    httpsAvailable: bool,
    boxModel: string,
    apiDomain: string,
    uid: string,
    apiVersion: string,
    deviceType: string)

  /** The `result` of `login/authorize/`. */
  datatype AuthorizationResult = AuthorizationResult(appToken: string, trackId: int)

  /** The `result` of `login/authorize/<track id>`. */
  datatype ProgressResult = ProgressResult(status: string, challenge: string)

  /** The `result` of `login/session/`. */
  datatype SessionResult = SessionResult(
    sessionToken: string,
    permissions: map<string, bool>,
    challenge: string)

  /** The `result` of `login/`. */
  datatype LoginResult = LoginResult(loggedIn: bool, challenge: string)

  datatype Document =
    | VersionDocument(version: APIVersion)
    | AuthorizationDocument(authorization: AuthorizationResult)
    | ProgressDocument(progress: ProgressResult)
    | SessionDocument(session: SessionResult)
    | LoginDocument(login: LoginResult)

  /** What one round trip yields: a transport or decoding error, or a decoded document. */
  datatype Reply = Failed(error: string) | Answer(document: Document)

  /** The error of a round trip made after the scripted replies ran out. */
  const NoReply := "connection refused"

  /** The error of an answer whose document does not have the shape the call decodes into. */
  const CannotDecode := "cannot decode response"

  /** The reply the transport gives next. */
  function Next(replies: seq<Reply>): (r: Reply)
    ensures r.Answer? ==> replies != [] && r == replies[0]
  {
    if replies == [] then Failed(NoReply) else replies[0]
  }

  /** The script left after one round trip. */
  function Remaining(replies: seq<Reply>): seq<Reply>
  {
    if replies == [] then [] else replies[1..]
  }

  function AsVersion(r: Reply): Result<APIVersion>
  {
    match r
    case Failed(e) => Err(e)
    case Answer(VersionDocument(v)) => Ok(v)
    case Answer(_) => Err(CannotDecode)
  }

  function AsAuthorization(r: Reply): Result<AuthorizationResult>
  {
    match r
    case Failed(e) => Err(e)
    case Answer(AuthorizationDocument(a)) => Ok(a)
    case Answer(_) => Err(CannotDecode)
  }

  function AsProgress(r: Reply): Result<ProgressResult>
  {
    match r
    case Failed(e) => Err(e)
    case Answer(ProgressDocument(p)) => Ok(p)
    case Answer(_) => Err(CannotDecode)
  }

  function AsSession(r: Reply): Result<SessionResult>
  {
    match r
    case Failed(e) => Err(e)
    case Answer(SessionDocument(s)) => Ok(s)
    case Answer(_) => Err(CannotDecode)
  }

  function AsLogin(r: Reply): Result<LoginResult>
  {
    match r
    case Failed(e) => Err(e)
    case Answer(LoginDocument(l)) => Ok(l)
    case Answer(_) => Err(CannotDecode)
  }

  /**
   * The HTTP client: `replies` is what the appliance will answer, in order,
   * and `sent` records every request issued so far.
   */
  class Transport {
    var replies: seq<Reply>
    var sent: seq<HttpRequest>

    /** One round trip: record the request and consume the next reply. */
    method Do(request: HttpRequest) returns (reply: Reply)
      modifies this
      ensures sent == old(sent) + [request]
      ensures reply == Next(old(replies)) && replies == Remaining(old(replies))
    {
      sent := sent + [request];
      reply := Next(replies);
      replies := Remaining(replies);
    }
  }
}
