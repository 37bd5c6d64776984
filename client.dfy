/**
 * The client of client.go: its fields, the construction options that
 * `NewClient` applies, discovery of the versioned base URL, and the
 * request builder that every API call goes through.
 */
module Client {
  import opened Wrappers
  import opened Text
  import opened Api

  /** Where discovery looks unless an option says otherwise. */
  const DefaultDiscoveryUrl := "http://mafreebox.freebox.fr"

  /** The host every versioned base URL starts with, whatever the discovery URL. */
  const BoxHost := "http://mafreebox.freebox.fr"

  /** The header that carries the session token. */
  const AuthorizationHeader := "X-Fbx-App-Auth"

  const InvalidVersion := "invalid version"
  const UnsupportedVersion := "unsupported version"

  /** The fields of a client, as one value. */
  datatype Settings = Settings(
    discoveryUrl: string,
    transport: Transport,
    apiVersion: Option<APIVersion>,
    baseUrl: string,
    appId: string,
    appToken: string,
    appVersion: string,
    sessionToken: string)

  /** A fresh client before any option is applied: default discovery URL and HTTP client, every other field empty. */
  function Defaults(network: Transport): Settings
  {
    Settings(DefaultDiscoveryUrl, network, None, "", "", "", "", "")
  }

  /**
   * What an operation on a client does, as a value: its result, the
   * client's fields afterwards, the requests it sends in order, and what is
   * left of the transport's script.
   */
  datatype Run<T> = Run(result: Result<T>, state: Settings, requests: seq<HttpRequest>, rest: seq<Reply>)

  /**
   * A construction option. The first four are the library's `With*`
   * options; `Rejected` is an option written by a caller that reports an
   * error.
   */
  datatype ClientOption =
    | WithDiscoveryURL(url: string)
    | WithHTTPClient(httpClient: Transport)
    | WithApp(appId: string, appToken: string, appVersion: string)
    | WithSessionToken(sessionToken: string)
    | Rejected(error: string)

  /** The HTTP clients that some option installs. */
  function OptionTransports(options: seq<ClientOption>): set<Transport>
  {
    set i | 0 <= i < |options| && options[i].WithHTTPClient? :: options[i].httpClient
  }

  /** One option applied to the fields. */
  function ApplyOption(s: Settings, option: ClientOption): (r: Result<Settings>)
    ensures r.Err? <==> option.Rejected?
    ensures r.Ok? ==> r.value.apiVersion == s.apiVersion && r.value.baseUrl == s.baseUrl
    ensures r.Ok? && !option.WithDiscoveryURL? ==> r.value.discoveryUrl == s.discoveryUrl
    ensures r.Ok? && !option.WithHTTPClient? ==> r.value.transport == s.transport
    ensures r.Ok? && !option.WithApp? ==>
      r.value.appId == s.appId && r.value.appToken == s.appToken && r.value.appVersion == s.appVersion
    ensures r.Ok? && !option.WithSessionToken? ==> r.value.sessionToken == s.sessionToken
  {
    match option
    case WithDiscoveryURL(url) => Ok(s.(discoveryUrl := url))
    case WithHTTPClient(t) => Ok(s.(transport := t))
    case WithApp(id, token, version) => Ok(s.(appId := id, appToken := token, appVersion := version))
    case WithSessionToken(token) => Ok(s.(sessionToken := token))
    case Rejected(e) => Err(e)
  }

  /** The options applied left to right; the first one that fails ends the fold with its error. */
  function ApplyOptions(s: Settings, options: seq<ClientOption>): (r: Result<Settings>)
    ensures r.Err? <==> exists i :: 0 <= i < |options| && options[i].Rejected?
    ensures r.Ok? ==> r.value.apiVersion == s.apiVersion && r.value.baseUrl == s.baseUrl
    ensures r.Ok? ==> r.value.transport == s.transport || r.value.transport in OptionTransports(options)
    decreases |options|
  {
    if options == [] then Ok(s)
    else
      match ApplyOption(s, options[0])
      case Err(e) => Err(e)
      case Ok(next) =>
        var r := ApplyOptions(next, options[1..]);
        assert forall i :: 0 < i < |options| ==> options[i] == options[1..][i - 1];
        assert forall i :: 0 <= i < |options| - 1 ==> options[1..][i] == options[i + 1];
        r
  }

  /** Applying `a + b` is applying `a`, then `b` to what `a` gave. */
  lemma {:induction false} ApplyOptionsAppend(s: Settings, a: seq<ClientOption>, b: seq<ClientOption>)
    ensures ApplyOptions(s, a + b) ==
      match ApplyOptions(s, a)
      case Err(e) => Err(e)
      case Ok(t) => ApplyOptions(t, b)
    decreases |a|
  {
    if a == [] {
      assert a + b == b;
    } else {
      assert (a + b)[0] == a[0];
      assert (a + b)[1..] == a[1..] + b;
      var first := ApplyOption(s, a[0]);
      if first.Ok? {
        ApplyOptionsAppend(first.value, a[1..], b);
        assert ApplyOptions(s, a + b) == ApplyOptions(first.value, a[1..] + b);
        assert ApplyOptions(s, a) == ApplyOptions(first.value, a[1..]);
      }
    }
  }

  /** Options that do not set a field leave it as it was. */
  lemma {:induction false} UnsetFieldsKept(s: Settings, options: seq<ClientOption>)
    requires ApplyOptions(s, options).Ok?
    ensures var t := ApplyOptions(s, options).value;
      && ((forall i :: 0 <= i < |options| ==> !options[i].WithDiscoveryURL?) ==> t.discoveryUrl == s.discoveryUrl)
      && ((forall i :: 0 <= i < |options| ==> !options[i].WithHTTPClient?) ==> t.transport == s.transport)
      && ((forall i :: 0 <= i < |options| ==> !options[i].WithApp?) ==>
            t.appId == s.appId && t.appToken == s.appToken && t.appVersion == s.appVersion)
      && ((forall i :: 0 <= i < |options| ==> !options[i].WithSessionToken?) ==> t.sessionToken == s.sessionToken)
    decreases |options|
  {
    if options != [] {
      var next := ApplyOption(s, options[0]).value;
      assert forall i :: 0 <= i < |options| - 1 ==> options[1..][i] == options[i + 1];
      UnsetFieldsKept(next, options[1..]);
    }
  }

  /** Later options override earlier ones: the last option that sets a field decides it. */
  lemma LastOptionWins(s: Settings, a: seq<ClientOption>, option: ClientOption, b: seq<ClientOption>)
    requires ApplyOptions(s, a + [option] + b).Ok?
    ensures var t := ApplyOptions(s, a + [option] + b).value;
      && (option.WithDiscoveryURL? && (forall i :: 0 <= i < |b| ==> !b[i].WithDiscoveryURL?) ==>
            t.discoveryUrl == option.url)
      && (option.WithHTTPClient? && (forall i :: 0 <= i < |b| ==> !b[i].WithHTTPClient?) ==>
            t.transport == option.httpClient)
      && (option.WithApp? && (forall i :: 0 <= i < |b| ==> !b[i].WithApp?) ==>
            t.appId == option.appId && t.appToken == option.appToken && t.appVersion == option.appVersion)
      && (option.WithSessionToken? && (forall i :: 0 <= i < |b| ==> !b[i].WithSessionToken?) ==>
            t.sessionToken == option.sessionToken)
  {
    ApplyOptionsAppend(s, a + [option], b);
    ApplyOptionsAppend(s, a, [option]);
    var u := ApplyOptions(s, a).value;
    assert ApplyOptions(u, [option]) == ApplyOption(u, option);
    UnsetFieldsKept(ApplyOption(u, option).value, b);
  }

  /** The first option that fails aborts construction with its error, whatever follows. */
  lemma FirstRejectionAborts(s: Settings, a: seq<ClientOption>, error: string, b: seq<ClientOption>)
    requires forall i :: 0 <= i < |a| ==> !a[i].Rejected?
    ensures ApplyOptions(s, a + [Rejected(error)] + b) == Err(error)
  {
    ApplyOptionsAppend(s, a + [Rejected(error)], b);
    ApplyOptionsAppend(s, a, [Rejected(error)]);
  }

  /** A reported `api_version` whose first dot-separated segment is exactly "6". */
  predicate MajorIsSix(version: string)
  {
    version == "6" || (|version| >= 2 && version[..2] == "6.")
  }

  /** The first dot-separated segment of a version is "6" exactly when the version is "6" or starts with "6.". */
  lemma FirstSegmentIsSix(version: string)
    ensures Split(version, '.')[0] == "6" <==> MajorIsSix(version)
  {
  }

  /** Trailing slashes on the discovery URL do not change where discovery looks. */
  lemma DiscoveryIgnoresTrailingSlash(discoveryUrl: string)
    ensures DiscoveryRequest(discoveryUrl + "/") == DiscoveryRequest(discoveryUrl)
  {
  }

  /**
   * The version gate and base-URL build of discovery: accepted exactly when
   * the first dot-separated segment of the reported version is "6", giving
   * the box host, the reported API base path and "v6/".
   */
  function Admit(v: APIVersion): (r: Result<string>)
    ensures r.Ok? <==> MajorIsSix(v.apiVersion)
    ensures r.Ok? ==> r.value == BoxHost + v.apiBaseUrl + "v6/"
    ensures r.Err? ==> r.error == UnsupportedVersion
  {
    FirstSegmentIsSix(v.apiVersion);
    var parts := Split(v.apiVersion, '.');
    if |parts| == 0 then Err(InvalidVersion)
    else if parts[0] != "6" then Err(UnsupportedVersion)
    else Ok(BoxHost + v.apiBaseUrl + "v" + parts[0] + "/")
  }

  /** Versions "6", "6.0" and "6.x" pass the gate; "60.1", "", "7.0", "5.9" and "garbage" are unsupported. */
  lemma VersionGateExamples(v: APIVersion)
    ensures Admit(v.(apiVersion := "6")).Ok?
    ensures Admit(v.(apiVersion := "6.0")).Ok? && Admit(v.(apiVersion := "6.x")).Ok?
    ensures Admit(v.(apiVersion := "60.1")) == Err(UnsupportedVersion)
    ensures Admit(v.(apiVersion := "")) == Err(UnsupportedVersion)
    ensures Admit(v.(apiVersion := "7.0")) == Err(UnsupportedVersion)
    ensures Admit(v.(apiVersion := "5.9")) == Err(UnsupportedVersion)
    ensures Admit(v.(apiVersion := "garbage")) == Err(UnsupportedVersion)
  {
  }

  /** The request discovery sends: a bare GET of `/api_version` under the discovery URL. */
  function DiscoveryRequest(discoveryUrl: string): (request: HttpRequest)
    ensures request.verb == "GET" && request.header == map[] && request.body == None
    ensures request.url == TrimRight(discoveryUrl, '/') + "/api_version"
  {
    HttpRequest("GET", TrimRight(discoveryUrl, '/') + "/api_version", map[], None)
  }

  /** What discovery does to a client whose transport will answer with `replies`. */
  function DiscoverRun(s: Settings, replies: seq<Reply>): (r: Run<()>)
    ensures r.requests == [DiscoveryRequest(s.discoveryUrl)] && r.rest == Remaining(replies)
    ensures r.result.Err? ==> r.state == s
    ensures r.result.Err? ==>
      r.result.error == match AsVersion(Next(replies)) case Err(e) => e case Ok(_) => UnsupportedVersion
    ensures r.result.Ok? <==>
      replies != [] && replies[0].Answer? && replies[0].document.VersionDocument? &&
      MajorIsSix(replies[0].document.version.apiVersion)
    ensures r.result.Ok? ==>
      var v := replies[0].document.version;
      r.state == s.(apiVersion := Some(v), baseUrl := BoxHost + v.apiBaseUrl + "v6/")
  {
    var request := DiscoveryRequest(s.discoveryUrl);
    match AsVersion(Next(replies))
    case Err(e) => Run(Err(e), s, [request], Remaining(replies))
    case Ok(v) =>
      match Admit(v)
      case Err(e) => Run(Err(e), s, [request], Remaining(replies))
      case Ok(url) => Run(Ok(()), s.(apiVersion := Some(v), baseUrl := url), [request], Remaining(replies))
  }

  /**
   * The request behind every API call: the base URL followed by the
   * resource, a JSON content type, and the session token exactly when the
   * call is authenticated.
   */
  function Outgoing(s: Settings, verb: string, resource: string, authenticated: bool,
                    body: Option<map<string, string>>): (request: HttpRequest)
    ensures request.verb == verb && request.url == s.baseUrl + resource && request.body == body
    ensures request.header.Keys ==
      if authenticated then {"Content-Type", AuthorizationHeader} else {"Content-Type"}
    ensures request.header["Content-Type"] == "application/json"
    ensures authenticated ==> request.header[AuthorizationHeader] == s.sessionToken
  {
    var header := map["Content-Type" := "application/json"];
    HttpRequest(verb, s.baseUrl + resource,
                if authenticated then header[AuthorizationHeader := s.sessionToken] else header, body)
  }

  class Client {
    var discoveryUrl: string
    var transport: Transport
    var apiVersion: Option<APIVersion>
    var baseUrl: string
    var appId: string
    var appToken: string
    var appVersion: string
    var sessionToken: string

    /** The fields as one value. */
    function State(): Settings
      reads this
    {
      Settings(discoveryUrl, transport, apiVersion, baseUrl, appId, appToken, appVersion, sessionToken)
    }

    /** The client `NewClient` starts from, before options. */
    constructor (network: Transport)
      ensures State() == Defaults(network)
    {
      discoveryUrl := DefaultDiscoveryUrl;
      transport := network;
      apiVersion := None;
      baseUrl := "";
      appId, appToken, appVersion := "", "", "";
      sessionToken := "";
    }

    /** Runs one construction option on this client. */
    method Apply(option: ClientOption) returns (r: Result<()>)
      modifies this
      ensures match ApplyOption(old(State()), option)
        case Ok(s) => r == Ok(()) && State() == s
        case Err(e) => r == Err(e) && State() == old(State())
    {
      match option
      case WithDiscoveryURL(url) =>
        discoveryUrl := url;
        r := Ok(());
      case WithHTTPClient(t) =>
        transport := t;
        r := Ok(());
      case WithApp(id, token, version) =>
        appId := id;
        appToken := token;
        appVersion := version;
        r := Ok(());
      case WithSessionToken(token) =>
        sessionToken := token;
        r := Ok(());
      case Rejected(e) =>
        r := Err(e);
    }

    /** Runs the options left to right, stopping at the first that fails. */
    method ApplyAll(options: seq<ClientOption>) returns (r: Result<()>)
      modifies this
      ensures match ApplyOptions(old(State()), options)
        case Ok(s) => r == Ok(()) && State() == s
        case Err(e) => r == Err(e)
    {
      ghost var start := State();
      var i := 0;
      while i < |options|
        invariant 0 <= i <= |options|
        invariant ApplyOptions(start, options[..i]) == Ok(State())
      {
        var applied := Apply(options[i]);
        ApplyOptionsAppend(start, options[..i], [options[i]]);
        assert options[..i + 1] == options[..i] + [options[i]];
        if applied.Err? {
          ApplyOptionsAppend(start, options[..i + 1], options[i + 1..]);
          assert options[..i + 1] + options[i + 1..] == options;
          return applied;
        }
        i := i + 1;
      }
      assert options[..i] == options;
      r := Ok(());
    }

    /**
     * Fetches the version document, checks the major version and, only when
     * it is accepted, stores the document and the versioned base URL.
     */
    method Discover() returns (r: Result<()>)
      modifies this, transport
      ensures var run := DiscoverRun(old(State()), old(transport.replies));
        && r == run.result && State() == run.state
        && transport.sent == old(transport.sent) + run.requests
        && transport.replies == run.rest
    {
      var reply := transport.Do(DiscoveryRequest(discoveryUrl));
      var version := AsVersion(reply);
      if version.Err? {
        return Err(version.error);
      }
      var admitted := Admit(version.value);
      if admitted.Err? {
        return Err(admitted.error);
      }
      apiVersion := Some(version.value);
      baseUrl := admitted.value;
      r := Ok(());
    }

    /** Builds the request for `resource` and makes the round trip; the client's fields do not change. */
    method Request(verb: string, resource: string, authenticated: bool, body: Option<map<string, string>>)
      returns (reply: Reply)
      modifies transport
      ensures transport.sent == old(transport.sent) + [Outgoing(State(), verb, resource, authenticated, body)]
      ensures reply == Next(old(transport.replies)) && transport.replies == Remaining(old(transport.replies))
    {
      var header := map["Content-Type" := "application/json"];
      if authenticated {
        header := header[AuthorizationHeader := sessionToken];
      }
      reply := transport.Do(HttpRequest(verb, baseUrl + resource, header, body));
    }

    /** A GET, which never has a body. */
    method Get(resource: string, authenticated: bool) returns (reply: Reply)
      modifies transport
      ensures transport.sent == old(transport.sent) + [Outgoing(State(), "GET", resource, authenticated, None)]
      ensures reply == Next(old(transport.replies)) && transport.replies == Remaining(old(transport.replies))
    {
      reply := Request("GET", resource, authenticated, None);
    }

    method Post(resource: string, authenticated: bool, body: Option<map<string, string>>) returns (reply: Reply)
      modifies transport
      ensures transport.sent == old(transport.sent) + [Outgoing(State(), "POST", resource, authenticated, body)]
      ensures reply == Next(old(transport.replies)) && transport.replies == Remaining(old(transport.replies))
    {
      reply := Request("POST", resource, authenticated, body);
    }

    method Put(resource: string, authenticated: bool, body: Option<map<string, string>>) returns (reply: Reply)
      modifies transport
      ensures transport.sent == old(transport.sent) + [Outgoing(State(), "PUT", resource, authenticated, body)]
      ensures reply == Next(old(transport.replies)) && transport.replies == Remaining(old(transport.replies))
    {
      reply := Request("PUT", resource, authenticated, body);
    }

    /** Installs an application credential; nothing else changes. */
    method SetApp(id: string, token: string, version: string)
      modifies this
      ensures State() == old(State()).(appId := id, appToken := token, appVersion := version)
    {
      appId := id;
      appToken := token;
      appVersion := version;
    }

    /** Installs a session token; nothing else changes. */
    method SetSessionToken(token: string)
      modifies this
      ensures State() == old(State()).(sessionToken := token)
    {
      sessionToken := token;
    }
  }

  /**
   * Builds a client: defaults, then the options left to right (the first
   * that fails aborts before any request), then discovery. The client is
   * returned only when every step succeeds.
   */
  method NewClient(network: Transport, options: seq<ClientOption>) returns (c: Client?, r: Result<()>)
    modifies {network} + OptionTransports(options)
    ensures match ApplyOptions(Defaults(network), options)
      case Err(e) =>
        && c == null && r == Err(e)
        && forall t :: t in {network} + OptionTransports(options) ==>
             t.sent == old(t.sent) && t.replies == old(t.replies)
      case Ok(s) =>
        var run := DiscoverRun(s, old(s.transport.replies));
        && r == run.result
        && (c != null <==> r.Ok?)
        && (c != null ==> fresh(c) && c.State() == run.state)
        && s.transport.sent == old(s.transport.sent) + run.requests
        && s.transport.replies == run.rest
        && forall t :: t in {network} + OptionTransports(options) && t != s.transport ==>
             t.sent == old(t.sent) && t.replies == old(t.replies)
  {
    var client := new Client(network);
    r := client.ApplyAll(options);
    if r.Err? {
      return null, r;
    }
    r := client.Discover();
    c := if r.Ok? then client else null;
  }
}
