/**
 * The hapi authenticate function built by `authenticateFactory`: the
 * decision it takes for each request, the side table that carries
 * authentication response headers from that decision to the
 * `onPreResponse` hook, and the hook that merges them into the response.
 */
module AuthRedirect {
  import opened Wrappers
  import opened Headers

  /** The identity of an in-flight request, the key of the header side table. */
  type RequestId = int

  /** `xpack_main.info`: is licensing information available, and is the security feature enabled. */
  datatype LicenseInfo = LicenseInfo(available: bool, securityEnabled: bool)

  /** An error value; only its message is read here. */
  datatype Error = Error(message: string)

  /** The authenticated user the security plugin reports. */
  datatype User = User(username: string)

  /** The credentials handed to `h.authenticated`: `{}` or the user. */
  datatype Credentials = EmptyCredentials | UserCredentials(user: User)

  /**
   * What `server.plugins.security.authenticate(request)` resolves to. Its
   * three predicates are read one after another, so each is a flag of its own.
   */
  datatype AuthenticationResult = AuthenticationResult(
    succeeded: bool,
    redirected: bool,
    failed: bool,
    user: User,
    redirectURL: string,
    error: Error,
    authResponseHeaders: Option<seq<Header>>)

  /** The awaited authenticate call either throws or resolves to a result. */
  datatype Attempt = Threw(err: Error) | Returned(result: AuthenticationResult)

  /** What `authenticate` hands back to hapi. */
  datatype Decision =
    | Authenticated(credentials: Credentials)  // h.authenticated({ credentials })
    | Redirect(url: string)                    // h.redirect(url).takeover()
    | WrappedError(error: Error)               // wrapError(error)
    | Unauthorized                             // Boom.unauthorized()

  /** What `server.log` receives besides the tags: an error object or a text message. */
  datatype LogData = ErrorObject(err: Error) | Message(text: string)

  datatype LogEntry = LogEntry(tags: seq<string>, data: LogData)

  /** The only signal the `onPreResponse` hook ever returns: `h.continue`. */
  datatype HookResult = Continue

  const ErrorTags: seq<string> := ["error", "authentication"]
  const InfoTags: seq<string> := ["info", "authentication"]
  const FailedPrefix: string := "Authentication attempt failed: "

  /** Licensing information is available and says security is off. */
  predicate SecurityDisabled(info: LicenseInfo)
  {
    info.available && !info.securityEnabled
  }

  /** The authenticate call resolved and its result carries response headers. */
  predicate CarriesHeaders(attempt: Attempt)
  {
    attempt.Returned? && attempt.result.authResponseHeaders.Some?
  }

  /** The call resolved to a result that neither succeeded nor redirected, but failed. */
  predicate FailedOnly(attempt: Attempt)
  {
    attempt.Returned? && !attempt.result.succeeded && !attempt.result.redirected && attempt.result.failed
  }

  /**
   * The decision for one request, given the licensing state and what the
   * authenticate call did (not consulted when security is disabled).
   */
  function Decide(info: LicenseInfo, attempt: Attempt): (d: Decision)
    ensures SecurityDisabled(info) ==> d == Authenticated(EmptyCredentials)
    ensures d.Authenticated? <==> SecurityDisabled(info) || (attempt.Returned? && attempt.result.succeeded)
    ensures d.Redirect? <==>
              !SecurityDisabled(info) && attempt.Returned? && !attempt.result.succeeded && attempt.result.redirected
    ensures d.WrappedError? <==> !SecurityDisabled(info) && (attempt.Threw? || FailedOnly(attempt))
    ensures d.Unauthorized? <==>
              !SecurityDisabled(info) && attempt.Returned?
              && !attempt.result.succeeded && !attempt.result.redirected && !attempt.result.failed
    ensures d.Authenticated? && !SecurityDisabled(info) ==> d.credentials == UserCredentials(attempt.result.user)
    ensures d.Redirect? ==> d.url == attempt.result.redirectURL
    ensures d.WrappedError? ==> d.error == if attempt.Threw? then attempt.err else attempt.result.error
  {
    if SecurityDisabled(info) then Authenticated(EmptyCredentials)
    else
      match attempt
      case Threw(err) => WrappedError(err)
      case Returned(result) =>
        if result.succeeded then Authenticated(UserCredentials(result.user))
        else if result.redirected then Redirect(result.redirectURL)
        else if result.failed then WrappedError(result.error)
        else Unauthorized
  }

  /** The entries `server.log` receives while deciding one request. */
  function LogFor(info: LicenseInfo, attempt: Attempt): (entries: seq<LogEntry>)
    ensures |entries| <= 1
    ensures entries != [] <==> Decide(info, attempt).WrappedError?
    ensures entries != [] && attempt.Threw? ==> entries[0] == LogEntry(ErrorTags, ErrorObject(attempt.err))
    ensures entries != [] && attempt.Returned? ==>
              entries[0] == LogEntry(InfoTags, Message(FailedPrefix + attempt.result.error.message))
  {
    if SecurityDisabled(info) then []
    else
      match attempt
      case Threw(err) => [LogEntry(ErrorTags, ErrorObject(err))]
      case Returned(result) =>
        if !result.succeeded && !result.redirected && result.failed
        then [LogEntry(InfoTags, Message(FailedPrefix + result.error.message))]
        else []
  }

  /** The header side table after deciding `request`. */
  function Remember(table: map<RequestId, seq<Header>>, request: RequestId, info: LicenseInfo, attempt: Attempt)
    : (t: map<RequestId, seq<Header>>)
    ensures t - {request} == table - {request}
    ensures !SecurityDisabled(info) && CarriesHeaders(attempt) ==>
              request in t && t[request] == attempt.result.authResponseHeaders.value
    ensures SecurityDisabled(info) || !CarriesHeaders(attempt) ==> t == table
  {
    if !SecurityDisabled(info) && CarriesHeaders(attempt)
    then table[request := attempt.result.authResponseHeaders.value]
    else table
  }

  /**
   * The headers the `onPreResponse` hook leaves on a response, whether a
   * Boom error or a normal one.
   */
  function Finalized(table: map<RequestId, seq<Header>>, request: RequestId, isBoom: bool, headers: HeaderMap)
    : (r: HeaderMap)
    ensures request !in table ==> r == headers
    ensures request in table ==> r == headers + EntriesMap(table[request])
  {
    if request !in table then headers
    else if isBoom then headers + EntriesMap(table[request])
    else
      OverlayIsSpread(headers, table[request]);
      Overlay(headers, table[request])
  }

  /**
   * Headers the authenticate call returned reach the response of that
   * request, whichever decision was taken and whether or not the response
   * is a Boom error: each carries its own value, and every other header
   * keeps the value it had.
   */
  lemma HeadersReachResponse(
    table: map<RequestId, seq<Header>>, request: RequestId, info: LicenseInfo, attempt: Attempt,
    isBoom: bool, headers: HeaderMap)
    requires !SecurityDisabled(info) && CarriesHeaders(attempt)
    requires DistinctNames(attempt.result.authResponseHeaders.value)
    ensures var auth := attempt.result.authResponseHeaders.value;
            var r := Finalized(Remember(table, request, info, attempt), request, isBoom, headers);
            && (forall i :: 0 <= i < |auth| ==> auth[i].name in r && r[auth[i].name] == auth[i].value)
            && (forall n :: n in headers && n !in Names(auth) ==> n in r && r[n] == headers[n])
  {
    var auth := attempt.result.authResponseHeaders.value;
    forall i | 0 <= i < |auth|
      ensures EntriesMap(auth)[auth[i].name] == auth[i].value
    {
      OverlaySetsEveryEntry(map[], auth, i);
    }
  }

  /** Deciding one request never changes what another request's response receives. */
  lemma OtherRequestsUntouched(
    table: map<RequestId, seq<Header>>, request: RequestId, other: RequestId,
    info: LicenseInfo, attempt: Attempt, isBoom: bool, headers: HeaderMap)
    requires other != request
    ensures Finalized(Remember(table, request, info, attempt), other, isBoom, headers)
         == Finalized(table, other, isBoom, headers)
  {
  }

  /** The outcomes the authentication result class can stand for. */
  datatype Outcome = Succeeded(user: User) | Redirected(url: string) | Failed(error: Error) | NotHandled

  /** The result object for an outcome: exactly one of its predicates holds, or none for "not handled". */
  function ResultOf(outcome: Outcome, headers: Option<seq<Header>>): (result: AuthenticationResult)
    ensures result.succeeded <==> outcome.Succeeded?
    ensures result.redirected <==> outcome.Redirected?
    ensures result.failed <==> outcome.Failed?
    ensures result.authResponseHeaders == headers
  {
    match outcome
    case Succeeded(user) => AuthenticationResult(true, false, false, user, "", Error(""), headers)
    case Redirected(url) => AuthenticationResult(false, true, false, User(""), url, Error(""), headers)
    case Failed(error) => AuthenticationResult(false, false, true, User(""), "", error, headers)
    case NotHandled => AuthenticationResult(false, false, false, User(""), "", Error(""), headers)
  }

  /**
   * With security enabled (or licensing unavailable), each outcome maps to
   * its own decision, and only a failure is logged.
   */
  lemma OutcomeDecision(info: LicenseInfo, outcome: Outcome, headers: Option<seq<Header>>)
    requires !SecurityDisabled(info)
    ensures Decide(info, Returned(ResultOf(outcome, headers))) == match outcome
      case Succeeded(user) => Authenticated(UserCredentials(user))
      case Redirected(url) => Redirect(url)
      case Failed(error) => WrappedError(error)
      case NotHandled => Unauthorized
    ensures LogFor(info, Returned(ResultOf(outcome, headers))) != [] <==> outcome.Failed?
  {
  }

  /** The collaborators the core reaches through `server`. */
  class Server {
    /** `server.plugins.xpack_main.info`. */
    var xpackInfo: LicenseInfo
    /** What `server.plugins.security.authenticate` does for each request. */
    const securityAuthenticate: RequestId -> Attempt
    /** The requests `securityAuthenticate` was called for, in order. */
    var authenticateCalls: seq<RequestId>
    /** Everything `server.log` received, in order. */
    var log: seq<LogEntry>

    constructor (xpackInfo: LicenseInfo, securityAuthenticate: RequestId -> Attempt)
      ensures this.xpackInfo == xpackInfo && this.securityAuthenticate == securityAuthenticate
      ensures authenticateCalls == [] && log == []
    {
      this.xpackInfo := xpackInfo;
      this.securityAuthenticate := securityAuthenticate;
      authenticateCalls := [];
      log := [];
    }

    method Authenticate(request: RequestId) returns (attempt: Attempt)
      modifies this`authenticateCalls
      ensures attempt == securityAuthenticate(request)
      ensures authenticateCalls == old(authenticateCalls) + [request]
    {
      attempt := securityAuthenticate(request);
      authenticateCalls := authenticateCalls + [request];
    }

    method Log(tags: seq<string>, data: LogData)
      modifies this`log
      ensures log == old(log) + [LogEntry(tags, data)]
    {
      log := log + [LogEntry(tags, data)];
    }
  }

  /** The state `authenticateFactory` closes over, and the two functions it installs. */
  class Gate {
    const server: Server
    /** `authResponseHeadersMap`: headers to attach to each request's response. */
    var authResponseHeadersMap: map<RequestId, seq<Header>>

    /** `authenticateFactory(server)`, with an empty side table. */
    constructor (server: Server)
      ensures this.server == server && authResponseHeadersMap == map[]
    {
      this.server := server;
      authResponseHeadersMap := map[];
    }

    /**
     * `authenticate(request, h)`: the collaborator is called exactly when
     * security is not disabled, the decision, the log and the side table
     * are those of the specification functions above, and no other
     * request's table entry changes.
     */
    method Authenticate(request: RequestId) returns (d: Decision)
      modifies this`authResponseHeadersMap, server`authenticateCalls, server`log
      ensures d == Decide(server.xpackInfo, server.securityAuthenticate(request))
      ensures server.authenticateCalls
           == old(server.authenticateCalls) + if SecurityDisabled(server.xpackInfo) then [] else [request]
      ensures server.log == old(server.log) + LogFor(server.xpackInfo, server.securityAuthenticate(request))
      ensures authResponseHeadersMap
           == Remember(old(authResponseHeadersMap), request, server.xpackInfo, server.securityAuthenticate(request))
    {
      var info := server.xpackInfo;
      if info.available && !info.securityEnabled {
        return Authenticated(EmptyCredentials);
      }

      var attempt := server.Authenticate(request);
      if attempt.Threw? {
        server.Log(ErrorTags, ErrorObject(attempt.err));
        return WrappedError(attempt.err);
      }
      var result := attempt.result;

      if result.authResponseHeaders.Some? {
        authResponseHeadersMap := authResponseHeadersMap[request := result.authResponseHeaders.value];
      }

      if result.succeeded {
        return Authenticated(UserCredentials(result.user));
      }

      if result.redirected {
        return Redirect(result.redirectURL);
      }

      if result.failed {
        server.Log(InfoTags, Message(FailedPrefix + result.error.message));
        return WrappedError(result.error);
      }

      return Unauthorized;
    }

    /**
     * The `onPreResponse` hook: merges the headers stored for `request` into
     * `response` (auth values win, other headers keep theirs), leaves it
     * alone when none are stored, and always continues.
     */
    method OnPreResponse(request: RequestId, response: Response) returns (r: HookResult)
      modifies response
      ensures response.headers == Finalized(authResponseHeadersMap, request, response.isBoom, old(response.headers))
      ensures r == Continue
    {
      if request in authResponseHeadersMap {
        var auth := authResponseHeadersMap[request];
        if response.isBoom {
          response.headers := response.headers + EntriesMap(auth);
        } else {
          for k := 0 to |auth|
            invariant response.headers == Overlay(old(response.headers), auth[..k])
          {
            response.SetHeader(auth[k].name, auth[k].value);
            assert auth[..k + 1][..k] == auth[..k];
          }
          assert auth[..|auth|] == auth;
          OverlayIsSpread(old(response.headers), auth);
        }
      }
      return Continue;
    }
  }
}
