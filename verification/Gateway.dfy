/**
 * The tool handlers' use of the auth service: building the request headers,
 * `set_credentials`, and `get_trackings_summary`, each turning a thrown
 * error into an error-flagged tool result.
 *
 * Remote responses are parameters; the bodies of the other remote calls are
 * passed through untouched and are not modelled.
 */
module Gateway {
  import opened Wrappers
  import opened JsValues
  import opened Auth
  import Tracking

  /** The headers of every remote call. */
  datatype Headers = Headers(authorization: string, contentType: string)

  function BearerHeaders(token: string): Headers {
    Headers("Bearer " + token, "application/json")
  }

  /** What `getHeaders` left behind and produced. */
  datatype HeaderOutcome = HeaderOutcome(config: Config, headers: Result<Headers, AuthError>, requests: nat)

  function ToHeaders(o: Outcome): HeaderOutcome {
    HeaderOutcome(
      o.config,
      match o.result
      case Success(t) => Success(BearerHeaders(t))
      case Failure(e) => Failure(e),
      o.requests)
  }

  /**
   * The headers reflect a `login()`: the configuration and the request count
   * it left behind, success exactly when it succeeded, and its error as is.
   */
  predicate LoginReported(o: Outcome, h: HeaderOutcome) {
    && h.config == o.config
    && h.requests == o.requests
    && (h.headers.Success? <==> o.result.Success?)
    && (o.result.Failure? ==> h.headers == Failure(o.result.error))
  }

  /** `getHeaders` of the streaming servers: through `ensureAuthenticated`. */
  function GetHeaders(c: Config, reply: LoginReply): (h: HeaderOutcome)
    ensures Present(c.token) ==> h == HeaderOutcome(c, Success(BearerHeaders(c.token.value)), 0)
    ensures !Present(c.token) ==> LoginReported(Login(c, None, None, reply), h)
    ensures h.headers.Success? ==> h.config.token.Some? && h.headers.value == BearerHeaders(h.config.token.value)
  {
    ToHeaders(EnsureAuthenticated(c, reply))
  }

  /** `getHeaders` of the standard-input server: `login()` on every call, the cached token unused. */
  function GetHeadersByLogin(c: Config, reply: LoginReply): (h: HeaderOutcome)
    ensures Present(c.email) && Present(c.password) ==> h.requests == 1
    ensures LoginReported(Login(c, None, None, reply), h)
    ensures h.headers.Success? ==> h.config.token.Some? && h.headers.value == BearerHeaders(h.config.token.value)
  {
    ToHeaders(Login(c, None, None, reply))
  }

  /**
   * With stored credentials and a cached token the standard-input server
   * still sends a login request for every tool call, and its headers carry
   * the freshly issued token; the streaming servers send none and reuse the
   * cached one.
   */
  lemma HeadersCompared(c: Config, jwt: string)
    requires Present(c.email) && Present(c.password) && Present(c.token) && jwt != ""
    ensures GetHeadersByLogin(c, Reply(Some(jwt))).requests == 1
    ensures GetHeadersByLogin(c, Reply(Some(jwt))).headers == Success(BearerHeaders(jwt))
    ensures GetHeaders(c, Reply(Some(jwt))).requests == 0
    ensures GetHeaders(c, Reply(Some(jwt))).headers == Success(BearerHeaders(c.token.value))
  {
  }

  /** The `{ content, isError }` result of a tool: a payload or an error-flagged message. */
  datatype ToolResult<T> = Done(payload: T) | ToolError(text: string)

  /** `set_credentials(email, password)`: `login` with the arguments, its error reported, never thrown. */
  function SetCredentials(c: Config, email: string, password: string, reply: LoginReply): (r: (Config, ToolResult<string>))
    ensures r.1 == Done("Credentials set and login successful.") <==> Login(c, Some(email), Some(password), reply).result.Success?
    ensures Login(c, Some(email), Some(password), reply).result.Failure? ==>
      r.1 == ToolError("Failed to set credentials: " + Message(Login(c, Some(email), Some(password), reply).result.error))
    ensures r.1.ToolError? ==> r.1.text == "Failed to set credentials: " + Message(Login(c, Some(email), Some(password), reply).result.error)
    ensures r.0 == Login(c, Some(email), Some(password), reply).config
    ensures email != "" && password != "" ==> r.0.email == Some(email) && r.0.password == Some(password)
  {
    var o := Login(c, Some(email), Some(password), reply);
    match o.result
    case Success(_) => (o.config, Done("Credentials set and login successful."))
    case Failure(e) => (o.config, ToolError("Failed to set credentials: " + Message(e)))
  }

  /** The remote reads of `get_trackings_summary`: the entries and the number of notes, or the error raised. */
  datatype Fetched = Fetched(entries: Result<seq<Tracking.Entry>, string>, noteCount: Result<nat, string>)

  /** How many remote reads a handler issued after authenticating. */
  datatype SummaryOutcome = SummaryOutcome(config: Config, result: ToolResult<Tracking.Summary>, remoteReads: nat)

  /**
   * `get_trackings_summary`: headers first, then the trackings, then the
   * notes; any failure is reported with the tool's prefix and stops the
   * remaining reads.
   */
  function TrackingsSummary(c: Config, reply: LoginReply, fetched: Fetched): (r: SummaryOutcome)
    ensures r.config == GetHeaders(c, reply).config
    ensures GetHeaders(c, reply).headers.Failure? ==> r.remoteReads == 0 && r.result.ToolError?
    ensures r.result.Done? <==> GetHeaders(c, reply).headers.Success? && fetched.entries.Success? && fetched.noteCount.Success?
    ensures r.result.Done? ==> r.result.payload == Tracking.Summarize(fetched.entries.value, fetched.noteCount.value)
    // each failure is reported as the prefix and that failure's own message
    ensures GetHeaders(c, reply).headers.Failure? ==>
      r.result == ToolError(SummaryErrorPrefix + Message(GetHeaders(c, reply).headers.error))
    ensures GetHeaders(c, reply).headers.Success? && fetched.entries.Failure? ==>
      r.result == ToolError(SummaryErrorPrefix + fetched.entries.error) && r.remoteReads == 1
    ensures GetHeaders(c, reply).headers.Success? && fetched.entries.Success? ==> r.remoteReads == 2
    ensures GetHeaders(c, reply).headers.Success? && fetched.entries.Success? && fetched.noteCount.Failure? ==>
      r.result == ToolError(SummaryErrorPrefix + fetched.noteCount.error)
    ensures r.result.ToolError? ==> |r.result.text| >= |SummaryErrorPrefix| && r.result.text[..|SummaryErrorPrefix|] == SummaryErrorPrefix
  {
    var h := GetHeaders(c, reply);
    match h.headers
    case Failure(e) => SummaryOutcome(h.config, ToolError(SummaryErrorPrefix + Message(e)), 0)
    case Success(_) =>
      match fetched.entries
      case Failure(msg) => SummaryOutcome(h.config, ToolError(SummaryErrorPrefix + msg), 1)
      case Success(es) =>
        match fetched.noteCount
        case Failure(msg) => SummaryOutcome(h.config, ToolError(SummaryErrorPrefix + msg), 2)
        case Success(n) => SummaryOutcome(h.config, Done(Tracking.Summarize(es, n)), 2)
  }

  const SummaryErrorPrefix := "Error fetching tracking summary: "
}
