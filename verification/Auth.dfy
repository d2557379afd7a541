/**
 * The `AuthService` singleton: stored credentials and bearer token, the
 * login call against the identity endpoint, the cached-token short cut, and
 * the two versions of loading the persisted configuration.
 *
 * The network is a parameter: `login` receives the reply the identity
 * endpoint would give, and reports how many requests it sent (0 or 1), so
 * that "no network call" is "the reply was not consulted".
 */
module Auth {
  import opened Wrappers
  import opened JsValues

  /** The `config` object: each field is absent, or a string. */
  datatype Config = Config(email: Option<string>, password: Option<string>, token: Option<string>)

  const EmptyConfig := Config(None, None, None)

  /** What the POST to the login endpoint produced. */
  datatype LoginReply =
    | Reply(jwtToken: Option<string>)   // a response; `jwtToken` is missing when the body or field is absent
    | TransportError(message: string)   // an HTTP-client error (connection refused, non-2xx status, ...)

  /** The errors `login` throws. */
  datatype AuthError =
    | CredentialsNotSet
    | InvalidLoginResponse
    | LoginFailed(cause: string)

  /** The `message` of each thrown error. */
  function Message(e: AuthError): string {
    match e
    case CredentialsNotSet => "Credentials not set. Please use set_credentials tool first."
    case InvalidLoginResponse => "Invalid login response"
    case LoginFailed(cause) => "Login failed: " + cause
  }

  /** The state after a call, what it returned or threw, and how many login requests it sent. */
  datatype Outcome = Outcome(config: Config, result: Result<string, AuthError>, requests: nat)

  /** `login(email?, password?)`, identical in both versions of the service. */
  function Login(c: Config, email: Option<string>, password: Option<string>, reply: LoginReply): (o: Outcome)
    ensures o.requests <= 1
    // credentials are overwritten exactly when both arguments are truthy
    ensures Present(email) && Present(password) ==> o.config.email == email && o.config.password == password
    ensures !(Present(email) && Present(password)) ==> o.config.email == c.email && o.config.password == c.password
    // without usable stored credentials it throws before any request
    ensures o.result == Failure(CredentialsNotSet) <==> !Present(o.config.email) || !Present(o.config.password)
    ensures o.result == Failure(CredentialsNotSet) <==> o.requests == 0
    // a token is stored only on success, and it is the one returned
    ensures o.result.Success? ==> o.config.token == Some(o.result.value) && o.result.value != ""
    ensures o.result.Failure? ==> o.config.token == c.token
    // once the request is sent, the reply decides the result
    ensures o.requests == 1 && reply.Reply? && Present(reply.jwtToken) ==>
      o.result == Success(reply.jwtToken.value) && o.config.token == reply.jwtToken
    ensures o.requests == 1 && reply.Reply? && !Present(reply.jwtToken) ==> o.result == Failure(InvalidLoginResponse)
    ensures o.requests == 1 && reply.TransportError? ==> o.result == Failure(LoginFailed(reply.message))
  {
    var c1 := if Present(email) && Present(password) then c.(email := email, password := password) else c;
    if !Present(c1.email) || !Present(c1.password) then
      Outcome(c1, Failure(CredentialsNotSet), 0)
    else
      match reply
      case Reply(jwt) =>
        if Present(jwt) then Outcome(c1.(token := jwt), Success(jwt.value), 1)
        else Outcome(c1, Failure(InvalidLoginResponse), 1)
      case TransportError(msg) =>
        Outcome(c1, Failure(LoginFailed(msg)), 1)
  }

  /** `ensureAuthenticated()`: the cached token if there is one, otherwise `login()`. */
  function EnsureAuthenticated(c: Config, reply: LoginReply): (o: Outcome)
    ensures Present(c.token) ==> o == Outcome(c, Success(c.token.value), 0)
    ensures !Present(c.token) ==> o == Login(c, None, None, reply)
  {
    if Present(c.token) then Outcome(c, Success(c.token.value), 0) else Login(c, None, None, reply)
  }

  /**
   * `getToken()`: a usable token it reports is the one `ensureAuthenticated`
   * answers with, without a request, whatever the endpoint would reply.
   */
  function GetToken(c: Config): (t: Option<string>)
    ensures Present(t) ==> forall reply :: EnsureAuthenticated(c, reply) == Outcome(c, Success(t.value), 0)
    // a cached token, however it was loaded, is reported; without one nothing usable is
    ensures Present(c.token) ==> t == c.token
    ensures !Present(c.token) ==> !Present(t)
  {
    c.token
  }

  /** A successful login is what `getToken` reports afterwards. */
  lemma LoginThenGetToken(c: Config, email: Option<string>, password: Option<string>, reply: LoginReply)
    requires Login(c, email, password, reply).result.Success?
    ensures var o := Login(c, email, password, reply); GetToken(o.config) == Some(o.result.value)
  {
  }

  /**
   * With a usable reply, login yields exactly the token the endpoint issued,
   * whether the credentials come from the arguments or from the store.
   */
  lemma LoginReturnsIssuedToken(c: Config, email: Option<string>, password: Option<string>, jwt: string)
    requires jwt != ""
    requires (Present(email) && Present(password)) || (Present(c.email) && Present(c.password))
    ensures var c1 := if Present(email) && Present(password) then c.(email := email, password := password) else c;
      Login(c, email, password, Reply(Some(jwt))) == Outcome(c1.(token := Some(jwt)), Success(jwt), 1)
  {
  }

  /** Without a cached token, `ensureAuthenticated()` logs in with the stored credentials and caches the issued token. */
  lemma EnsureIssuesToken(c: Config, jwt: string)
    requires !Present(c.token) && Present(c.email) && Present(c.password) && jwt != ""
    ensures EnsureAuthenticated(c, Reply(Some(jwt))) == Outcome(c.(token := Some(jwt)), Success(jwt), 1)
  {
  }

  /** A transport error surfaces as "Login failed: " followed by the client's message. */
  lemma TransportErrorWrapped(c: Config, email: Option<string>, password: Option<string>, msg: string)
    requires Login(c, email, password, TransportError(msg)).requests == 1
    ensures var o := Login(c, email, password, TransportError(msg));
      o.result.Failure? && Message(o.result.error) == "Login failed: " + msg
  {
  }

  /** A reply without a token is not wrapped: its message is exactly "Invalid login response". */
  lemma MissingTokenNotWrapped(c: Config, email: Option<string>, password: Option<string>, jwt: Option<string>)
    requires !Present(jwt)
    requires Login(c, email, password, Reply(jwt)).requests == 1
    ensures var o := Login(c, email, password, Reply(jwt));
      o.result == Failure(InvalidLoginResponse) && Message(o.result.error) == "Invalid login response"
  {
  }

  /** `login()` on an empty store throws `Credentials not set` whatever the endpoint would have said. */
  lemma LoginWithoutCredentials(reply: LoginReply)
    ensures Login(EmptyConfig, None, None, reply) == Outcome(EmptyConfig, Failure(CredentialsNotSet), 0)
  {
  }

  /**
   * After a successful `ensureAuthenticated`, a second call returns the same
   * token without a request, so the pair sends at most one. A failed first
   * call caches nothing: if it reached the endpoint, so does the second.
   */
  lemma EnsureTwice(c: Config, r1: LoginReply, r2: LoginReply)
    ensures var o1 := EnsureAuthenticated(c, r1);
      var o2 := EnsureAuthenticated(o1.config, r2);
      && (o1.result.Success? ==> o2 == Outcome(o1.config, o1.result, 0) && o1.requests + o2.requests <= 1)
      && (o1.result.Failure? && o1.requests == 1 ==> o2.requests == 1)
  {
  }

  // ---------------------------------------------------------------------------
  // Loading the persisted configuration.
  // ---------------------------------------------------------------------------

  /** The configuration file: missing, unreadable or not JSON, or parsed into fields. */
  datatype ConfigFile = Missing | Unreadable | Parsed(fields: Config)

  /** `SWEVEN_EMAIL`, `SWEVEN_PASSWORD` and `SWEVEN_TOKEN`. */
  datatype Env = Env(email: Option<string>, password: Option<string>, token: Option<string>)

  /** `{ ...file, ...mem }`: a field present in memory wins over the file's. */
  function Spread(file: Config, mem: Config): Config {
    Config(
      if mem.email.Some? then mem.email else file.email,
      if mem.password.Some? then mem.password else file.password,
      if mem.token.Some? then mem.token else file.token)
  }

  /** The environment values are applied only as a pair (email and password) or alone (token). */
  function ApplyEnv(c: Config, env: Env): Config {
    var c1 := if Present(env.email) && Present(env.password) then c.(email := env.email, password := env.password) else c;
    if Present(env.token) then c1.(token := env.token) else c1
  }

  /** `loadConfig()` of the current service: environment first, then the file underneath. */
  function LoadConfig(c: Config, env: Env, file: ConfigFile): (r: Config)
    ensures file.Missing? ==> r == c
    ensures file.Unreadable? ==> r == ApplyEnv(c, env)
    ensures Present(env.email) && Present(env.password) && !file.Missing? ==> r.email == env.email && r.password == env.password
    ensures Present(env.token) && !file.Missing? ==> r.token == env.token
    ensures file.Parsed? && c.email.Some? && !(Present(env.email) && Present(env.password)) ==> r.email == c.email
    ensures file.Parsed? && c.password.Some? && !(Present(env.email) && Present(env.password)) ==> r.password == c.password
    ensures file.Parsed? && c.token.Some? && !Present(env.token) ==> r.token == c.token
    ensures file.Parsed? && c.email.None? && !(Present(env.email) && Present(env.password)) ==> r.email == file.fields.email
    ensures file.Parsed? && c.password.None? && !(Present(env.email) && Present(env.password)) ==> r.password == file.fields.password
    ensures file.Parsed? && c.token.None? && !Present(env.token) ==> r.token == file.fields.token
  {
    match file
    case Missing => c
    case Unreadable => ApplyEnv(c, env)
    case Parsed(fields) => Spread(fields, ApplyEnv(c, env))
  }

  /** `loadConfig()` of the earlier service: the parsed file replaces the whole configuration. */
  function LoadConfigReplace(c: Config, file: ConfigFile): (r: Config)
    ensures file.Parsed? ==> r == file.fields
    ensures !file.Parsed? ==> r == c
  {
    match file
    case Parsed(fields) => fields
    case _ => c
  }

  /** At start-up memory is empty, so the merge is the file with the environment laid over it. */
  lemma StartupMerge(env: Env, fields: Config)
    ensures var r := LoadConfig(EmptyConfig, env, Parsed(fields));
      r.email == (if Present(env.email) && Present(env.password) then env.email else fields.email) &&
      r.password == (if Present(env.email) && Present(env.password) then env.password else fields.password) &&
      r.token == (if Present(env.token) then env.token else fields.token)
    ensures !Present(env.email) && !Present(env.password) && !Present(env.token) ==>
      LoadConfig(EmptyConfig, env, Parsed(fields)) == LoadConfigReplace(EmptyConfig, Parsed(fields))
  {
  }
}
