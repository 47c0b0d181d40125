/**
 * The session-token lifecycle of the `useAuth` composable: the storage key,
 * the token store over session storage, the `Authorization` header built from
 * the stored token, and `login`/`logout`.
 *
 * The network exchange of `login` is a parameter: a function from the request
 * sent to the reply received, where the reply carries its status, the text
 * `res.text()` would resolve to, and what `res.json()` would resolve to.
 */
module UseAuth {
  import opened Wrappers
  import opened Decimal
  import opened SessionStorage

  const DefaultTokenKey: string := "app_token"
  const AuthorizationHeader: string := "Authorization"
  const LoginPath: string := "/auth/login"
  const FailedPrefix: string := "Login failed ("
  const FailedSeparator: string := "): "
  const NoAccessTokenMessage: string := "No access_token in response"

  /** JavaScript truthiness of a `string | null | undefined`: present and non-empty. */
  predicate Truthy(v: Option<string>) {
    v.Some? && v.value != ""
  }

  /**
   * The storage key: the configured `VITE_TOKEN_KEY` when it is set and
   * non-empty, otherwise "app_token" (the fallback of `||`).
   */
  function TokenKeyFrom(env: Option<string>): (key: string)
    ensures key != ""
    ensures Truthy(env) ==> key == env.value
    ensures !Truthy(env) ==> key == DefaultTokenKey
  {
    if Truthy(env) then env.value else DefaultTokenKey
  }

  /** How a template literal renders a `string | undefined`. */
  function Interpolated(v: Option<string>): string {
    if v.Some? then v.value else "undefined"
  }

  /**
   * The header map `authHeader` produces for a token read from storage:
   * exactly one `Authorization: Bearer <token>` entry for a non-empty token,
   * and no entry at all for an absent or empty one.
   */
  function AuthHeaderFor(token: Option<string>): (h: map<string, string>)
    ensures h.Keys <= {AuthorizationHeader}
    ensures AuthorizationHeader in h <==> Truthy(token)
    ensures AuthorizationHeader in h ==> h[AuthorizationHeader] == "Bearer " + token.value
  {
    if Truthy(token) then map[AuthorizationHeader := "Bearer " + token.value] else map[]
  }

  /** The JSON body of the login request. */
  datatype Credentials = Credentials(username: string, password: string)

  /** The one request `login` sends. */
  datatype LoginRequest = LoginRequest(url: string, verb: string, headers: map<string, string>, body: Credentials)

  /**
   * The arguments of the login `fetch`: a POST of the credentials as JSON to
   * the API base followed by the login path.
   */
  function LoginRequestFor(apiBase: Option<string>, username: string, password: string): (r: LoginRequest)
    ensures |r.url| >= |LoginPath|
    ensures r.url[..|r.url| - |LoginPath|] == Interpolated(apiBase)
    ensures r.url[|r.url| - |LoginPath|..] == LoginPath
    ensures r.verb == "POST" && r.headers == map["Content-Type" := "application/json"]
    ensures r.body.username == username && r.body.password == password
  {
    LoginRequest(Interpolated(apiBase) + LoginPath, "POST",
                 map["Content-Type" := "application/json"], Credentials(username, password))
  }

  /**
   * The parsed login response as `login` reads it; a property missing from the
   * parsed value is `None`. A JSON value that is not an object (a number, an
   * array, ...) reads as one with every property missing.
   */
  datatype LoginResponse = LoginResponse(access_token: Option<string>, token_type: Option<string>, expires_in: Option<int>)

  /** What `res.json()` resolves to: a parse failure, `null`, or a value. */
  datatype JsonBody = NotJson | JsonNull | JsonValue(data: LoginResponse)

  /** The reply to the login request. */
  datatype Reply = Reply(status: nat, text: string, json: JsonBody)

  /** The errors `login` raises. */
  datatype LoginError =
    | LoginFailed(status: nat, body: string)  // non-ok status, with the reply's text
    | NoAccessToken                           // ok reply without a usable access_token
    | InvalidJson                             // the rejection of `res.json()`, propagated
    | NullResponse                            // reading `access_token` of a JSON `null`

  /** `res.ok`: the status is in the range 200 to 299. */
  predicate IsOk(status: nat) {
    200 <= status <= 299
  }

  /** The decision `login` takes on a reply: the value it returns or the error it throws. */
  function LoginOutcome(reply: Reply): Result<LoginResponse, LoginError> {
    if !IsOk(reply.status) then Failure(LoginFailed(reply.status, reply.text))
    else match reply.json
      case NotJson => Failure(InvalidJson)
      case JsonNull => Failure(NullResponse)
      case JsonValue(data) =>
        if Truthy(data.access_token) then Success(data) else Failure(NoAccessToken)
  }

  /** The three outcomes of `login`, each characterised in both directions. */
  lemma LoginOutcomeCases(reply: Reply)
    ensures LoginOutcome(reply) == Failure(LoginFailed(reply.status, reply.text)) <==> !IsOk(reply.status)
    ensures LoginOutcome(reply) == Failure(NoAccessToken)
        <==> IsOk(reply.status) && reply.json.JsonValue? && !Truthy(reply.json.data.access_token)
    ensures LoginOutcome(reply).Success?
        <==> IsOk(reply.status) && reply.json.JsonValue? && Truthy(reply.json.data.access_token)
    ensures LoginOutcome(reply).Success? ==> LoginOutcome(reply).value == reply.json.data
  {
  }

  /** The message of an error `login` itself throws. */
  function Message(e: LoginError): string
    requires e.LoginFailed? || e.NoAccessToken?
  {
    if e.LoginFailed? then FailedPrefix + NatToString(e.status) + FailedSeparator + e.body
    else NoAccessTokenMessage
  }

  /** Recovers the status and the body text from a "Login failed" message. */
  function ParseFailedMessage(m: string): Option<(nat, string)> {
    if |m| < |FailedPrefix| || m[..|FailedPrefix|] != FailedPrefix then None
    else
      var r := m[|FailedPrefix|..];
      var k := LeadingDigits(r);
      if 0 < k && k + |FailedSeparator| <= |r| && r[k..k + |FailedSeparator|] == FailedSeparator
      then Some((ValueOf(r[..k]), r[k + |FailedSeparator|..]))
      else None
  }

  /** A failed login's message carries its status code and the reply's text, both recoverable. */
  lemma FailedMessageRoundTrip(status: nat, body: string)
    ensures ParseFailedMessage(Message(LoginFailed(status, body))) == Some((status, body))
  {
    var d := NatToString(status);
    var m := Message(LoginFailed(status, body));
    var r := d + FailedSeparator + body;
    assert m == FailedPrefix + r;
    assert m[..|FailedPrefix|] == FailedPrefix;
    assert m[|FailedPrefix|..] == r;
    LeadingDigitsOfAppend(d, FailedSeparator + body);
    assert r == d + (FailedSeparator + body);
    assert r[..|d|] == d;
    assert r[|d|..|d| + |FailedSeparator|] == FailedSeparator;
    assert r[|d| + |FailedSeparator|..] == body;
    ValueOfNatToString(status);
  }

  /** Distinct failures give distinct messages. */
  lemma FailedMessageInjective(s1: nat, b1: string, s2: nat, b2: string)
    requires Message(LoginFailed(s1, b1)) == Message(LoginFailed(s2, b2))
    ensures s1 == s2 && b1 == b2
  {
    FailedMessageRoundTrip(s1, b1);
    FailedMessageRoundTrip(s2, b2);
  }

  /** The missing-token message is never mistaken for a failed-status message. */
  lemma NoAccessTokenMessageDistinct(status: nat, body: string)
    ensures ParseFailedMessage(Message(NoAccessToken)) == None
    ensures Message(NoAccessToken) != Message(LoginFailed(status, body))
  {
  }

  /**
   * One tab's view of `useAuth`: the session storage, the storage key and the
   * API base, both fixed when the module is loaded.
   */
  class AuthSession {
    var storage: Storage
    const tokenKey: string
    const apiBase: Option<string>

    constructor (envApiBase: Option<string>, envTokenKey: Option<string>, tabStorage: Storage)
      ensures tokenKey == TokenKeyFrom(envTokenKey) && apiBase == envApiBase
      ensures storage == tabStorage
    {
      tokenKey := TokenKeyFrom(envTokenKey);
      apiBase := envApiBase;
      storage := tabStorage;
    }

    /** `getToken`: the stored token, or `None` for `null`. */
    function GetToken(): (t: Option<string>)
      reads this
      ensures t.Some? <==> tokenKey in storage
      ensures t.Some? ==> t.value == storage[tokenKey]
    {
      GetItem(storage, tokenKey)
    }

    /** The session holds a usable token, so requests carry credentials. */
    predicate Authenticated()
      reads this
    {
      Truthy(GetToken())
    }

    /** `authHeader`: reads the store and changes nothing. */
    function AuthHeader(): (h: map<string, string>)
      reads this
      ensures h.Keys <= {AuthorizationHeader}
      ensures AuthorizationHeader in h <==> tokenKey in storage && storage[tokenKey] != ""
      ensures AuthorizationHeader in h ==> h[AuthorizationHeader] == "Bearer " + storage[tokenKey]
    {
      AuthHeaderFor(GetToken())
    }

    /** `setToken`: only the token entry changes, and it reads back as written. */
    method SetToken(token: string)
      modifies this
      ensures storage == SetItem(old(storage), tokenKey, token)
      ensures GetToken() == Some(token)
      ensures storage - {tokenKey} == old(storage) - {tokenKey}
    {
      storage := SetItem(storage, tokenKey, token);
    }

    /** `clearToken`: only the token entry changes, and it reads back as absent. */
    method ClearToken()
      modifies this
      ensures storage == RemoveItem(old(storage), tokenKey)
      ensures GetToken() == None
      ensures storage - {tokenKey} == old(storage) - {tokenKey}
    {
      storage := RemoveItem(storage, tokenKey);
    }

    /** `logout`: clears the token, after which no `Authorization` header is produced. */
    method Logout()
      modifies this
      ensures storage == RemoveItem(old(storage), tokenKey)
      ensures GetToken() == None && !Authenticated() && AuthHeader() == map[]
    {
      ClearToken();
    }

    /**
     * `login`: one POST exchange with `server`; on success the access token is
     * stored and the parsed response returned, on any failure the store is untouched.
     */
    method Login(username: string, password: string, server: LoginRequest -> Reply)
      returns (sent: LoginRequest, outcome: Result<LoginResponse, LoginError>)
      modifies this
      ensures sent.url == Interpolated(apiBase) + LoginPath
      ensures sent.verb == "POST" && sent.headers == map["Content-Type" := "application/json"]
      ensures sent.body == Credentials(username, password)
      ensures outcome == LoginOutcome(server(sent))
      ensures outcome.Failure? ==> storage == old(storage)
      ensures outcome.Success? ==>
        && Truthy(outcome.value.access_token)
        && storage == SetItem(old(storage), tokenKey, outcome.value.access_token.value)
        && Authenticated()
        && AuthHeader() == map[AuthorizationHeader := "Bearer " + outcome.value.access_token.value]
    {
      sent := LoginRequestFor(apiBase, username, password);
      var res := server(sent);
      if !IsOk(res.status) {
        outcome := Failure(LoginFailed(res.status, res.text));
        return;
      }
      match res.json
      case NotJson =>
        outcome := Failure(InvalidJson);
      case JsonNull =>
        outcome := Failure(NullResponse);
      case JsonValue(data) =>
        if !Truthy(data.access_token) {
          outcome := Failure(NoAccessToken);
        } else {
          SetToken(data.access_token.value);
          outcome := Success(data);
        }
    }
  }
}
