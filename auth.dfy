/**
 * The authentication service of `auth.service.ts`: a session kept in
 * `localStorage`, `login`/`register` that check their input before any
 * request, `apiCall`'s error text, and `handleError`, which maps what was
 * thrown to a message for the user and clears the session on an
 * authorisation failure.
 *
 * A call to the server is the `FetchOutcome` parameter; the browser's clock,
 * `Date` parsing and printing and `JSON.parse` are the `Env` parameter.
 */
module Auth {
  import opened Wrappers
  import opened JsText
  import opened Json
  import opened FetchErrors
  import opened AuthRules
  import opened KeywordRules

  /** `import.meta.env.VITE_API_URL || 'http://localhost:3001'` */
  const DefaultBaseUrl: string := "http://localhost:3001"

  const ServerError: string := "Terjadi kesalahan server. Silakan coba lagi nanti."
  const Forbidden: string := "Anda tidak memiliki izin untuk melakukan tindakan ini."
  const UnknownAuthError: string := "Terjadi kesalahan yang tidak diketahui saat memproses permintaan autentikasi."
  const AuthServerUnreachable: string := "Gagal terhubung ke server autentikasi. Periksa koneksi internet Anda."
  const RefreshFailed: string := "Token refresh gagal. Silakan login kembali."

  /** The eight tests of `handleError`: the shared six, then server errors, then refusals. */
  const ServerErrorRule: Rule<string> := Rule(["internal server error", "500"], ServerError)
  const ForbiddenRule: Rule<string> := Rule(["forbidden"], Forbidden)
  const ServerRules: seq<Rule<string>> := SharedRules + [ServerErrorRule, ForbiddenRule]

  /**
   * The browser around the service: the time, `new Date(s)`, `toISOString`,
   * `JSON.parse`, what `response.json()` throws on a body that is not JSON,
   * and what reading a field of a `null` reply throws.
   */
  datatype Env = Env(now: int, parse: DateParser, iso: IsoFormatter, decode: Decoder, syntaxError: JsError, nullRead: JsError)

  /** What `handleError` throws, and whether it cleared the session first. */
  datatype Handling = Handling(error: JsError, clears: bool)

  /**
   * `handleError`: a value that is not an `Error` gets the fixed message; an
   * error gets the message of the first of the eight tests it matches, and only
   * the session test clears the store; any other error is rethrown.
   */
  function Classify(c: Caught): (h: Handling)
    ensures c.NonError? ==> h == Handling(PlainError(UnknownAuthError), false)
    ensures h.clears ==> c.Thrown? && h.error == PlainError(SessionExpired)
    ensures c.Thrown? && h.error != c.error ==>
      exists j :: 0 <= j < |ServerRules| && h.error == PlainError(ServerRules[j].reply) && Matches(ToLower(c.error.message), ServerRules[j])
    ensures forall j :: (c.Thrown? && 0 <= j < |ServerRules| && Matches(ToLower(c.error.message), ServerRules[j])
      && (forall k :: 0 <= k < j ==> !Matches(ToLower(c.error.message), ServerRules[k]))
      ==> h == Handling(PlainError(ServerRules[j].reply), j == 0))
  {
    assert ServerRules[0] == SessionRule;
    match c
    case NonError => Handling(PlainError(UnknownAuthError), false)
    case Thrown(e) =>
      match FirstMatch(ToLower(e.message), ServerRules)
      case None => Handling(e, false)
      case Some(i) => Handling(PlainError(ServerRules[i].reply), i == 0)
  }

  /** `Gagal terhubung ke server: ${API_BASE_URL}. …` */
  function ConnectionError(baseUrl: string): string {
    "Gagal terhubung ke server: " + baseUrl + ". Periksa koneksi internet Anda."
  }

  /** The `catch` of `apiCall`: connection failures are reworded, anything else is rethrown. */
  function CallError(e: JsError, baseUrl: string): (r: JsError)
    ensures r == e || r == PlainError(ConnectionError(baseUrl)) || r == PlainError(AuthServerUnreachable)
    ensures e.name == "TypeError" && Contains(e.message, "fetch") ==> r == PlainError(ConnectionError(baseUrl))
    ensures !Contains(e.message, "fetch") && !Contains(e.message, "Failed to fetch") && !Contains(e.message, "net::ERR_CONNECTION") ==> r == e
  {
    if e.name == "TypeError" && Contains(e.message, "fetch") then PlainError(ConnectionError(baseUrl))
    else if Contains(e.message, "Failed to fetch") || Contains(e.message, "net::ERR_CONNECTION") then PlainError(AuthServerUnreachable)
    else e
  }

  /**
   * What `apiCall` resolves to or throws, the token read aside: a non-OK
   * response throws its error text, the body's `message` before its `error`.
   */
  function CallResult(outcome: FetchOutcome, env: Env, baseUrl: string): (r: Result<Json, JsError>)
    ensures r.Ok? <==>
      outcome.Responded? && outcome.response.ok && outcome.response.body.Some?
      && env.decode(outcome.response.body.value).Some?
    ensures r.Ok? ==> env.decode(outcome.response.body.value) == Some(r.value)
    ensures outcome.Responded? && !outcome.response.ok ==>
      r.Err? && CallError(PlainError(ErrorText(outcome.response, env.decode, "message", "error")), baseUrl) == r.error
  {
    match outcome
    case Rejected(e) => Err(CallError(e, baseUrl))
    case Responded(r) =>
      if !r.ok then Err(CallError(PlainError(ErrorText(r, env.decode, "message", "error")), baseUrl))
      else
        match if r.body.Some? then env.decode(r.body.value) else None
        case None => Err(CallError(env.syntaxError, baseUrl))
        case Some(data) => Ok(data)
  }

  /** `data.success && data.token`, as the string `setItem` stores. */
  function SessionToken(data: Json): Option<string> {
    var success := Get(data, "success");
    var token := Get(data, "token");
    if success.Some? && Truthy(success.value) && token.Some? && Truthy(token.value) then Some(Display(token.value)) else None
  }

  /** Throwing through `handleError` from the store `items`. */
  function Handled<T>(items: map<string, string>, c: Caught): Step<T> {
    var h := Classify(c);
    Step(Err(h.error), if h.clears then Cleared(items) else items)
  }

  /**
   * `login` and `register` after their input checks: a failed check is
   * thrown at once; otherwise `apiCall` reads the token and makes the
   * request, and a reply with `success` and a token stores it for a day.
   */
  function SignIn(check: Option<string>, items: map<string, string>, env: Env, baseUrl: string, outcome: FetchOutcome): Step<Json> {
    match check
    case Some(m) => Handled(items, Thrown(PlainError(m)))
    case None =>
      var read := AfterRead(items, env.now, env.parse);
      match CallResult(outcome, env, baseUrl)
      case Err(e) => Handled(read, Thrown(e))
      case Ok(data) =>
        if data.JNull? then Handled(read, Thrown(env.nullRead))
        else match SessionToken(data)
          case None => Step(Ok(data), read)
          case Some(token) => Step(Ok(data), Stored(read, token, Some(env.now + Day), env.iso))
  }

  /** `getProfile` */
  function Profile(items: map<string, string>, env: Env, baseUrl: string, outcome: FetchOutcome): Step<Json> {
    var read := AfterRead(items, env.now, env.parse);
    if ValidToken(items, env.now, env.parse).None? then Handled(read, Thrown(PlainError(NotAuthenticated)))
    else match CallResult(outcome, env, baseUrl)
      case Err(e) => Handled(read, Thrown(e))
      case Ok(data) => Step(Ok(data), read)
  }

  /** `refreshToken`: every failure clears the session and throws the same message. */
  function Refresh(items: map<string, string>, env: Env, baseUrl: string, outcome: FetchOutcome): Step<()> {
    var read := AfterRead(items, env.now, env.parse);
    var failed := Step(Err(PlainError(RefreshFailed)), Cleared(read));
    if ValidToken(items, env.now, env.parse).None? then failed
    else match CallResult(outcome, env, baseUrl)
      case Err(_) => failed
      case Ok(data) =>
        if data.JNull? then failed
        else
          var token := Get(data, "token");
          if token.Some? && Truthy(token.value) then Step(Ok(()), Stored(read, Display(token.value), Some(env.now + Day), env.iso))
          else Step(Ok(()), read)
  }

  class AuthService {
    /** `localStorage` */
    var storage: map<string, string>
    /** `API_BASE_URL` */
    const baseUrl: string

    constructor (initial: map<string, string>, configuredUrl: Option<string>)
      ensures storage == initial && baseUrl == OrElse(configuredUrl, DefaultBaseUrl)
    {
      storage := initial;
      baseUrl := OrElse(configuredUrl, DefaultBaseUrl);
    }

    /** `getToken` */
    method GetToken(now: int, parse: DateParser) returns (t: Option<string>)
      modifies this
      ensures t == ValidToken(old(storage), now, parse)
      ensures storage == AfterRead(old(storage), now, parse)
    {
      if TokenKey !in storage || storage[TokenKey] == [] {
        return None;
      }
      if ExpiryKey in storage && storage[ExpiryKey] != [] {
        var expiry := parse(storage[ExpiryKey]);
        if expiry.None? || expiry.value < now {
          ClearAuthToken();
          return None;
        }
      }
      t := Some(storage[TokenKey]);
    }

    /** `setAuthToken` */
    method SetAuthToken(token: string, expiry: Option<int>, iso: IsoFormatter)
      modifies this
      ensures storage == Stored(old(storage), token, expiry, iso)
    {
      storage := storage[TokenKey := token];
      if expiry.Some? {
        storage := storage[ExpiryKey := iso(expiry.value)];
      }
    }

    /** `clearAuthToken` */
    method ClearAuthToken()
      modifies this
      ensures storage == Cleared(old(storage))
    {
      storage := storage - {TokenKey};
      storage := storage - {ExpiryKey};
      storage := storage - {RefreshKey};
    }

    /** `isAuthenticated`: `!!token && token.length > 0`. */
    method IsAuthenticated(now: int, parse: DateParser) returns (b: bool)
      modifies this
      ensures b <==> ValidToken(old(storage), now, parse).Some?
      ensures storage == AfterRead(old(storage), now, parse)
    {
      ValidTokenMeaning(storage, now, parse);
      var token := GetToken(now, parse);
      b := token.Some? && |token.value| > 0;
    }

    /** `handleError`: clears the session when the classification says so, and yields what it throws. */
    method HandleError(c: Caught) returns (e: JsError)
      modifies this
      ensures e == Classify(c).error
      ensures storage == if Classify(c).clears then Cleared(old(storage)) else old(storage)
      ensures forall j :: (c.Thrown? && 0 <= j < |ServerRules| && Matches(ToLower(c.error.message), ServerRules[j])
        && (forall k :: 0 <= k < j ==> !Matches(ToLower(c.error.message), ServerRules[k]))
        ==> e == PlainError(ServerRules[j].reply))
    {
      var h := Classify(c);
      if h.clears {
        ClearAuthToken();
      }
      e := h.error;
    }

    /** `apiCall`: reads the token, then makes the request. */
    method ApiCall(env: Env, outcome: FetchOutcome) returns (r: Result<Json, JsError>)
      modifies this
      ensures r == CallResult(outcome, env, baseUrl)
      ensures storage == AfterRead(old(storage), env.now, env.parse)
    {
      var _ := GetToken(env.now, env.parse);
      r := CallResult(outcome, env, baseUrl);
    }

    /** The part `login` and `register` share once their own checks are made. */
    method Authenticate(check: Option<string>, env: Env, outcome: FetchOutcome) returns (r: Result<Json, JsError>)
      modifies this
      ensures Step(r, storage) == SignIn(check, old(storage), env, baseUrl, outcome)
    {
      if check.Some? {
        var e := HandleError(Thrown(PlainError(check.value)));
        return Err(e);
      }
      var reply := ApiCall(env, outcome);
      if reply.Err? {
        var e := HandleError(Thrown(reply.error));
        return Err(e);
      }
      var data := reply.value;
      if data.JNull? {
        var e := HandleError(Thrown(env.nullRead));
        return Err(e);
      }
      var token := SessionToken(data);
      if token.Some? {
        SetAuthToken(token.value, Some(env.now + Day), env.iso);
      }
      r := Ok(data);
    }

    /** `login` */
    method Login(email: string, password: string, env: Env, outcome: FetchOutcome) returns (r: Result<Json, JsError>)
      modifies this
      ensures Step(r, storage) == SignIn(LoginCheck(email, password), old(storage), env, baseUrl, outcome)
    {
      r := Authenticate(LoginCheck(email, password), env, outcome);
    }

    /** `register` */
    method Register(name: string, email: string, password: string, env: Env, outcome: FetchOutcome) returns (r: Result<Json, JsError>)
      modifies this
      ensures Step(r, storage) == SignIn(RegisterCheck(name, email, password), old(storage), env, baseUrl, outcome)
    {
      r := Authenticate(RegisterCheck(name, email, password), env, outcome);
    }

    /** `getProfile` */
    method GetProfile(env: Env, outcome: FetchOutcome) returns (r: Result<Json, JsError>)
      modifies this
      ensures Step(r, storage) == Profile(old(storage), env, baseUrl, outcome)
    {
      ReadIsIdempotent(storage, env.now, env.parse);
      var signedIn := IsAuthenticated(env.now, env.parse);
      if !signedIn {
        var e := HandleError(Thrown(PlainError(NotAuthenticated)));
        return Err(e);
      }
      var reply := ApiCall(env, outcome);
      if reply.Err? {
        var e := HandleError(Thrown(reply.error));
        return Err(e);
      }
      r := Ok(reply.value);
    }

    /** `logout`: the session is cleared without a request. */
    method Logout()
      modifies this
      ensures storage == Cleared(old(storage))
    {
      ClearAuthToken();
    }

    /** `refreshToken` */
    method RefreshToken(env: Env, outcome: FetchOutcome) returns (r: Result<(), JsError>)
      modifies this
      ensures Step(r, storage) == Refresh(old(storage), env, baseUrl, outcome)
    {
      ReadIsIdempotent(storage, env.now, env.parse);
      var signedIn := IsAuthenticated(env.now, env.parse);
      if !signedIn {
        ClearAuthToken();
        return Err(PlainError(RefreshFailed));
      }
      var reply := ApiCall(env, outcome);
      if reply.Err? || reply.value.JNull? {
        ClearAuthToken();
        return Err(PlainError(RefreshFailed));
      }
      var token := Get(reply.value, "token");
      if token.Some? && Truthy(token.value) {
        SetAuthToken(Display(token.value), Some(env.now + Day), env.iso);
      }
      r := Ok(());
    }
  }

  /**
   * Only the session rule clears the store: it does so exactly when the
   * lower-cased message names `unauthorized` or `unauthenticated`, and then
   * the user is told the session has ended.
   */
  lemma OnlySessionErrorsClear(c: Caught)
    ensures Classify(c).clears <==>
      c.Thrown? && (Contains(ToLower(c.error.message), "unauthorized") || Contains(ToLower(c.error.message), "unauthenticated"))
    ensures Classify(c).clears ==> Classify(c).error == PlainError(SessionExpired)
  {
    if c.Thrown? {
      var lower := ToLower(c.error.message);
      var first := ServerRules[0];
      assert first == SessionRule;
      if Contains(lower, "unauthorized") || Contains(lower, "unauthenticated") {
        var key := if Contains(lower, "unauthorized") then "unauthorized" else "unauthenticated";
        assert key in first.keys && Contains(lower, key);
        FirstMatchIs(lower, ServerRules, 0);
      } else {
        assert !Matches(lower, first);
      }
    }
  }

  /** A message naming none of the keys of the eight rules is rethrown as it is, and nothing is cleared. */
  lemma UnmatchedRethrown(e: JsError)
    requires forall j :: 0 <= j < |ServerRules| ==> !Matches(ToLower(e.message), ServerRules[j])
    ensures Classify(Thrown(e)) == Handling(e, false)
  {
  }

  /** The thrown value is not an `Error`: a fixed message, nothing cleared. */
  lemma NonErrorMessage()
    ensures Classify(NonError) == Handling(PlainError(UnknownAuthError), false)
  {
  }

  /**
   * The browser's `TypeError: Failed to fetch` is reported with the server's
   * address; the second test of the `catch`, which also looks for
   * `Failed to fetch`, is left to errors of other kinds.
   */
  lemma FailedFetchNamesServer(baseUrl: string)
    ensures CallError(JsError("TypeError", "Failed to fetch"), baseUrl) == PlainError(ConnectionError(baseUrl))
    ensures CallError(PlainError("Failed to fetch"), baseUrl) == PlainError(AuthServerUnreachable)
  {
    assert OccursAt("Failed to fetch", 10, "fetch");
    assert OccursAt("Failed to fetch", 0, "Failed to fetch");
  }

  /**
   * A refused request whose JSON body has both a `message` and an `error`
   * reports the `message`: the opposite of the Kolosal client, which reads
   * `error` first; with two different texts the two orders disagree.
   */
  lemma MessageBeforeError(r: FetchResponse, env: Env, baseUrl: string)
    requires !r.ok && BodyJson(r, env.decode).Some?
    requires var data := BodyJson(r, env.decode).value;
      Get(data, "message").Some? && Truthy(Get(data, "message").value)
      && Get(data, "error").Some? && Truthy(Get(data, "error").value)
    ensures var data := BodyJson(r, env.decode).value;
      CallResult(Responded(r), env, baseUrl) == Err(CallError(PlainError(Display(Get(data, "message").value)), baseUrl))
      && ErrorText(r, env.decode, "error", "message") == Display(Get(data, "error").value)
  {
  }

  /**
   * Input that fails a check is refused before any request: whatever the
   * server would have answered, the outcome is the same, and the store is
   * left as it was unless the message names the session.
   */
  lemma NoRequestUnlessValid(check: Option<string>, items: map<string, string>, env: Env, baseUrl: string, a: FetchOutcome, b: FetchOutcome)
    requires check.Some?
    ensures SignIn(check, items, env, baseUrl, a) == SignIn(check, items, env, baseUrl, b)
    ensures SignIn(check, items, env, baseUrl, a).result.Err?
    ensures var s := SignIn(check, items, env, baseUrl, a); s.storage == items || s.storage == Cleared(items)
  {
  }

  /**
   * A sign-in whose reply carries `success` and a token keeps that token for
   * one day: it is returned up to `now + Day` and not after, provided `new
   * Date` reads back what `toISOString` wrote.
   */
  lemma SignInKeepsTokenForADay(check: Option<string>, items: map<string, string>, env: Env, baseUrl: string, outcome: FetchOutcome, later: int)
    requires check.None?
    requires CallResult(outcome, env, baseUrl).Ok?
    requires var data := CallResult(outcome, env, baseUrl).value;
      !data.JNull? && SessionToken(data).Some? && SessionToken(data).value != []
    requires env.iso(env.now + Day) != [] && env.parse(env.iso(env.now + Day)) == Some(env.now + Day)
    ensures var s := SignIn(check, items, env, baseUrl, outcome);
      var token := SessionToken(CallResult(outcome, env, baseUrl).value).value;
      s.result.Ok? && ValidToken(s.storage, later, env.parse) == if later <= env.now + Day then Some(token) else None
  {
    var token := SessionToken(CallResult(outcome, env, baseUrl).value).value;
    StoredTokenLife(AfterRead(items, env.now, env.parse), token, env.now + Day, later, env.parse, env.iso);
  }

  /** A sign-in that fails never stores a token: any token left is the one that was there. */
  lemma FailedSignInStoresNothing(check: Option<string>, items: map<string, string>, env: Env, baseUrl: string, outcome: FetchOutcome)
    ensures var s := SignIn(check, items, env, baseUrl, outcome);
      s.result.Err? && TokenKey in s.storage ==> TokenKey in items && s.storage[TokenKey] == items[TokenKey]
  {
  }

  /** Without a valid session no profile is requested: the outcome does not depend on the server. */
  lemma ProfileNeedsSession(items: map<string, string>, env: Env, baseUrl: string, a: FetchOutcome, b: FetchOutcome)
    requires ValidToken(items, env.now, env.parse).None?
    ensures Profile(items, env, baseUrl, a) == Profile(items, env, baseUrl, b)
    ensures Profile(items, env, baseUrl, a).result.Err?
  {
  }

  /**
   * A refresh fails exactly when there is no valid session, the request
   * fails, or the reply is `null`; every failure throws the same message and
   * leaves none of the three session keys.
   */
  lemma RefreshFailureClears(items: map<string, string>, env: Env, baseUrl: string, outcome: FetchOutcome)
    ensures var s := Refresh(items, env, baseUrl, outcome);
      s.result.Err? <==> (ValidToken(items, env.now, env.parse).None?
        || CallResult(outcome, env, baseUrl).Err? || CallResult(outcome, env, baseUrl).value.JNull?)
    ensures var s := Refresh(items, env, baseUrl, outcome);
      s.result.Err? ==> (s.result.error == PlainError(RefreshFailed)
        && TokenKey !in s.storage && ExpiryKey !in s.storage && RefreshKey !in s.storage)
  {
  }
}
