/**
 * The demo authentication service of `auth.service.simulation.ts`: the same
 * session store and input checks as the real service, a `simulateResponse`
 * that answers four endpoints with fixed replies, a request that fails at
 * random, and a `handleError` with only six of the eight tests and one
 * message for everything else.
 *
 * Whether the random draw `Math.random() < 0.05` failed the request is the
 * `networkFails` parameter; `Date.now()` is `now`.
 */
module AuthSimulation {
  import opened Wrappers
  import opened JsText
  import opened FetchErrors
  import opened AuthRules
  import opened KeywordRules
  import Auth

  const SystemError: string := "Terjadi kesalahan pada sistem autentikasi."
  /** What the simulated request throws when the draw fails it. */
  const NetworkFailure: string := "Network connection failed"
  /** `new Date('2024-01-01')`, read as UTC midnight. */
  const ProfileCreatedAt: int := 1704067200000

  datatype User = User(id: string, email: string, name: string, phone: string, role: Option<string>, createdAt: Option<int>)

  /** The four reply shapes of `simulateResponse`. */
  datatype Reply =
    | LoginReply(success: bool, token: string, user: User, message: string)
    | RegisterReply(success: bool, message: string, user: User)
    | ProfileReply(user: User)
    | RefreshReply(token: string, expiresIn: string)

  const DemoUser: User := User("user-001", "demo@lakuin.com", "Demo User", "+6281234567890", None, None)

  /** `simulateResponse(endpoint)`: a fixed reply per endpoint, and an error for any other. */
  function SimulateResponse(endpoint: string, now: nat): Result<Reply, JsError> {
    if endpoint == LoginEndpoint then
      Ok(LoginReply(true, "simulated-jwt-token-" + NatToString(now), DemoUser, "Login berhasil"))
    else if endpoint == RegisterEndpoint then
      Ok(RegisterReply(true, "Registrasi berhasil",
        User("user-" + NatToString(now), "newuser@lakuin.com", "New User", "+6289876543210", None, None)))
    else if endpoint == ProfileEndpoint then
      Ok(ProfileReply(DemoUser.(role := Some("owner"), createdAt := Some(ProfileCreatedAt))))
    else if endpoint == RefreshEndpoint then
      Ok(RefreshReply("refreshed-token-" + NatToString(now), "24h"))
    else Err(PlainError("Unknown endpoint: " + endpoint))
  }

  /** `data.token`: only the login and refresh replies have one. */
  function ReplyToken(r: Reply): Option<string> {
    match r
    case LoginReply(_, token, _, _) => Some(token)
    case RefreshReply(token, _) => Some(token)
    case _ => None
  }

  /** `data.success` */
  function ReplySuccess(r: Reply): bool {
    match r
    case LoginReply(success, _, _, _) => success
    case RegisterReply(success, _, _) => success
    case _ => false
  }

  /** `apiCall`, the token read aside: the draw may fail the request, else the endpoint answers. */
  function SimulatedCall(endpoint: string, now: nat, networkFails: bool): Result<Reply, JsError> {
    if networkFails then Err(PlainError(NetworkFailure)) else SimulateResponse(endpoint, now)
  }

  /** `handleError`: the first of the six shared tests that matches, and one message for any other error or value. */
  function Classify(c: Caught): (r: JsError)
    ensures c.NonError? ==> r == PlainError(SystemError)
    ensures r == PlainError(SystemError)
      || (c.Thrown? && exists j :: 0 <= j < |SharedRules| && r == PlainError(SharedRules[j].reply) && Matches(ToLower(c.error.message), SharedRules[j]))
    ensures c.Thrown? && (forall j :: 0 <= j < |SharedRules| ==> !Matches(ToLower(c.error.message), SharedRules[j])) ==> r == PlainError(SystemError)
    ensures forall j :: (c.Thrown? && 0 <= j < |SharedRules| && Matches(ToLower(c.error.message), SharedRules[j])
      && (forall k :: 0 <= k < j ==> !Matches(ToLower(c.error.message), SharedRules[k]))
      ==> r == PlainError(SharedRules[j].reply))
  {
    match c
    case NonError => PlainError(SystemError)
    case Thrown(e) =>
      match FirstMatch(ToLower(e.message), SharedRules)
      case None => PlainError(SystemError)
      case Some(i) => PlainError(SharedRules[i].reply)
  }

  /** `login` and `register` after their input checks, against the simulated endpoint. */
  function SignIn(check: Option<string>, endpoint: string, items: map<string, string>,
    now: nat, parse: DateParser, iso: IsoFormatter, networkFails: bool): Step<Reply>
  {
    match check
    case Some(m) => Step(Err(Classify(Thrown(PlainError(m)))), items)
    case None =>
      var read := AfterRead(items, now, parse);
      match SimulatedCall(endpoint, now, networkFails)
      case Err(e) => Step(Err(Classify(Thrown(e))), read)
      case Ok(reply) =>
        if ReplySuccess(reply) && TruthyText(ReplyToken(reply)) then
          Step(Ok(reply), Stored(read, ReplyToken(reply).value, Some(now + Day), iso))
        else Step(Ok(reply), read)
  }

  /** `getProfile` */
  function Profile(items: map<string, string>, now: nat, parse: DateParser, networkFails: bool): Step<Reply> {
    var read := AfterRead(items, now, parse);
    if ValidToken(items, now, parse).None? then Step(Err(Classify(Thrown(PlainError(NotAuthenticated)))), read)
    else match SimulatedCall(ProfileEndpoint, now, networkFails)
      case Err(e) => Step(Err(Classify(Thrown(e))), read)
      case Ok(reply) => Step(Ok(reply), read)
  }

  /** `refreshToken`: no session check; a reply with a token stores it for a day. */
  function Refresh(items: map<string, string>, now: nat, parse: DateParser, iso: IsoFormatter, networkFails: bool): Step<Reply> {
    var read := AfterRead(items, now, parse);
    match SimulatedCall(RefreshEndpoint, now, networkFails)
    case Err(e) => Step(Err(Classify(Thrown(e))), read)
    case Ok(reply) =>
      if TruthyText(ReplyToken(reply)) then Step(Ok(reply), Stored(read, ReplyToken(reply).value, Some(now + Day), iso))
      else Step(Ok(reply), read)
  }

  class SimulatedAuthService {
    /** `localStorage` */
    var storage: map<string, string>

    constructor (initial: map<string, string>)
      ensures storage == initial
    {
      storage := initial;
    }

    /** `getToken` */
    method GetToken(now: int, parse: DateParser) returns (t: Option<string>)
      modifies this
      ensures t == ValidToken(old(storage), now, parse)
      ensures storage == AfterRead(old(storage), now, parse)
    {
      if TokenKey !in storage || storage[TokenKey] == [] {
        return None;
      }
      if ExpiryKey in storage && storage[ExpiryKey] != [] {
        var expiry := parse(storage[ExpiryKey]);
        if expiry.None? || expiry.value < now {
          ClearAuthToken();
          return None;
        }
      }
      t := Some(storage[TokenKey]);
    }

    /** `setAuthToken` */
    method SetAuthToken(token: string, expiry: Option<int>, iso: IsoFormatter)
      modifies this
      ensures storage == Stored(old(storage), token, expiry, iso)
    {
      storage := storage[TokenKey := token];
      if expiry.Some? {
        storage := storage[ExpiryKey := iso(expiry.value)];
      }
    }

    /** `clearAuthToken` */
    method ClearAuthToken()
      modifies this
      ensures storage == Cleared(old(storage))
    {
      storage := storage - {TokenKey};
      storage := storage - {ExpiryKey};
      storage := storage - {RefreshKey};
    }

    /** `isAuthenticated`: `!!token`, which agrees with the real service's test. */
    method IsAuthenticated(now: int, parse: DateParser) returns (b: bool)
      modifies this
      ensures b <==> ValidToken(old(storage), now, parse).Some?
      ensures storage == AfterRead(old(storage), now, parse)
    {
      var token := GetToken(now, parse);
      b := token.Some?;
    }

    /** `apiCall`: reads the token, then asks the simulated endpoint. */
    method ApiCall(endpoint: string, now: nat, parse: DateParser, networkFails: bool) returns (r: Result<Reply, JsError>)
      modifies this
      ensures r == SimulatedCall(endpoint, now, networkFails)
      ensures storage == AfterRead(old(storage), now, parse)
    {
      var _ := GetToken(now, parse);
      if networkFails {
        return Err(PlainError(NetworkFailure));
      }
      r := SimulateResponse(endpoint, now);
    }

    method Authenticate(check: Option<string>, endpoint: string, now: nat, parse: DateParser, iso: IsoFormatter, networkFails: bool)
      returns (r: Result<Reply, JsError>)
      modifies this
      ensures Step(r, storage) == SignIn(check, endpoint, old(storage), now, parse, iso, networkFails)
    {
      if check.Some? {
        return Err(Classify(Thrown(PlainError(check.value))));
      }
      var reply := ApiCall(endpoint, now, parse, networkFails);
      if reply.Err? {
        return Err(Classify(Thrown(reply.error)));
      }
      var token := ReplyToken(reply.value);
      if ReplySuccess(reply.value) && TruthyText(token) {
        SetAuthToken(token.value, Some(now + Day), iso);
      }
      r := reply;
    }

    /** `login` */
    method Login(email: string, password: string, now: nat, parse: DateParser, iso: IsoFormatter, networkFails: bool)
      returns (r: Result<Reply, JsError>)
      modifies this
      ensures Step(r, storage) == SignIn(LoginCheck(email, password), LoginEndpoint, old(storage), now, parse, iso, networkFails)
    {
      r := Authenticate(LoginCheck(email, password), LoginEndpoint, now, parse, iso, networkFails);
    }

    /** `register` */
    method Register(name: string, email: string, password: string, now: nat, parse: DateParser, iso: IsoFormatter, networkFails: bool)
      returns (r: Result<Reply, JsError>)
      modifies this
      ensures Step(r, storage) == SignIn(RegisterCheck(name, email, password), RegisterEndpoint, old(storage), now, parse, iso, networkFails)
    {
      r := Authenticate(RegisterCheck(name, email, password), RegisterEndpoint, now, parse, iso, networkFails);
    }

    /** `getProfile` */
    method GetProfile(now: nat, parse: DateParser, networkFails: bool) returns (r: Result<Reply, JsError>)
      modifies this
      ensures Step(r, storage) == Profile(old(storage), now, parse, networkFails)
    {
      ReadIsIdempotent(storage, now, parse);
      var signedIn := IsAuthenticated(now, parse);
      if !signedIn {
        return Err(Classify(Thrown(PlainError(NotAuthenticated))));
      }
      var reply := ApiCall(ProfileEndpoint, now, parse, networkFails);
      if reply.Err? {
        return Err(Classify(Thrown(reply.error)));
      }
      r := reply;
    }

    /** `refreshToken` */
    method RefreshToken(now: nat, parse: DateParser, iso: IsoFormatter, networkFails: bool) returns (r: Result<Reply, JsError>)
      modifies this
      ensures Step(r, storage) == Refresh(old(storage), now, parse, iso, networkFails)
    {
      var reply := ApiCall(RefreshEndpoint, now, parse, networkFails);
      if reply.Err? {
        return Err(Classify(Thrown(reply.error)));
      }
      var token := ReplyToken(reply.value);
      if TruthyText(token) {
        SetAuthToken(token.value, Some(now + Day), iso);
      }
      r := reply;
    }

    /**
     * `logout`: without a session it returns at once, otherwise it calls the
     * logout endpoint and ignores the failure; either way `finally` clears.
     */
    method Logout(now: nat, parse: DateParser, networkFails: bool)
      modifies this
      ensures storage == Cleared(old(storage))
    {
      var signedIn := IsAuthenticated(now, parse);
      if signedIn {
        var _ := ApiCall(LogoutEndpoint, now, parse, networkFails);
      }
      ClearedAfterRead(old(storage), now, parse);
      ClearAuthToken();
    }
  }

  /** Reading the token before clearing makes no difference. */
  lemma ClearedAfterRead(items: map<string, string>, now: int, parse: DateParser)
    ensures Cleared(AfterRead(items, now, parse)) == Cleared(items)
  {
  }

  /**
   * The four endpoints are answered and every other one is refused by name;
   * among them is the logout endpoint, so the request `logout` makes always
   * fails, drawn outage or not.
   */
  lemma SimulatedEndpoints(endpoint: string, now: nat, networkFails: bool)
    ensures SimulateResponse(endpoint, now).Ok? <==>
      endpoint in [LoginEndpoint, RegisterEndpoint, ProfileEndpoint, RefreshEndpoint]
    ensures SimulateResponse(endpoint, now).Err? ==> SimulateResponse(endpoint, now).error == PlainError("Unknown endpoint: " + endpoint)
    ensures SimulatedCall(LogoutEndpoint, now, networkFails).Err?
  {
    assert |LogoutEndpoint| == 12;
    assert |LoginEndpoint| == 11 && |RegisterEndpoint| == 14 && |ProfileEndpoint| == 13 && |RefreshEndpoint| == 13;
    assert LogoutEndpoint[6] != RefreshEndpoint[6] && LogoutEndpoint[6] != ProfileEndpoint[6];
  }

  /** The register reply carries no token, so a registration never stores one, while a login stores the demo token. */
  lemma RegisterStoresNoToken(name: string, email: string, password: string, items: map<string, string>,
    now: nat, parse: DateParser, iso: IsoFormatter, networkFails: bool)
    ensures var s := SignIn(RegisterCheck(name, email, password), RegisterEndpoint, items, now, parse, iso, networkFails);
      s.storage == if RegisterCheck(name, email, password).Some? then items else AfterRead(items, now, parse)
  {
    RegisterReplyHasNoToken(now);
  }

  lemma RegisterReplyHasNoToken(now: nat)
    ensures SimulateResponse(RegisterEndpoint, now).Ok? && ReplyToken(SimulateResponse(RegisterEndpoint, now).value).None?
  {
    assert |RegisterEndpoint| != |LoginEndpoint|;
  }

  /**
   * A login that passes its checks and is not failed by the draw stores the
   * demo token `simulated-jwt-token-<now>`, which is then returned for a day.
   */
  lemma LoginStoresDemoToken(email: string, password: string, items: map<string, string>,
    now: nat, later: int, parse: DateParser, iso: IsoFormatter)
    requires LoginCheck(email, password).None?
    requires iso(now + Day) != [] && parse(iso(now + Day)) == Some(now + Day)
    ensures var s := SignIn(LoginCheck(email, password), LoginEndpoint, items, now, parse, iso, false);
      var token := "simulated-jwt-token-" + NatToString(now);
      s.result.Ok? && s.storage[TokenKey] == token
      && ValidToken(s.storage, later, parse) == if later <= now + Day then Some(token) else None
  {
    var token := "simulated-jwt-token-" + NatToString(now);
    StoredTokenLife(AfterRead(items, now, parse), token, now + Day, later, parse, iso);
  }

  /** Where a shared test matches, the demo says what the real service says. */
  lemma SharedTestsAgree(e: JsError)
    requires FirstMatch(ToLower(e.message), SharedRules).Some?
    ensures Classify(Thrown(e)) == Auth.Classify(Thrown(e)).error
  {
    FirstMatchAppend(ToLower(e.message), SharedRules, [Auth.ServerErrorRule, Auth.ForbiddenRule]);
  }

  /**
   * Where no shared test matches, the demo answers with its one system
   * message, including for the server-error and refusal messages the real
   * service tells apart and for the errors the real service rethrows.
   */
  lemma UnmatchedBecomeSystemError(e: JsError)
    requires FirstMatch(ToLower(e.message), SharedRules).None?
    ensures Classify(Thrown(e)) == PlainError(SystemError)
    ensures Auth.Classify(Thrown(e)).error == e || Auth.Classify(Thrown(e)).error in [PlainError(Auth.ServerError), PlainError(Auth.Forbidden)]
  {
    FirstMatchAppend(ToLower(e.message), SharedRules, [Auth.ServerErrorRule, Auth.ForbiddenRule]);
  }

  /** The simulated outage, lower-cased, names the network and nothing that comes before it. */
  lemma OutageText()
    ensures OccursAt(ToLower(NetworkFailure), 0, "network")
    ensures 'u' !in ToLower(NetworkFailure) && 'v' !in ToLower(NetworkFailure)
  {
    var s := NetworkFailure;
    assert s[0] == 'N' && s[1] == 'e' && s[2] == 't' && s[3] == 'w' && s[4] == 'o' && s[5] == 'r' && s[6] == 'k';
    LowerAbsent(NetworkFailure, 'u');
    LowerAbsent(NetworkFailure, 'v');
  }

  /** The simulated outage is reported as the network problem. */
  lemma OutageIsNetworkProblem()
    ensures Classify(Thrown(PlainError(NetworkFailure))) == PlainError(NetworkProblem)
  {
    var lower := ToLower(NetworkFailure);
    OutageText();
    Unmatched(lower, SessionRule, "uu");
    Unmatched(lower, CredentialsRule, "v");
    Unmatched(lower, MissingAccountRule, "uu");
    Unmatched(lower, LockedAccountRule, "uu");
    MatchedAt(lower, NetworkRule, 0, 0);
    forall j | 0 <= j < 4 ensures !Matches(lower, SharedRules[j]) {
      if j == 0 {
        assert SharedRules[j] == SessionRule;
      } else if j == 1 {
        assert SharedRules[j] == CredentialsRule;
      } else if j == 2 {
        assert SharedRules[j] == MissingAccountRule;
      } else {
        assert SharedRules[j] == LockedAccountRule;
      }
    }
    FirstMatchIs(lower, SharedRules, 4);
  }

  /** So a login or registration the draw fails tells the user about the network. */
  lemma OutageSignIn(check: Option<string>, endpoint: string, items: map<string, string>, now: nat, parse: DateParser, iso: IsoFormatter)
    requires check.None?
    ensures SignIn(check, endpoint, items, now, parse, iso, true) == Step(Err(PlainError(NetworkProblem)), AfterRead(items, now, parse))
  {
    OutageIsNetworkProblem();
  }

  /** The email-format message, lower-cased, has neither `u` nor `n`, so it names none of the keys. */
  lemma EmailFormatText()
    ensures 'u' !in ToLower(EmailFormat) && 'n' !in ToLower(EmailFormat)
  {
    LowerAbsent(EmailFormat, 'u');
    LowerAbsent(EmailFormat, 'n');
  }

  /** An input message is replaced by the system message: the one about the email's format, for instance. */
  lemma EmailFormatReplaced()
    ensures Classify(Thrown(PlainError(EmailFormat))) == PlainError(SystemError)
  {
    var lower := ToLower(EmailFormat);
    EmailFormatText();
    Unmatched(lower, SessionRule, "uu");
    Unmatched(lower, CredentialsRule, "n");
    Unmatched(lower, MissingAccountRule, "uu");
    Unmatched(lower, LockedAccountRule, "uu");
    Unmatched(lower, NetworkRule, "nn");
    Unmatched(lower, TimeoutRule, "u");
    forall j | 0 <= j < |SharedRules| ensures !Matches(lower, SharedRules[j]) {
      if j == 0 {
        assert SharedRules[j] == SessionRule;
      } else if j == 1 {
        assert SharedRules[j] == CredentialsRule;
      } else if j == 2 {
        assert SharedRules[j] == MissingAccountRule;
      } else if j == 3 {
        assert SharedRules[j] == LockedAccountRule;
      } else if j == 4 {
        assert SharedRules[j] == NetworkRule;
      } else {
        assert SharedRules[j] == TimeoutRule;
      }
    }
  }
}
