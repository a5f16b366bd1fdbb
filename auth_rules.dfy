/**
 * What the authentication service and its demo twin share: the three
 * `localStorage` keys of the session and the rule that reads them, the
 * `login`/`register` input checks, and the ordered keyword rules by which
 * `handleError` turns an error message into a message for the user.
 *
 * The store is `localStorage` as a map from keys to strings. `new Date(s)`
 * is the `DateParser` parameter (`None` is an invalid date) and
 * `toISOString` the `IsoFormatter` parameter; dates are milliseconds.
 */
module AuthRules {
  import opened Wrappers
  import opened JsText
  import opened FetchErrors
  import opened KeywordRules

  const TokenKey: string := "auth_token"
  const RefreshKey: string := "refresh_token"
  const ExpiryKey: string := "token_expiry"
  /** `AUTH_CONSTANTS.PASSWORD_MIN_LENGTH` */
  const PasswordMinLength: nat := 6
  /** `24 * 60 * 60 * 1000`: the lifetime given to every stored token. */
  const Day: nat := 24 * 60 * 60 * 1000

  const LoginEndpoint: string := "/auth/login"
  const RegisterEndpoint: string := "/auth/register"
  const ProfileEndpoint: string := "/auth/profile"
  const RefreshEndpoint: string := "/auth/refresh"
  const LogoutEndpoint: string := "/auth/logout"

  type DateParser = string -> Option<int>
  type IsoFormatter = int -> string

  /** What a `catch` received: an `Error`, or some other thrown value. */
  datatype Caught = Thrown(error: JsError) | NonError

  /** An outcome and the store after it. */
  datatype Step<T> = Step(result: Result<T, JsError>, storage: map<string, string>)

  // ---------------------------------------------------------------- the store

  /** The stored expiry is set, and it is not a date or lies before `now`. */
  predicate ExpiryPassed(items: map<string, string>, now: int, parse: DateParser) {
    ExpiryKey in items && items[ExpiryKey] != []
    && (parse(items[ExpiryKey]).None? || parse(items[ExpiryKey]).value < now)
  }

  /** A token is stored, and it is not the empty string (which `!token` rejects). */
  predicate HasToken(items: map<string, string>) {
    TokenKey in items && items[TokenKey] != []
  }

  /** What `getToken` returns. */
  function ValidToken(items: map<string, string>, now: int, parse: DateParser): (r: Option<string>)
    ensures r.Some? ==> TokenKey in items && r.value == items[TokenKey] && r.value != []
  {
    if HasToken(items) && !ExpiryPassed(items, now, parse) then Some(items[TokenKey]) else None
  }

  /** `clearAuthToken`: the three session keys are removed and nothing else. */
  function Cleared(items: map<string, string>): (r: map<string, string>)
    ensures TokenKey !in r && ExpiryKey !in r && RefreshKey !in r
    ensures forall k :: k in items && k != TokenKey && k != ExpiryKey && k != RefreshKey ==> k in r && r[k] == items[k]
    ensures forall k :: k in r ==> k in items
  {
    items - {TokenKey, ExpiryKey, RefreshKey}
  }

  /** The store after `getToken`: a token whose expiry has passed is cleared. */
  function AfterRead(items: map<string, string>, now: int, parse: DateParser): map<string, string> {
    if HasToken(items) && ExpiryPassed(items, now, parse) then Cleared(items) else items
  }

  /** `setAuthToken(token, expiry)` */
  function Stored(items: map<string, string>, token: string, expiry: Option<int>, iso: IsoFormatter): (r: map<string, string>)
    ensures TokenKey in r && r[TokenKey] == token
    ensures expiry.Some? ==> ExpiryKey in r && r[ExpiryKey] == iso(expiry.value)
    ensures expiry.None? ==> (ExpiryKey in r <==> ExpiryKey in items) && (ExpiryKey in r ==> r[ExpiryKey] == items[ExpiryKey])
    ensures forall k :: k in items && k != TokenKey && k != ExpiryKey ==> k in r && r[k] == items[k]
  {
    var withToken := items[TokenKey := token];
    if expiry.Some? then withToken[ExpiryKey := iso(expiry.value)] else withToken
  }

  /** A token that is returned is the stored, non-empty one, and reading it changed nothing. */
  lemma ValidTokenMeaning(items: map<string, string>, now: int, parse: DateParser)
    ensures ValidToken(items, now, parse).Some? ==>
      TokenKey in items && ValidToken(items, now, parse).value == items[TokenKey]
      && ValidToken(items, now, parse).value != [] && AfterRead(items, now, parse) == items
    ensures ValidToken(items, now, parse).None? <==> !HasToken(items) || ExpiryPassed(items, now, parse)
  {
  }

  /** Reading the token twice at the same moment is reading it once. */
  lemma ReadIsIdempotent(items: map<string, string>, now: int, parse: DateParser)
    ensures AfterRead(AfterRead(items, now, parse), now, parse) == AfterRead(items, now, parse)
    ensures ValidToken(AfterRead(items, now, parse), now, parse) == ValidToken(items, now, parse)
  {
    var after := Cleared(items);
    assert !HasToken(after);
  }

  /** After a clear no token is returned, whatever the time. */
  lemma ClearedHasNoToken(items: map<string, string>, now: int, parse: DateParser)
    ensures ValidToken(Cleared(items), now, parse).None?
    ensures AfterRead(Cleared(items), now, parse) == Cleared(items)
  {
  }

  /**
   * A non-empty token stored with expiry `t` is returned at every moment up
   * to and including `t` and at none after, given that `new Date` reads back
   * what `toISOString` wrote.
   */
  lemma StoredTokenLife(items: map<string, string>, token: string, t: int, now: int, parse: DateParser, iso: IsoFormatter)
    requires token != [] && iso(t) != [] && parse(iso(t)) == Some(t)
    ensures ValidToken(Stored(items, token, Some(t), iso), now, parse) == if now <= t then Some(token) else None
  {
  }

  // --------------------------------------------------------- input checks

  const MissingLoginFields: string := "Email dan password wajib diisi"
  const MissingRegisterFields: string := "Nama, email dan password wajib diisi"
  const ShortName: string := "Nama minimal 2 karakter"
  const EmailFormat: string := "Format email tidak valid"
  const ShortPassword: string := "Password minimal " + NatToString(PasswordMinLength) + " karakter"
  const WeakPassword: string := "Password harus mengandung huruf besar, huruf kecil, dan angka"
  /** What `getProfile` throws without a session. */
  const NotAuthenticated: string := "User tidak terautentikasi"

  /** `[^\s@]` */
  predicate PlainChar(c: char) {
    !IsSpace(c) && c != '@'
  }

  /**
   * `/^[^\s@]+@[^\s@]+\.[^\s@]+$/.test(s)`: one `@` with text before it, and
   * after it a `.` with text on both sides, and no white space anywhere.
   */
  predicate EmailShaped(s: string)
    ensures EmailShaped(s) ==> |s| >= 5
  {
    exists at, dot :: 0 < at < |s| && at + 1 < dot < |s| - 1 && s[at] == '@' && s[dot] == '.'
      && forall i :: 0 <= i < |s| && i != at ==> PlainChar(s[i])
  }

  /** `[a-zA-Z\d@$!%*?&]` */
  predicate PasswordChar(c: char) {
    'a' <= c <= 'z' || 'A' <= c <= 'Z' || '0' <= c <= '9' || c in "@$!%*?&"
  }

  /** `/^(?=.*[a-z])(?=.*[A-Z])(?=.*\d)[a-zA-Z\d@$!%*?&]{8,}$/.test(p)` */
  predicate StrongPassword(p: string)
    ensures StrongPassword(p) ==> |p| > PasswordMinLength
  {
    |p| >= 8 && (forall i :: 0 <= i < |p| ==> PasswordChar(p[i]))
    && (exists i :: 0 <= i < |p| && 'a' <= p[i] <= 'z')
    && (exists i :: 0 <= i < |p| && 'A' <= p[i] <= 'Z')
    && (exists i :: 0 <= i < |p| && '0' <= p[i] <= '9')
  }

  /** The checks of `login`, in order: the message of the first that fails. */
  function LoginCheck(email: string, password: string): (r: Option<string>)
    ensures r.Some? ==> r.value in [MissingLoginFields, EmailFormat, ShortPassword]
    ensures r.None? ==> EmailShaped(email) && |password| >= PasswordMinLength
    ensures email == [] || password == [] ==> r == Some(MissingLoginFields)
  {
    if email == [] || password == [] then Some(MissingLoginFields)
    else if !EmailShaped(email) then Some(EmailFormat)
    else if |password| < PasswordMinLength then Some(ShortPassword)
    else None
  }

  /** The checks of `register`, in order: the message of the first that fails. */
  function RegisterCheck(name: string, email: string, password: string): (r: Option<string>)
    ensures r.Some? ==> r.value in [MissingRegisterFields, ShortName, EmailFormat, ShortPassword, WeakPassword]
    ensures r.None? ==> |Trim(name)| >= 2 && EmailShaped(email) && StrongPassword(password)
    ensures name == [] || email == [] || password == [] ==> r == Some(MissingRegisterFields)
  {
    if name == [] || email == [] || password == [] then Some(MissingRegisterFields)
    else if |Trim(name)| < 2 then Some(ShortName)
    else if !EmailShaped(email) then Some(EmailFormat)
    else if |password| < PasswordMinLength then Some(ShortPassword)
    else if !StrongPassword(password) then Some(WeakPassword)
    else None
  }

  /** A login is let through exactly when both fields are filled, the email is shaped and the password has six characters. */
  lemma LoginCheckMeaning(email: string, password: string)
    ensures LoginCheck(email, password).None? <==> EmailShaped(email) && |password| >= 6
    ensures LoginCheck(email, password) == Some(ShortPassword) <==> EmailShaped(email) && 0 < |password| < 6
  {
    if EmailShaped(email) {
      var at, dot :| 0 < at < |email| && at + 1 < dot < |email| - 1 && email[at] == '@' && email[dot] == '.'
        && forall i :: 0 <= i < |email| && i != at ==> PlainChar(email[i]);
      assert email != [];
    }
    assert ShortPassword != MissingLoginFields && ShortPassword != EmailFormat by {
      assert |ShortPassword| == 27;
    }
  }

  /**
   * The complexity rule asks for eight characters, so the six-character
   * minimum checked before it never decides a registration: an accepted
   * password has at least eight, and one of six or seven is refused as weak.
   */
  lemma RegisterEffectiveMinimum(name: string, email: string, password: string)
    ensures RegisterCheck(name, email, password).None? ==>
      |password| >= 8 && |Trim(name)| >= 2 && EmailShaped(email)
    ensures name != [] && |Trim(name)| >= 2 && EmailShaped(email) && 6 <= |password| < 8 ==>
      RegisterCheck(name, email, password) == Some(WeakPassword)
  {
    if EmailShaped(email) {
      var at, dot :| 0 < at < |email| && at + 1 < dot < |email| - 1 && email[at] == '@' && email[dot] == '.'
        && forall i :: 0 <= i < |email| && i != at ==> PlainChar(email[i]);
      assert email != [];
    }
  }

  /** A shaped email has exactly one `@` and no white space. */
  lemma EmailHasOneAt(s: string)
    requires EmailShaped(s)
    ensures exists at :: 0 < at < |s| - 1 && s[at] == '@' && forall i :: 0 <= i < |s| && i != at ==> s[i] != '@'
    ensures forall i :: 0 <= i < |s| ==> !IsSpace(s[i])
  {
    var at, dot :| 0 < at < |s| && at + 1 < dot < |s| - 1 && s[at] == '@' && s[dot] == '.'
      && forall i :: 0 <= i < |s| && i != at ==> PlainChar(s[i]);
    assert forall i :: 0 <= i < |s| && i != at ==> s[i] != '@';
  }

  /** The simulated account's address is accepted. */
  lemma DemoEmailShaped()
    ensures EmailShaped("demo@lakuin.com")
  {
    var s := "demo@lakuin.com";
    assert s[4] == '@' && s[11] == '.';
    assert forall i :: 0 <= i < |s| && i != 4 ==> PlainChar(s[i]);
  }

  // ------------------------------------------------------- error messages

  const SessionExpired: string := "Sesi login telah berakhir. Silakan login kembali."
  const WrongCredentials: string := "Email atau password salah. Periksa kembali dan coba lagi."
  const AccountNotFound: string := "Akun dengan email ini tidak ditemukan."
  const AccountLocked: string := "Akun Anda terkunci. Hubungi administrator untuk bantuan."
  const NetworkProblem: string := "Terjadi masalah jaringan. Periksa koneksi internet Anda."
  const RequestTimeout: string := "Permintaan timeout. Silakan coba lagi."

  const SessionRule: Rule<string> := Rule(["unauthorized", "unauthenticated"], SessionExpired)
  const CredentialsRule: Rule<string> := Rule(["invalid credentials"], WrongCredentials)
  const MissingAccountRule: Rule<string> := Rule(["user not found", "user not exist"], AccountNotFound)
  const LockedAccountRule: Rule<string> := Rule(["account locked", "account suspended"], AccountLocked)
  const NetworkRule: Rule<string> := Rule(["network", "net::"], NetworkProblem)
  const TimeoutRule: Rule<string> := Rule(["timeout"], RequestTimeout)

  /** The six tests both services make, in their order; the first is the session one. */
  const SharedRules: seq<Rule<string>> := [SessionRule, CredentialsRule, MissingAccountRule, LockedAccountRule, NetworkRule, TimeoutRule]
}
