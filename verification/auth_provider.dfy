/**
 * The client-side identity store: who is signed in (`user`), whether a sign-in is in
 * progress (`loading`), the last sign-in error (`error`), and the one persisted record
 * under the `ss_user` key of the browser's local storage.
 */
module Auth {
  import opened Wrappers

  /** The signed-in user's profile snapshot. */
  datatype Identity = Identity(uid: string, name: string, email: string, avatar: string, tokens: int)

  /** The local-storage key of the persisted identity. */
  const UserKey: string := "ss_user"

  /**
   * `JSON.stringify` and `JSON.parse` as the store uses them on identity records. `parse`
   * gives None when `JSON.parse` throws, and also for the text "null" (which leaves a
   * freshly mounted store signed out just the same).
   */
  datatype Json = Json(stringify: Identity -> string, parse: string -> Option<Identity>)

  /** What the model assumes of JSON: it reads back what it wrote, and never writes "". */
  ghost predicate RoundTrips(json: Json) {
    forall u :: json.stringify(u) != "" && json.parse(json.stringify(u)) == Some(u)
  }

  // ---------------------------------------------------------------------------
  // Fixed values of the two sign-in paths
  // ---------------------------------------------------------------------------

  const GuestName: string := "Guest Learner"
  const GuestAvatar: string := "https://i.pravatar.cc/100"
  const DemoEmail: string := "demo@skillswap.dev"
  const DemoPassword: string := "demo123"
  const DemoIdentity: Identity :=
    Identity("demo-user-1", "Demo User", DemoEmail, "https://i.pravatar.cc/100?u=demo-user", 42)
  /** The message the store shows after a rejected password sign-in. */
  const InvalidHint: string := "Invalid email or password (try demo@skillswap.dev / demo123)"
  /** The error the rejected password sign-in returns to its caller. */
  const InvalidCredentials: string := "Invalid credentials"

  /** The decimal digit for `d`. */
  function Digit(d: nat): char
    requires d < 10
  {
    ('0' as int + d) as char
  }

  predicate IsDigit(c: char) {
    '0' <= c <= '9'
  }

  /** How a template literal prints a non-negative integer: decimal, no leading zero. */
  function Decimal(n: nat): (s: string)
    ensures |s| > 0
    ensures forall i :: 0 <= i < |s| ==> IsDigit(s[i])
    ensures s[0] == '0' ==> n == 0
  {
    if n < 10 then [Digit(n)] else Decimal(n / 10) + [Digit(n % 10)]
  }

  /** The number a string of decimal digits denotes. */
  function DigitsValue(s: string): nat
    requires forall i :: 0 <= i < |s| ==> IsDigit(s[i])
  {
    if s == [] then 0
    else
      var last := s[|s| - 1];
      assert IsDigit(last);
      10 * DigitsValue(s[..|s| - 1]) + (last as int - '0' as int)
  }

  /** The printed number reads back as the number: the guest email records the draw exactly. */
  lemma {:induction false} DecimalValue(n: nat)
    ensures DigitsValue(Decimal(n)) == n
  {
    if n >= 10 {
      DecimalValue(n / 10);
      var s := Decimal(n);
      assert s[..|s| - 1] == Decimal(n / 10);
    }
  }

  /**
   * The placeholder email of a simulated sign-in whose random draw was `n`: the digits
   * between `guest` and the domain read back as `n`.
   */
  function GuestEmail(n: nat): (e: string)
    ensures |e| > 19 && e[..5] == "guest" && e[|e| - 14..] == "@skillswap.dev"
    ensures forall i :: 5 <= i < |e| - 14 ==> IsDigit(e[i])
    ensures DigitsValue(e[5..|e| - 14]) == n
  {
    var e := "guest" + Decimal(n) + "@skillswap.dev";
    assert e[5..|e| - 14] == Decimal(n);
    DecimalValue(n);
    e
  }

  /** The identity a simulated provider sign-in creates: a one-token guest, never the demo user. */
  function GuestIdentity(uid: string, n: nat): (u: Identity)
    ensures u.uid == uid && u.tokens == 1
    ensures u != DemoIdentity
  {
    Identity(uid, GuestName, GuestEmail(n), GuestAvatar, 1)
  }

  // ---------------------------------------------------------------------------
  // The credential test: email?.toLowerCase() === validEmail && password === validPass
  // ---------------------------------------------------------------------------

  /**
   * Lower-casing of one code point, for the characters whose JavaScript lower-case form
   * is a single ASCII character: 'A'..'Z' and U+212A KELVIN SIGN (which lower-cases to
   * 'k'). Every other character is kept; its real lower-case form is never ASCII, so no
   * comparison with an ASCII string changes.
   */
  function LowerChar(c: char): (d: char)
    ensures !('A' <= d <= 'Z')
    ensures d != c ==> SpellsChar(c, d)
  {
    if 'A' <= c <= 'Z' then (c as int + 32) as char
    else if c == '\U{212A}' then 'k'
    else c
  }

  /**
   * `s.toLowerCase()`, as far as comparisons with ASCII text can tell: one code point per
   * code point (unlike JavaScript for U+0130), no ASCII capital left.
   */
  function ToLower(s: string): (l: string)
    ensures |l| == |s|
    ensures forall i :: 0 <= i < |l| ==> !('A' <= l[i] <= 'Z')
  {
    seq(|s|, i requires 0 <= i < |s| => LowerChar(s[i]))
  }

  /** Whether `loginWithPassword(email, password)` accepts; a missing email never does. */
  predicate CredentialsMatch(email: Option<string>, password: Option<string>): (ok: bool)
    ensures ok ==> email.Some? && |email.value| == |DemoEmail| && password == Some(DemoPassword)
  {
    email.Some? && ToLower(email.value) == DemoEmail && password == Some(DemoPassword)
  }

  /** Lower-case ASCII text: what the demo email is made of. */
  predicate IsLowerAscii(v: string) {
    forall i :: 0 <= i < |v| ==> v[i] < '\U{0080}' && !('A' <= v[i] <= 'Z')
  }

  /** The code points that spell `d` when case is ignored: `d`, its capital, and for 'k' the Kelvin sign. */
  predicate SpellsChar(c: char, d: char) {
    c == d
    || ('a' <= d <= 'z' && c as int == d as int - 32)
    || (d == 'k' && c == '\U{212A}')
  }

  /** `e` spells `v` letter by letter, each letter in either case. */
  predicate SpellsIgnoringCase(e: string, v: string) {
    |e| == |v| && forall i :: 0 <= i < |e| ==> SpellsChar(e[i], v[i])
  }

  lemma LowerCharIff(c: char, d: char)
    requires d < '\U{0080}' && !('A' <= d <= 'Z')
    ensures LowerChar(c) == d <==> SpellsChar(c, d)
  {
  }

  /** Lower-casing `e` gives the lower-case ASCII text `v` exactly when `e` spells `v` in any case. */
  lemma ToLowerIff(e: string, v: string)
    requires IsLowerAscii(v)
    ensures ToLower(e) == v <==> SpellsIgnoringCase(e, v)
  {
    if |e| == |v| {
      forall i | 0 <= i < |e| ensures LowerChar(e[i]) == v[i] <==> SpellsChar(e[i], v[i]) {
        LowerCharIff(e[i], v[i]);
      }
      if SpellsIgnoringCase(e, v) {
        assert forall i :: 0 <= i < |e| ==> ToLower(e)[i] == v[i];
      }
    }
  }

  /**
   * The password sign-in accepts exactly the demo email in any mix of upper and lower case
   * together with the password "demo123" as written; a missing email or password fails.
   */
  lemma CredentialsMatchIff(email: Option<string>, password: Option<string>)
    ensures CredentialsMatch(email, password) <==>
      email.Some? && SpellsIgnoringCase(email.value, DemoEmail) && password == Some(DemoPassword)
  {
    assert IsLowerAscii(DemoEmail);
    if email.Some? {
      ToLowerIff(email.value, DemoEmail);
    }
  }

  /** The email is compared without regard to case. */
  lemma UpperCaseEmailAccepted()
    ensures CredentialsMatch(Some("DEMO@SKILLSWAP.DEV"), Some(DemoPassword))
  {
    var e := "DEMO@SKILLSWAP.DEV";
    assert forall i :: 0 <= i < |e| ==> SpellsChar(e[i], DemoEmail[i]);
    CredentialsMatchIff(Some(e), Some(DemoPassword));
  }

  /** The Kelvin sign lower-cases to 'k', so it may stand for the 'k' of the demo email. */
  lemma KelvinSignAccepted()
    ensures CredentialsMatch(Some("demo@s\U{212A}illswap.dev"), Some(DemoPassword))
  {
    var e := "demo@s\U{212A}illswap.dev";
    assert forall i :: 0 <= i < |e| ==> SpellsChar(e[i], DemoEmail[i]);
    CredentialsMatchIff(Some(e), Some(DemoPassword));
  }

  /** The password is compared exactly, case included. */
  lemma PasswordIsCaseSensitive(email: Option<string>)
    ensures !CredentialsMatch(email, Some("Demo123"))
  {
    assert "Demo123"[0] != DemoPassword[0];
  }

  // ---------------------------------------------------------------------------
  // The store's state and its transitions, as values
  // ---------------------------------------------------------------------------

  /** The store's state with the browser's local storage beside it. */
  datatype AuthState = AuthState(
    user: Option<Identity>,
    loading: bool,
    error: Option<string>,
    storage: map<string, string>)

  /** What the mount-time hydration reads back from `storage`: only a non-empty record that parses gives a user. */
  function Hydrated(storage: map<string, string>, parse: string -> Option<Identity>): (u: Option<Identity>)
    ensures u.Some? ==> UserKey in storage && storage[UserKey] != "" && parse(storage[UserKey]) == u
  {
    if UserKey in storage && storage[UserKey] != "" then parse(storage[UserKey]) else None
  }

  /** The state of a freshly mounted store over `storage`, after hydration: idle, no error, storage as found. */
  function Mounted(storage: map<string, string>, parse: string -> Option<Identity>): (s: AuthState)
    ensures s.user == Hydrated(storage, parse)
    ensures !s.loading && s.error == None && s.storage == storage
    ensures s.user.Some? ==> UserKey in storage
  {
    AuthState(Hydrated(storage, parse), false, None, storage)
  }

  /** A finished successful sign-in as `u`: set, persisted, error cleared, not loading. */
  function SignedIn(s: AuthState, u: Identity, stringify: Identity -> string): (t: AuthState)
    ensures t.user == Some(u) && !t.loading && t.error == None
    ensures t.storage.Keys == s.storage.Keys + {UserKey} && t.storage[UserKey] == stringify(u)
    ensures forall k :: k in s.storage && k != UserKey ==> t.storage[k] == s.storage[k]
  {
    AuthState(Some(u), false, None, s.storage[UserKey := stringify(u)])
  }

  /** The simulated provider sign-in: always a one-token guest, persisted. */
  function AfterGoogleLogin(s: AuthState, stringify: Identity -> string, uid: string, n: nat): (t: AuthState)
    ensures t.user.Some? && t.user.value.uid == uid && t.user.value.tokens == 1
    ensures t.storage.Keys == s.storage.Keys + {UserKey}
    ensures forall k :: k in s.storage && k != UserKey ==> t.storage[k] == s.storage[k]
  {
    SignedIn(s, GuestIdentity(uid, n), stringify)
  }

  /** What `loginWithPassword` resolves to: `{ok: true}` or `{ok: false, error}`. */
  datatype LoginResult = LoginResult(ok: bool, error: Option<string>)

  datatype Attempt = Attempt(state: AuthState, result: LoginResult)

  /** The password sign-in: the demo user on matching credentials, otherwise only the error changes. */
  function AfterPasswordLogin(
    s: AuthState, stringify: Identity -> string, email: Option<string>, password: Option<string>): (a: Attempt)
    ensures a.result.ok <==> CredentialsMatch(email, password)
    ensures a.result.ok ==> a.state.user == Some(DemoIdentity)
    ensures !a.result.ok ==> a.state.user == s.user && a.state.storage == s.storage
    ensures !a.state.loading
  {
    if CredentialsMatch(email, password) then
      Attempt(SignedIn(s, DemoIdentity, stringify), LoginResult(true, None))
    else
      Attempt(s.(loading := false, error := Some(InvalidHint)), LoginResult(false, Some(InvalidCredentials)))
  }

  /** Sign-out: nobody signed in and no record left; every other key kept. */
  function AfterLogout(s: AuthState): (t: AuthState)
    ensures t.user == None && UserKey !in t.storage
    ensures t.storage.Keys == s.storage.Keys - {UserKey}
    ensures forall k :: k in t.storage ==> t.storage[k] == s.storage[k]
  {
    s.(user := None, storage := s.storage - {UserKey})
  }

  // ---------------------------------------------------------------------------
  // Properties of the transitions
  // ---------------------------------------------------------------------------

  /** No record, or an empty one, hydrates to nobody; a record hydrates to what it parses to. */
  lemma HydrateCases(storage: map<string, string>, parse: string -> Option<Identity>)
    ensures UserKey !in storage ==> Hydrated(storage, parse) == None
    ensures UserKey in storage && storage[UserKey] == "" ==> Hydrated(storage, parse) == None
    ensures UserKey in storage && storage[UserKey] != "" ==> Hydrated(storage, parse) == parse(storage[UserKey])
    ensures UserKey in storage && parse(storage[UserKey]) == None ==> Hydrated(storage, parse) == None
  {
  }

  /** A simulated sign-in always ends signed in as a fresh guest with one token, persisted, no error. */
  lemma GoogleLoginOutcome(s: AuthState, json: Json, uid: string, n: nat)
    ensures var t := AfterGoogleLogin(s, json.stringify, uid, n);
      && t.user.Some? && t.user.value.uid == uid && t.user.value.name == GuestName
      && t.user.value.email == GuestEmail(n) && t.user.value.avatar == GuestAvatar
      && t.user.value.tokens == 1
      && UserKey in t.storage && t.storage[UserKey] == json.stringify(t.user.value)
      && t.error == None && !t.loading
      && (forall k :: k in s.storage && k != UserKey ==> k in t.storage && t.storage[k] == s.storage[k])
  {
  }

  /** The password sign-in reports success exactly when the credentials match. */
  lemma PasswordLoginOkIff(s: AuthState, json: Json, email: Option<string>, password: Option<string>)
    ensures AfterPasswordLogin(s, json.stringify, email, password).result.ok <==>
      email.Some? && SpellsIgnoringCase(email.value, DemoEmail) && password == Some(DemoPassword)
  {
    CredentialsMatchIff(email, password);
  }

  /** A successful password sign-in is the demo identity with 42 tokens, persisted, whatever the email's case. */
  lemma PasswordLoginSuccess(s: AuthState, json: Json, email: Option<string>, password: Option<string>)
    requires AfterPasswordLogin(s, json.stringify, email, password).result.ok
    ensures var a := AfterPasswordLogin(s, json.stringify, email, password);
      && a.state.user == Some(DemoIdentity)
      && a.state.user.value.uid == "demo-user-1" && a.state.user.value.email == DemoEmail
      && a.state.user.value.tokens == 42
      && UserKey in a.state.storage && a.state.storage[UserKey] == json.stringify(DemoIdentity)
      && a.state.error == None && !a.state.loading
      && a.result == LoginResult(true, None)
  {
  }

  /** A failed password sign-in keeps user and storage, shows the hint and reports the error. */
  lemma PasswordLoginFailure(s: AuthState, json: Json, email: Option<string>, password: Option<string>)
    requires !CredentialsMatch(email, password)
    ensures var a := AfterPasswordLogin(s, json.stringify, email, password);
      && a.state.user == s.user && a.state.storage == s.storage
      && a.state.error == Some(InvalidHint) && !a.state.loading
      && a.result == LoginResult(false, Some(InvalidCredentials))
  {
  }

  /** Without an email there is nothing to lower-case, and the sign-in fails. */
  lemma MissingEmailFails(s: AuthState, json: Json, password: Option<string>)
    ensures !AfterPasswordLogin(s, json.stringify, None, password).result.ok
  {
  }

  /** Signing out clears the user and the record, keeps the flags, and is idempotent. */
  lemma LogoutOutcome(s: AuthState)
    ensures AfterLogout(s).user == None && UserKey !in AfterLogout(s).storage
    ensures AfterLogout(s).loading == s.loading && AfterLogout(s).error == s.error
    ensures AfterLogout(AfterLogout(s)) == AfterLogout(s)
  {
  }

  /** After signing out, a later mount finds nobody: the record was deleted, not just the memory. */
  lemma HydrateAfterLogout(s: AuthState, parse: string -> Option<Identity>)
    ensures Hydrated(AfterLogout(s).storage, parse) == None
  {
  }

  /** After a sign-in, a later mount restores the same user. */
  lemma HydrateAfterSignIn(s: AuthState, u: Identity, json: Json)
    requires RoundTrips(json)
    ensures Hydrated(SignedIn(s, u, json.stringify).storage, json.parse) == Some(u)
  {
    assert json.stringify(u) != "" && json.parse(json.stringify(u)) == Some(u);
  }

  /** Sign-in and sign-out touch the `ss_user` record and no other storage key. */
  lemma OtherKeysUntouched(s: AuthState, u: Identity, stringify: Identity -> string, k: string)
    requires k != UserKey
    ensures k in SignedIn(s, u, stringify).storage <==> k in s.storage
    ensures k in AfterLogout(s).storage <==> k in s.storage
    ensures k in s.storage ==> SignedIn(s, u, stringify).storage[k] == s.storage[k]
    ensures k in s.storage ==> AfterLogout(s).storage[k] == s.storage[k]
  {
  }

  // ---------------------------------------------------------------------------
  // The store
  // ---------------------------------------------------------------------------

  class AuthProvider {
    var user: Option<Identity>
    var loading: bool
    var error: Option<string>
    /** The browser's local storage, of which the store owns the `ss_user` entry. */
    var storage: map<string, string>
    const json: Json

    function State(): AuthState
      reads this
    {
      AuthState(user, loading, error, storage)
    }

    /** Mounting: the initial state, then the one-time hydration from `ss_user`. */
    constructor Mount(persisted: map<string, string>, json: Json)
      ensures State() == Mounted(persisted, json.parse)
      ensures this.json == json
    {
      this.json := json;
      user := None;
      loading := false;
      error := None;
      storage := persisted;
      if UserKey in persisted {
        var raw := persisted[UserKey];
        if raw != "" {
          var parsed := json.parse(raw);
          if parsed.Some? {
            user := parsed;
          }
        }
      }
    }

    /**
     * The simulated provider sign-in. `uid` stands for `crypto.randomUUID()` and `n` for
     * `Math.floor(Math.random() * 9999)`, which lies in 0..9998.
     */
    method LoginWithGoogle(uid: string, n: nat)
      requires n < 9999
      modifies this
      ensures State() == AfterGoogleLogin(old(State()), json.stringify, uid, n)
    {
      loading := true;
      error := None;
      var demoUser := GuestIdentity(uid, n);
      user := Some(demoUser);
      storage := storage[UserKey := json.stringify(demoUser)];
      loading := false;
    }

    /** The fixed-credential sign-in, with the 500 ms pause taken as instantaneous. */
    method LoginWithPassword(email: Option<string>, password: Option<string>) returns (r: LoginResult)
      modifies this
      ensures State() == AfterPasswordLogin(old(State()), json.stringify, email, password).state
      ensures r == AfterPasswordLogin(old(State()), json.stringify, email, password).result
    {
      loading := true;
      error := None;
      if email.Some? && ToLower(email.value) == DemoEmail && password == Some(DemoPassword) {
        var demoUser := DemoIdentity;
        user := Some(demoUser);
        storage := storage[UserKey := json.stringify(demoUser)];
        r := LoginResult(true, None);
      } else {
        error := Some(InvalidHint);
        r := LoginResult(false, Some(InvalidCredentials));
      }
      loading := false;
    }

    method Logout()
      modifies this
      ensures State() == AfterLogout(old(State()))
    {
      user := None;
      storage := storage - {UserKey};
    }
  }

  // ---------------------------------------------------------------------------
  // Whole sessions, across a reload
  // ---------------------------------------------------------------------------

  /** Sign in with the demo account, sign out, reload: nobody is signed in. */
  method SignOutSurvivesReload(persisted: map<string, string>, json: Json) returns (user: Option<Identity>)
    ensures user == None
  {
    var store := new AuthProvider.Mount(persisted, json);
    var _ := store.LoginWithPassword(Some(DemoEmail), Some(DemoPassword));
    store.Logout();
    var reloaded := new AuthProvider.Mount(store.storage, json);
    user := reloaded.user;
  }

  /** Sign in with the demo account, reload: the demo user is back. */
  method SignInSurvivesReload(persisted: map<string, string>, json: Json) returns (user: Option<Identity>)
    requires RoundTrips(json)
    ensures user == Some(DemoIdentity)
  {
    var store := new AuthProvider.Mount(persisted, json);
    var before := store.State();
    var r := store.LoginWithPassword(Some(DemoEmail), Some(DemoPassword));
    assert r.ok by { CredentialsMatchIff(Some(DemoEmail), Some(DemoPassword)); }
    HydrateAfterSignIn(before, DemoIdentity, json);
    var reloaded := new AuthProvider.Mount(store.storage, json);
    user := reloaded.user;
  }
}
