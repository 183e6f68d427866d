/**
 * The authentication store: the in-memory session fields over the device's
 * secure key/value storage, its actions and its two views.
 */
module Session {
  import opened Wrappers
  import Js
  import opened Apisauce
  import ApiClient

  const AUTH_TOKEN_KEY: string := "authToken"
  const REFRESH_TOKEN_KEY: string := "refreshToken"

  /**
   * The store's props and the secure storage. An absent `Option` is an
   * `undefined` or `null` field; `isAuthenticated` is the stored flag, which
   * the actions set independently of the `IsAuthenticated` view; a key
   * missing from `storage` is a key SecureStore has no item for.
   */
  datatype SessionState = SessionState(
    phoneNumber: string,
    authToken: Option<string>,
    isAuthenticated: Option<bool>,
    refreshToken: Option<string>,
    storage: map<string, string>)

  /** The store as created, before it is hydrated: every prop at its default. */
  function Initial(storage: map<string, string>): (r: SessionState)
    ensures r.storage == storage && !TokenIsSet(r) && r.isAuthenticated.None? && r.refreshToken.None?
    ensures r.authToken.None? && r.phoneNumber == ""
    ensures ValidationError(r.phoneNumber) == "can't be blank"
  {
    SessionState("", None, None, None, storage)
  }

  /** The `isAuthenticated` view: `!!authToken`, JavaScript truthiness of an optional string. */
  predicate TokenIsSet(s: SessionState)
    ensures s.authToken.None? ==> !TokenIsSet(s)
    ensures s.authToken == Some("") ==> !TokenIsSet(s)
    ensures s.authToken.Some? && |s.authToken.value| > 0 ==> TokenIsSet(s)
  {
    s.authToken.Some? && s.authToken.value != ""
  }

  /** `SecureStore.getItemAsync(key)`: the stored item, or null. */
  function ReadItem(s: SessionState, key: string): (r: Option<string>)
    ensures r.Some? <==> key in s.storage
    ensures r.Some? ==> r.value == s.storage[key]
  {
    if key in s.storage then Some(s.storage[key]) else None
  }

  /** `setAuthToken(t)`. */
  function WithAuthToken(s: SessionState, t: string): (r: SessionState)
    ensures r.authToken == Some(t) && r.storage.Keys == s.storage.Keys + {AUTH_TOKEN_KEY}
    ensures r.storage[AUTH_TOKEN_KEY] == t
    ensures forall k :: k in s.storage && k != AUTH_TOKEN_KEY ==> r.storage[k] == s.storage[k]
    ensures r.(authToken := s.authToken, storage := s.storage) == s
  {
    s.(authToken := Some(t), storage := s.storage[AUTH_TOKEN_KEY := t])
  }

  /** `setRefreshToken(t)`. */
  function WithRefreshToken(s: SessionState, t: string): (r: SessionState)
    ensures r.refreshToken == Some(t) && r.storage.Keys == s.storage.Keys + {REFRESH_TOKEN_KEY}
    ensures r.storage[REFRESH_TOKEN_KEY] == t
    ensures forall k :: k in s.storage && k != REFRESH_TOKEN_KEY ==> r.storage[k] == s.storage[k]
    ensures r.(refreshToken := s.refreshToken, storage := s.storage) == s
  {
    s.(refreshToken := Some(t), storage := s.storage[REFRESH_TOKEN_KEY := t])
  }

  /** `setIsAuthenticated(b)`: the stored flag only. */
  function WithIsAuthenticated(s: SessionState, b: bool): (r: SessionState)
    ensures r.isAuthenticated == Some(b)
    ensures r.(isAuthenticated := s.isAuthenticated) == s
  {
    s.(isAuthenticated := Some(b))
  }

  /**
   * The `constructor` action (hydration). A stored auth token is loaded
   * with the stored refresh token (a missing one leaves the refresh token
   * null and its key absent) and the flag becomes true; otherwise both
   * tokens become "" in memory and in storage and the flag becomes false.
   */
  function Hydrated(s: SessionState): (r: SessionState)
    ensures r.phoneNumber == s.phoneNumber
    ensures AUTH_TOKEN_KEY in s.storage ==>
      && r.authToken == Some(s.storage[AUTH_TOKEN_KEY]) && r.isAuthenticated == Some(true)
      && r.refreshToken == ReadItem(s, REFRESH_TOKEN_KEY) && r.storage == s.storage
    ensures AUTH_TOKEN_KEY !in s.storage ==>
      && r.authToken == Some("") && r.refreshToken == Some("") && r.isAuthenticated == Some(false)
      && r.storage == s.storage[AUTH_TOKEN_KEY := ""][REFRESH_TOKEN_KEY := ""]
  {
    match ReadItem(s, AUTH_TOKEN_KEY)
    case Some(authtoken) =>
      var t := WithAuthToken(s, authtoken);
      var u := match ReadItem(s, REFRESH_TOKEN_KEY)
               case Some(refreshtoken) => WithRefreshToken(t, refreshtoken)
               case None => t.(refreshToken := None);
      WithIsAuthenticated(u, true)
    case None =>
      WithRefreshToken(WithAuthToken(WithIsAuthenticated(s, false), ""), "")
  }

  /**
   * What the `login` action settles to: it resolves with the API result, or
   * it rejects with a TypeError when an `ok` result has no
   * `data.tokens.access.token` to read.
   */
  datatype LoginOutcome = Resolved(result: ApiClient.ApiResult) | RejectedTypeError

  /** The state change of the `login` action on the API result `result`. */
  function LoggedIn(s: SessionState, result: ApiClient.ApiResult): (r: (LoginOutcome, SessionState))
    ensures !result.Ok? ==> r == (Resolved(result), s)
    ensures result.Ok? && (result.data.data.None? || result.data.data.value.tokens.None?) ==> r == (RejectedTypeError, s)
    ensures result.Ok? && result.data.data.Some? && result.data.data.value.tokens.Some? ==>
      var tokens := result.data.data.value.tokens.value;
      && r.0 == Resolved(result)
      && r.1.authToken == Some(tokens.access) && r.1.refreshToken == Some(tokens.refresh)
      && r.1.isAuthenticated == Some(true)
      && r.1.storage == s.storage[AUTH_TOKEN_KEY := tokens.access][REFRESH_TOKEN_KEY := tokens.refresh]
    ensures r.0.Resolved? ==> r.0.result == result
    ensures r.1.phoneNumber == s.phoneNumber
  {
    match result
    case Ok(response) =>
      (match response.data
       case Some(ResponseBody(_, Some(tokens))) =>
         var t := WithIsAuthenticated(WithRefreshToken(WithAuthToken(s, tokens.access), tokens.refresh), true);
         (Resolved(result), t)
       case _ => (RejectedTypeError, s))
    case _ => (Resolved(result), s)
  }

  /**
   * The `getAuthToken` action: an in-memory token other than "" is returned
   * as is; a "" token is reloaded from storage (null when the key is
   * absent) and the flag is set to `loaded !== ""`.
   */
  function AuthTokenFetched(s: SessionState): (r: (Option<string>, SessionState))
    ensures s.authToken != Some("") ==> r == (s.authToken, s)
    ensures s.authToken == Some("") ==>
      && r.0 == ReadItem(s, AUTH_TOKEN_KEY)
      && r.1 == s.(authToken := r.0, isAuthenticated := Some(r.0 != Some("")))
  {
    if s.authToken == Some("") then
      var loaded := ReadItem(s, AUTH_TOKEN_KEY);
      (loaded, s.(authToken := loaded, isAuthenticated := Some(loaded != Some(""))))
    else (s.authToken, s)
  }

  /** The `logout` action. */
  function LoggedOut(s: SessionState): (r: SessionState)
    ensures r.authToken == Some("") && r.refreshToken == Some("") && r.isAuthenticated == Some(false)
    ensures AUTH_TOKEN_KEY !in r.storage && REFRESH_TOKEN_KEY !in r.storage
    ensures forall k :: k != AUTH_TOKEN_KEY && k != REFRESH_TOKEN_KEY ==>
      (k in r.storage <==> k in s.storage) && (k in r.storage ==> r.storage[k] == s.storage[k])
    ensures r.phoneNumber == s.phoneNumber
  {
    s.(authToken := Some(""), refreshToken := Some(""), isAuthenticated := Some(false),
       storage := s.storage - {AUTH_TOKEN_KEY} - {REFRESH_TOKEN_KEY})
  }

  /**
   * The `validationError` view, on the store's `phoneNumber`: the first
   * failing check among blank, shorter than 6, and not an e-mail address.
   */
  function ValidationError(phoneNumber: string): (r: string)
    ensures r == "can't be blank" <==> phoneNumber == ""
    ensures r == "must be at least 6 characters" <==> 0 < |phoneNumber| < 6
    ensures r == "must be a valid email address" <==> 6 <= |phoneNumber| && !MatchesEmailPattern(phoneNumber)
    ensures r == "" <==> 6 <= |phoneNumber| && MatchesEmailPattern(phoneNumber)
  {
    if |phoneNumber| == 0 then "can't be blank"
    else if |phoneNumber| < 6 then "must be at least 6 characters"
    else if !MatchesEmailPattern(phoneNumber) then "must be a valid email address"
    else ""
  }

  /** `[^\s@]`. */
  predicate EmailChar(c: char) {
    !Js.IsWhiteSpace(c) && c != '@'
  }

  /** `[^\s@]*` over the whole of `s`. */
  predicate AllEmailChars(s: string) {
    forall k :: 0 <= k < |s| ==> EmailChar(s[k])
  }

  /**
   * `/^[^\s@]+@[^\s@]+\.[^\s@]+$/.test(s)`: some `@` at `i` and `.` at `j`
   * split `s` into three non-empty runs of `[^\s@]`.
   */
  predicate MatchesEmailPattern(s: string)
    ensures MatchesEmailPattern(s) ==> |s| >= 5 && '@' in s && '.' in s
  {
    exists i, j | 0 < i && i + 1 < j && j + 1 < |s| ::
      && s[i] == '@' && s[j] == '.'
      && AllEmailChars(s[..i]) && AllEmailChars(s[i + 1..j]) && AllEmailChars(s[j + 1..])
  }

  /**
   * The pattern, read directly: no white space anywhere, exactly one `@`,
   * not first, and a `.` at least one character after it and before the end.
   */
  lemma EmailPatternMeaning(s: string)
    ensures MatchesEmailPattern(s) <==> EmailShape(s)
  {
    if MatchesEmailPattern(s) { EmailPatternSound(s); }
    if EmailShape(s) { EmailPatternComplete(s); }
  }

  /** The right-hand side of `EmailPatternMeaning`. */
  predicate EmailShape(s: string) {
    && (forall k :: 0 <= k < |s| ==> !Js.IsWhiteSpace(s[k]))
    && (exists i :: 0 < i < |s| && s[i] == '@'
         && (forall k :: 0 <= k < |s| && k != i ==> s[k] != '@')
         && (exists j :: i + 1 < j < |s| - 1 && s[j] == '.'))
  }

  /** A match of the pattern has the plain shape. */
  lemma EmailPatternSound(s: string)
    requires MatchesEmailPattern(s)
    ensures EmailShape(s)
  {
    var i, j :| 0 < i && i + 1 < j && j + 1 < |s| && s[i] == '@' && s[j] == '.'
      && AllEmailChars(s[..i]) && AllEmailChars(s[i + 1..j]) && AllEmailChars(s[j + 1..]);
    forall k | 0 <= k < |s| && k != i ensures EmailChar(s[k]) {
      if k < i { assert s[..i][k] == s[k]; }
      else if k < j { assert s[i + 1..j][k - i - 1] == s[k]; }
      else if k > j { assert s[j + 1..][k - j - 1] == s[k]; }
    }
  }

  /** A string of the plain shape matches the pattern. */
  lemma EmailPatternComplete(s: string)
    requires EmailShape(s)
    ensures MatchesEmailPattern(s)
  {
    var i :| 0 < i < |s| && s[i] == '@'
          && (forall k :: 0 <= k < |s| && k != i ==> s[k] != '@')
          && (exists j :: i + 1 < j < |s| - 1 && s[j] == '.');
    var j :| i + 1 < j < |s| - 1 && s[j] == '.';
    var user, host, domain := s[..i], s[i + 1..j], s[j + 1..];
    forall k | 0 <= k < |user| ensures EmailChar(user[k]) { assert user[k] == s[k]; }
    forall k | 0 <= k < |host| ensures EmailChar(host[k]) { assert host[k] == s[i + 1 + k]; }
    forall k | 0 <= k < |domain| ensures EmailChar(domain[k]) { assert domain[k] == s[j + 1 + k]; }
  }

  /** A phone number made of digits fails the e-mail check: the view rejects every real phone number. */
  lemma DigitsNeverValid(phoneNumber: string)
    requires 6 <= |phoneNumber|
    requires forall k :: 0 <= k < |phoneNumber| ==> Js.IsAsciiDigit(phoneNumber[k])
    ensures ValidationError(phoneNumber) == "must be a valid email address"
  {
  }

  /** `AuthenticationStore`: the session fields and the secure storage, updated in place by the actions. */
  class AuthenticationStore {
    var phoneNumber: string
    var authToken: Option<string>
    var isAuthenticated: Option<bool>
    var refreshToken: Option<string>
    var storage: map<string, string>

    /** The store's fields as one value. */
    function State(): SessionState
      reads this
    {
      SessionState(phoneNumber, authToken, isAuthenticated, refreshToken, storage)
    }

    /** The `isAuthenticated` view, on the store's fields. */
    predicate IsAuthenticated()
      reads this
      ensures IsAuthenticated() <==> authToken.Some? && |authToken.value| > 0
    {
      TokenIsSet(State())
    }

    /** The `validationError` view. */
    function ValidationErrorView(): (r: string)
      reads this
      ensures r == ValidationError(phoneNumber)
      ensures r == "" <==> 6 <= |phoneNumber| && MatchesEmailPattern(phoneNumber)
      ensures r == "can't be blank" <==> phoneNumber == ""
    {
      ValidationError(phoneNumber)
    }

    /** A new store over the secure storage `persisted`. */
    constructor(persisted: map<string, string>)
      ensures State() == Initial(persisted)
    {
      phoneNumber := "";
      authToken := None;
      isAuthenticated := None;
      refreshToken := None;
      storage := persisted;
    }

    method SetAuthToken(t: string)
      modifies this
      ensures State() == WithAuthToken(old(State()), t)
    {
      authToken := Some(t);
      storage := storage[AUTH_TOKEN_KEY := t];
    }

    method SetRefreshToken(t: string)
      modifies this
      ensures State() == WithRefreshToken(old(State()), t)
    {
      refreshToken := Some(t);
      storage := storage[REFRESH_TOKEN_KEY := t];
    }

    method SetIsAuthenticated(b: bool)
      modifies this
      ensures State() == WithIsAuthenticated(old(State()), b)
    {
      isAuthenticated := Some(b);
    }

    /** The `constructor` action: hydrate from secure storage. */
    method Hydrate()
      modifies this
      ensures State() == Hydrated(old(State()))
    {
      var authtoken := if AUTH_TOKEN_KEY in storage then Some(storage[AUTH_TOKEN_KEY]) else None;
      var refreshtoken := if REFRESH_TOKEN_KEY in storage then Some(storage[REFRESH_TOKEN_KEY]) else None;
      if authtoken.Some? {
        SetAuthToken(authtoken.value);
        if refreshtoken.Some? {
          SetRefreshToken(refreshtoken.value);
        } else {
          refreshToken := None;
        }
        SetIsAuthenticated(true);
      } else {
        SetIsAuthenticated(false);
        SetAuthToken("");
        SetRefreshToken("");
      }
    }

    /** The `login` action, over the network `net` that `Api.login` talks to. */
    method Login(phoneNumber: string, password: string, net: Network) returns (outcome: LoginOutcome)
      modifies this
      ensures (outcome, State()) == LoggedIn(old(State()), ApiClient.Login(phoneNumber, password, net))
    {
      var result := ApiClient.Login(phoneNumber, password, net);
      if result.Ok? {
        if result.data.data.None? || result.data.data.value.tokens.None? {
          return RejectedTypeError;
        }
        var tokens := result.data.data.value.tokens.value;
        SetAuthToken(tokens.access);
        SetRefreshToken(tokens.refresh);
        SetIsAuthenticated(true);
        return Resolved(result);
      } else {
        return Resolved(result);
      }
    }

    method GetAuthToken() returns (token: Option<string>)
      modifies this
      ensures (token, State()) == AuthTokenFetched(old(State()))
    {
      token := authToken;
      if token == Some("") {
        token := if AUTH_TOKEN_KEY in storage then Some(storage[AUTH_TOKEN_KEY]) else None;
        authToken := token;
        isAuthenticated := Some(token != Some(""));
      }
    }

    method Logout()
      modifies this
      ensures State() == LoggedOut(old(State()))
    {
      authToken := Some("");
      refreshToken := Some("");
      isAuthenticated := Some(false);
      storage := storage - {AUTH_TOKEN_KEY};
      storage := storage - {REFRESH_TOKEN_KEY};
    }
  }

  // ---------------------------------------------------------------------
  // Properties of the store
  // ---------------------------------------------------------------------

  /** The store's actions, as callers can invoke them, in any order; `Login` carries the API result. */
  datatype Action =
    | SetAuthToken(token: string)
    | SetRefreshToken(token: string)
    | SetIsAuthenticated(flag: bool)
    | Hydrate
    | Login(result: ApiClient.ApiResult)
    | GetAuthToken
    | Logout

  /** The state after one action; no action touches `phoneNumber`. */
  function Apply(s: SessionState, a: Action): (r: SessionState)
    ensures r.phoneNumber == s.phoneNumber
  {
    match a
    case SetAuthToken(t) => WithAuthToken(s, t)
    case SetRefreshToken(t) => WithRefreshToken(s, t)
    case SetIsAuthenticated(b) => WithIsAuthenticated(s, b)
    case Hydrate => Hydrated(s)
    case Login(result) => LoggedIn(s, result).1
    case GetAuthToken => AuthTokenFetched(s).1
    case Logout => LoggedOut(s)
  }

  /** The state after a sequence of actions, first to last. */
  function Run(s: SessionState, actions: seq<Action>): SessionState
    decreases |actions|
  {
    if actions == [] then s else Run(Apply(s, actions[0]), actions[1..])
  }

  /** Any sequence of actions leaves `phoneNumber` as it was. */
  lemma {:induction false} RunKeepsPhoneNumber(s: SessionState, actions: seq<Action>)
    ensures Run(s, actions).phoneNumber == s.phoneNumber
    decreases |actions|
  {
    if actions != [] {
      RunKeepsPhoneNumber(Apply(s, actions[0]), actions[1..]);
    }
  }

  /** Logging out twice leaves the store as logging out once. */
  lemma LogoutIdempotent(s: SessionState)
    ensures LoggedOut(LoggedOut(s)) == LoggedOut(s)
  {
  }

  /** After logout the view agrees with the stored flag: not authenticated. */
  lemma LogoutUnauthenticates(s: SessionState)
    ensures !TokenIsSet(LoggedOut(s)) && LoggedOut(s).isAuthenticated == Some(TokenIsSet(LoggedOut(s)))
  {
  }

  /**
   * A login whose response is ok and carries tokens leaves the flag set,
   * both tokens in memory and in storage under their keys, and the view
   * true exactly when the access token is non-empty.
   */
  lemma LoginStoresTokens(s: SessionState, phoneNumber: string, password: string, net: Network,
                                             response: ApiResponse, tokens: Tokens)
    requires net(ApiClient.LoginRequest(phoneNumber, password)) == Responded(response)
    requires response.ok && response.data.Some? && response.data.value.tokens == Some(tokens)
    ensures var (outcome, t) := LoggedIn(s, ApiClient.Login(phoneNumber, password, net));
      && outcome == Resolved(ApiClient.Ok(response))
      && t.authToken == Some(tokens.access) && t.refreshToken == Some(tokens.refresh)
      && t.isAuthenticated == Some(true)
      && ReadItem(t, AUTH_TOKEN_KEY) == Some(tokens.access) && ReadItem(t, REFRESH_TOKEN_KEY) == Some(tokens.refresh)
      && t.storage.Keys == s.storage.Keys + {AUTH_TOKEN_KEY, REFRESH_TOKEN_KEY}
      && (forall k :: k in s.storage && k != AUTH_TOKEN_KEY && k != REFRESH_TOKEN_KEY ==> t.storage[k] == s.storage[k])
      && t.phoneNumber == s.phoneNumber
      && (TokenIsSet(t) <==> tokens.access != "")
  {
  }

  /** A login that does not come back ok changes nothing. */
  lemma LoginProblemChangesNothing(s: SessionState, phoneNumber: string, password: string, net: Network)
    requires !ApiClient.Login(phoneNumber, password, net).Ok?
    ensures LoggedIn(s, ApiClient.Login(phoneNumber, password, net)) == (Resolved(ApiClient.Login(phoneNumber, password, net)), s)
  {
  }

  /** A login the server cancels (non-ok, unclassified) comes back `ok` with no body, and the action rejects. */
  lemma CancelledLoginRejects(s: SessionState, phoneNumber: string, password: string, net: Network, status: Option<int>)
    requires net(ApiClient.LoginRequest(phoneNumber, password)) == Responded(ApiResponse(false, Some("CANCEL_ERROR"), status, None))
    ensures LoggedIn(s, ApiClient.Login(phoneNumber, password, net)) == (RejectedTypeError, s)
  {
  }

  /** Hydrating from a stored non-empty token authenticates the view as well as the flag. */
  lemma HydrateWithStoredToken(s: SessionState)
    requires AUTH_TOKEN_KEY in s.storage && s.storage[AUTH_TOKEN_KEY] != ""
    ensures TokenIsSet(Hydrated(s)) && Hydrated(s).isAuthenticated == Some(true)
  {
  }

  /**
   * Hydrating from storage with no token writes "" under the key; hydrating
   * again (the next start) reads that "" as a stored token and sets the flag
   * true while the view stays false.
   */
  lemma SecondHydrateSetsFlagWithoutToken(s: SessionState)
    requires AUTH_TOKEN_KEY !in s.storage
    ensures !Hydrated(s).isAuthenticated.value
    ensures Hydrated(Hydrated(s)).isAuthenticated == Some(true)
    ensures !TokenIsSet(Hydrated(Hydrated(s)))
  {
  }

  /**
   * `getAuthToken` on a "" token with nothing stored yields null and sets
   * the flag true (`null !== ""`), while the view says not authenticated.
   */
  lemma GetAuthTokenWithNothingStored(s: SessionState)
    requires s.authToken == Some("") && AUTH_TOKEN_KEY !in s.storage
    ensures AuthTokenFetched(s).0 == None
    ensures AuthTokenFetched(s).1.isAuthenticated == Some(true)
    ensures !TokenIsSet(AuthTokenFetched(s).1)
  {
  }

  /**
   * No action changes `phoneNumber`, so on a store created with its default
   * the view answers "can't be blank" after any sequence of actions.
   */
  lemma {:induction false} ValidationErrorOfFreshStore(persisted: map<string, string>, actions: seq<Action>)
    ensures ValidationError(Run(Initial(persisted), actions).phoneNumber) == "can't be blank"
  {
    RunKeepsPhoneNumber(Initial(persisted), actions);
  }

  /**
   * A store over empty storage, hydrated, then logged in against a server
   * that answers with tokens "abc"/"def", is authenticated with "abc" in
   * memory and in storage; logging out twice is logging out once.
   */
  method LoginScenario(net: Network)
    requires net(ApiClient.LoginRequest("60123456789", "Passw0rd"))
          == Responded(ApiResponse(true, None, Some(200), Some(ResponseBody(None, Some(Tokens("abc", "def"))))))
  {
    var store := new AuthenticationStore(map[]);
    store.Hydrate();
    assert !store.IsAuthenticated();
    var outcome := store.Login("60123456789", "Passw0rd", net);
    assert outcome.Resolved? && ApiClient.ResultKind(outcome.result) == "ok";
    assert store.authToken == Some("abc") && store.IsAuthenticated();
    assert store.storage[AUTH_TOKEN_KEY] == "abc" && store.storage[REFRESH_TOKEN_KEY] == "def";
    store.Logout();
    var once := store.State();
    store.Logout();
    assert store.State() == once && !store.IsAuthenticated();
  }
}
