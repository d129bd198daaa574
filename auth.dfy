/**
 * The session store: the signed-in user and the bearer token in memory,
 * mirrored into the browser's durable key-value storage under the keys
 * "token" and "user". `window` says whether a browser window (and so the
 * storage) exists; without one only the in-memory copy changes.
 */
module Auth {
  import opened Wrappers
  import opened JsonValue

  const TokenKey: string := "token"
  const UserKey: string := "user"
  const AccessTokenField: string := "accessToken"

  /** In memory JNull stands for both `null` and `undefined`. */
  datatype Session = Session(user: Json, token: Json, storage: map<string, string>)

  /** A fresh store over whatever the storage already holds. */
  function Initial(storage: map<string, string>): Session {
    Session(JNull, JNull, storage)
  }

  /** `localStorage.getItem(key)`: null when the key is absent. */
  function GetItem(storage: map<string, string>, key: string): Option<string> {
    if key in storage then Some(storage[key]) else None
  }

  /** `data.accessToken`, None when the login record has no such property. */
  function AccessToken(data: map<string, Json>): Option<Json> {
    if AccessTokenField in data then Some(data[AccessTokenField]) else None
  }

  /** `const { accessToken, ...user } = data`: the record without its access token. */
  function UserOf(data: map<string, Json>): (u: Json)
    ensures u.JObj? && AccessTokenField !in u.fields
    ensures forall k :: k in data && k != AccessTokenField ==> k in u.fields && u.fields[k] == data[k]
    ensures forall k :: k in u.fields ==> k in data
  {
    JObj(data - {AccessTokenField})
  }

  /** login(data): split off the token, persist both halves (when there is a window), keep both in memory. */
  function LoggedIn(s: Session, data: map<string, Json>, window: bool, codec: Codec): Session {
    var user := UserOf(data);
    var storage :=
      if window then s.storage[TokenKey := StorageText(AccessToken(data))][UserKey := codec.stringify(user)]
      else s.storage;
    Session(user, AccessToken(data).GetOr(JNull), storage)
  }

  /** logout(): drop both persisted keys (when there is a window) and both in-memory values. */
  function LoggedOut(s: Session, window: bool): Session {
    Session(JNull, JNull, if window then s.storage - {TokenKey, UserKey} else s.storage)
  }

  /** Both keys hold non-empty text, which is what `if (token && userStr)` tests. */
  predicate BothStored(storage: map<string, string>) {
    && TokenKey in storage && storage[TokenKey] != ""
    && UserKey in storage && storage[UserKey] != ""
  }

  /**
   * hydrate(): with a window and both keys non-empty, adopt the parsed user and
   * the stored token, or, when the user text does not parse, remove both keys
   * and leave memory as it was. Otherwise nothing happens.
   */
  function Hydrated(s: Session, window: bool, codec: Codec): Session {
    if window && BothStored(s.storage) then
      match codec.parse(s.storage[UserKey])
      case Some(u) => s.(user := u, token := JStr(s.storage[TokenKey]))
      case None => s.(storage := s.storage - {TokenKey, UserKey})
    else s
  }

  /**
   * The route guard's decision: redirect to the login screen when neither the
   * in-memory token nor the stored token is truthy.
   */
  predicate RedirectsToLogin(s: Session, window: bool) {
    var stored := if window then GetItem(s.storage, TokenKey) else None;
    !Truthy(s.token) && !(stored.Some? && stored.value != "")
  }

  class AuthStore {
    const window: bool
    const codec: Codec
    var user: Json
    var token: Json
    var storage: map<string, string>

    function State(): Session
      reads this
    {
      Session(user, token, storage)
    }

    constructor (window: bool, codec: Codec, storage: map<string, string>)
      ensures this.window == window && this.codec == codec
      ensures State() == Initial(storage)
    {
      this.window, this.codec := window, codec;
      user, token, this.storage := JNull, JNull, storage;
    }

    method Login(data: map<string, Json>)
      modifies this
      ensures State() == LoggedIn(old(State()), data, window, codec)
    {
      var accessToken := AccessToken(data);
      var rest := UserOf(data);
      if window {
        storage := storage[TokenKey := StorageText(accessToken)];
        storage := storage[UserKey := codec.stringify(rest)];
      }
      user, token := rest, accessToken.GetOr(JNull);
    }

    method Logout()
      modifies this
      ensures State() == LoggedOut(old(State()), window)
    {
      if window {
        storage := storage - {TokenKey};
        storage := storage - {UserKey};
      }
      user, token := JNull, JNull;
    }

    method Hydrate()
      modifies this
      ensures State() == Hydrated(old(State()), window, codec)
    {
      if window {
        var storedToken := GetItem(storage, TokenKey);
        var userStr := GetItem(storage, UserKey);
        if storedToken.Some? && storedToken.value != "" && userStr.Some? && userStr.value != "" {
          var parsed := codec.parse(userStr.value);
          if parsed.Some? {
            user, token := parsed.value, JStr(storedToken.value);
          } else {
            storage := storage - {TokenKey};
            storage := storage - {UserKey};
          }
        }
      }
    }
  }

  // ---------------------------------------------------------------------------
  // login and logout

  /**
   * After login the memory holds the access token and the record without it;
   * the storage holds the token's text under "token" and the serialised user
   * under "user", and every other key keeps its value.
   */
  lemma LoginEffect(s: Session, data: map<string, Json>, codec: Codec, t: string)
    requires AccessToken(data) == Some(JStr(t))
    ensures var p := LoggedIn(s, data, true, codec);
      && p.token == JStr(t)
      && p.user == JObj(data - {"accessToken"})
      && p.storage[TokenKey] == t
      && p.storage[UserKey] == codec.stringify(p.user)
      && p.storage - {TokenKey, UserKey} == s.storage - {TokenKey, UserKey}
  {
  }

  /** A login record without an access token leaves no token in memory and the text "undefined" in storage. */
  lemma LoginWithoutToken(s: Session, data: map<string, Json>, codec: Codec)
    requires AccessTokenField !in data
    ensures LoggedIn(s, data, true, codec).token == JNull
    ensures LoggedIn(s, data, true, codec).storage[TokenKey] == "undefined"
  {
  }

  /** logout leaves neither key in storage and nothing in memory; every other key keeps its value. */
  lemma LogoutEffect(s: Session)
    ensures var p := LoggedOut(s, true);
      && TokenKey !in p.storage && UserKey !in p.storage
      && p.user == JNull && p.token == JNull
      && p.storage == s.storage - {TokenKey, UserKey}
  {
  }

  /** Logging out twice is logging out once. */
  lemma LogoutIdempotent(s: Session, window: bool)
    ensures LoggedOut(LoggedOut(s, window), window) == LoggedOut(s, window)
  {
  }

  /** Without a window, login and logout change memory only, and hydrate does nothing. */
  lemma NoWindowTouchesNoStorage(s: Session, data: map<string, Json>, codec: Codec)
    ensures LoggedIn(s, data, false, codec).storage == s.storage
    ensures LoggedIn(s, data, false, codec).user == UserOf(data)
    ensures LoggedOut(s, false) == Session(JNull, JNull, s.storage)
    ensures Hydrated(s, false, codec) == s
  {
  }

  // ---------------------------------------------------------------------------
  // hydrate

  /** Both keys present and the user parses: memory takes (parsed user, stored token), storage is unchanged. */
  lemma HydrateRestores(s: Session, codec: Codec, u: Json)
    requires BothStored(s.storage)
    requires codec.parse(s.storage[UserKey]) == Some(u)
    ensures Hydrated(s, true, codec) == Session(u, JStr(s.storage[TokenKey]), s.storage)
  {
  }

  /** Both keys present but the user does not parse: both keys go, every other key stays, memory stays as it was. */
  lemma HydrateDropsCorrupt(s: Session, codec: Codec)
    requires BothStored(s.storage)
    requires codec.parse(s.storage[UserKey]) == None
    ensures var p := Hydrated(s, true, codec);
      && TokenKey !in p.storage && UserKey !in p.storage
      && p.storage == s.storage - {TokenKey, UserKey}
      && p.user == s.user && p.token == s.token
  {
  }

  /**
   * Either key missing or empty: nothing changes, not memory and not storage.
   * In particular a half-present pair is left in place.
   */
  lemma HydrateIncompleteIsNoop(s: Session, window: bool, codec: Codec)
    requires !BothStored(s.storage)
    ensures Hydrated(s, window, codec) == s
  {
  }

  /** Hydrating again with the storage it left gives the same state. */
  lemma HydrateIdempotent(s: Session, window: bool, codec: Codec)
    ensures Hydrated(Hydrated(s, window, codec), window, codec) == Hydrated(s, window, codec)
  {
    if window && BothStored(s.storage) && codec.parse(s.storage[UserKey]).None? {
      assert !BothStored(Hydrated(s, window, codec).storage);
    }
  }

  /**
   * login followed by hydrate in a fresh store over the same storage restores
   * the same user and token, provided the codec round-trips and the access
   * token is a non-empty string.
   */
  lemma LoginThenHydrate(s: Session, data: map<string, Json>, codec: Codec, t: string)
    requires Lawful(codec)
    requires AccessToken(data) == Some(JStr(t)) && t != ""
    ensures var p := LoggedIn(s, data, true, codec);
      Hydrated(Initial(p.storage), true, codec) == p
  {
    var p := LoggedIn(s, data, true, codec);
    StringifyNonEmpty(codec, p.user);
    assert codec.parse(codec.stringify(p.user)) == Some(p.user);
    assert BothStored(p.storage);
  }

  /**
   * A stored user text that parses to JSON null is adopted as it is: memory
   * then holds a token with no user.
   */
  lemma HydrateNullUser(s: Session, codec: Codec, t: string)
    requires Lawful(codec) && t != ""
    requires s.storage == map[TokenKey := t, UserKey := codec.stringify(JNull)]
    ensures var p := Hydrated(s, true, codec);
      p.user == JNull && p.token == JStr(t) && Truthy(p.token)
  {
    StringifyNonEmpty(codec, JNull);
    assert codec.parse(codec.stringify(JNull)) == Some(JNull);
  }

  /** The route guard lets a signed-in session through and redirects after logout. */
  lemma GuardAfterLoginAndLogout(s: Session, data: map<string, Json>, window: bool, codec: Codec, t: string)
    requires AccessToken(data) == Some(JStr(t)) && t != ""
    ensures !RedirectsToLogin(LoggedIn(s, data, window, codec), window)
    ensures RedirectsToLogin(LoggedOut(s, window), window)
  {
  }

  // ---------------------------------------------------------------------------
  // Runs of session operations

  datatype SessionEvent = LoginEvent(data: map<string, Json>) | LogoutEvent | HydrateEvent

  function Apply(s: Session, e: SessionEvent, window: bool, codec: Codec): Session {
    match e
    case LoginEvent(d) => LoggedIn(s, d, window, codec)
    case LogoutEvent => LoggedOut(s, window)
    case HydrateEvent => Hydrated(s, window, codec)
  }

  function Run(s: Session, es: seq<SessionEvent>, window: bool, codec: Codec): Session
    decreases |es|
  {
    if es == [] then s else Run(Apply(s, es[0], window, codec), es[1..], window, codec)
  }

  /** The two keys are stored together or not at all. */
  predicate Paired(storage: map<string, string>) {
    (TokenKey in storage) == (UserKey in storage)
  }

  /** Every operation keeps the two keys paired: storage never holds one without the other. */
  lemma {:induction false} RunKeepsKeysPaired(s: Session, es: seq<SessionEvent>, window: bool, codec: Codec)
    requires Paired(s.storage)
    ensures Paired(Run(s, es, window, codec).storage)
    decreases |es|
  {
    if es != [] {
      RunKeepsKeysPaired(Apply(s, es[0], window, codec), es[1..], window, codec);
    }
  }
}
