/**
 * The top-level application controller: session bootstrap on mount, the login/fetch
 * procedure, dashboard population and logout. The browser's `localStorage` is the map
 * `store`; every storage call, notice, URL strip, fetch and view change is also appended
 * to the ghost `log`, and the store is always the replay of the log's writes over the
 * store the page was loaded with.
 */
module Session {
  import opened Wrappers
  import opened Strings
  import opened Shapes
  import opened Backend
  import opened CachePolicy
  import opened ViewModel

  datatype View = Landing | Analyzing | Dashboard

  /** The query parameters bootstrap reads; `None` where `URLSearchParams.get` gives `null`. */
  datatype UrlParams = UrlParams(
    userId: Option<string>,
    token: Option<string>,
    name: Option<string>,
    picture: Option<string>,
    error: Option<string>,
    message: Option<string>)

  /** An observable effect of the controller. */
  datatype Effect =
    | SetItem(key: string, value: string)
    | RemoveItem(key: string)
    | Alert(message: string)
    | StripUrl
    | FetchApps(userId: string, token: Option<string>)
    | ShowView(view: View)

  const UserIdKey := "auth_userId"
  const TokenKey := "auth_token"
  const NameKey := "auth_userName"
  const PictureKey := "auth_userPicture"

  function CacheKey(userId: string): string {
    "cached_data_" + userId
  }

  const LinkedAccountLogin := "linked_account_login"
  const LinkedAccountNotice := "This account is linked to another user. Please login with your primary account instead."

  /** `decodeURIComponent`, taken as the identity. */
  function DecodeUriComponent(s: string): string {
    s
  }

  /** `localStorage.getItem(key)`. */
  function Get(store: map<string, string>, key: string): Option<string> {
    if key in store then Some(store[key]) else None
  }

  function Apply(store: map<string, string>, e: Effect): map<string, string> {
    match e
    case SetItem(k, v) => store[k := v]
    case RemoveItem(k) => store - {k}
    case _ => store
  }

  /** The store after the storage calls of `log`, in order. */
  function Replay(store: map<string, string>, log: seq<Effect>): map<string, string> {
    if log == [] then store else Apply(Replay(store, log[..|log| - 1]), log[|log| - 1])
  }

  predicate IsStorageWrite(e: Effect) {
    e.SetItem? || e.RemoveItem?
  }

  function FetchCount(log: seq<Effect>): nat {
    if log == [] then 0 else FetchCount(log[..|log| - 1]) + (if log[|log| - 1].FetchApps? then 1 else 0)
  }

  /** `urlUserId || localStorage.getItem('auth_userId')`. */
  function EffectiveUserId(url: UrlParams, store: map<string, string>): Option<string> {
    Or(url.userId, Get(store, UserIdKey))
  }

  /** `urlToken || localStorage.getItem('auth_token')`, chosen independently of the user id. */
  function EffectiveToken(url: UrlParams, store: map<string, string>): Option<string> {
    Or(url.token, Get(store, TokenKey))
  }

  /** A URL parameter passed through `decodeURIComponent`. */
  function DecodeParam(v: Option<string>): Option<string> {
    if v.Some? then Some(DecodeUriComponent(v.value)) else None
  }

  /** Writes `v` under `key` when `v` is truthy. */
  function WriteIfPresent(key: string, v: Option<string>): seq<Effect> {
    if Truthy(v) then [SetItem(key, v.value)] else []
  }

  /** The storage writes and URL strip made when the URL carries a user id. */
  function UrlWrites(url: UrlParams): seq<Effect> {
    if !Truthy(url.userId) then []
    else
      [SetItem(UserIdKey, url.userId.value)]
      + WriteIfPresent(TokenKey, url.token)
      + WriteIfPresent(NameKey, DecodeParam(url.name))
      + WriteIfPresent(PictureKey, DecodeParam(url.picture))
      + [StripUrl]
  }

  /** What the cache holds for a user: nothing, a trusted payload, or an entry to discard. */
  datatype CacheCheck = NoEntry | Restored(payload: Payload) | Discarded

  function CheckCache(store: map<string, string>, userId: string, parse: string -> Option<Payload>): CacheCheck {
    var raw := Get(store, CacheKey(userId));
    if !Truthy(raw) then NoEntry
    else match parse(raw.value)
      case None => Discarded
      case Some(p) => if IsInvalidCache(p) then Discarded else Restored(p)
  }

  /** How `loginWithUserId` treats what `getUserApps` returned. */
  datatype LoginKind = Fresh | Degraded | Failed

  function Classify(data: Option<Payload>): LoginKind {
    if data.Some? && !data.value.hasError && !data.value.isFallback then Fresh
    else if data.Some? && data.value.isFallback then Degraded
    else Failed
  }

  /** `data.user`, or the user rebuilt from the stored name and picture. */
  function DashboardUser(data: Payload, store: map<string, string>): UserInfo {
    if data.user.Some? then data.user.value
    else UserInfo(None, Some(OrElse(Get(store, NameKey), DefaultUserName)), Some("user@example.com"),
                  Some(OrElse(Get(store, PictureKey), "https://i.pravatar.cc/150")))
  }

  /** The keys `handleLogout` removes, in order. */
  function LogoutRemovals(store: map<string, string>): seq<Effect> {
    var uid := Get(store, UserIdKey);
    (if Truthy(uid) then [RemoveItem(CacheKey(uid.value))] else [])
    + [RemoveItem(TokenKey), RemoveItem(UserIdKey), RemoveItem(NameKey), RemoveItem(PictureKey)]
  }

  lemma ReplayAppend(store: map<string, string>, a: seq<Effect>, b: seq<Effect>)
    ensures Replay(store, a + b) == Replay(Replay(store, a), b)
    decreases |b|
  {
    if b == [] {
      assert a + b == a;
    } else {
      assert (a + b)[..|a + b| - 1] == a + b[..|b| - 1];
      assert (a + b)[|a + b| - 1] == b[|b| - 1];
      ReplayAppend(store, a, b[..|b| - 1]);
    }
  }

  lemma FetchCountAppend(a: seq<Effect>, b: seq<Effect>)
    ensures FetchCount(a + b) == FetchCount(a) + FetchCount(b)
    decreases |b|
  {
    if b == [] {
      assert a + b == a;
    } else {
      assert (a + b)[..|a + b| - 1] == a + b[..|b| - 1];
      assert (a + b)[|a + b| - 1] == b[|b| - 1];
      FetchCountAppend(a, b[..|b| - 1]);
    }
  }

  lemma ReplayOne(store: map<string, string>, e: Effect)
    ensures Replay(store, [e]) == Apply(store, e)
  {
    assert [e][..0] == [];
  }

  lemma ReplayWriteIfPresent(store: map<string, string>, key: string, v: Option<string>)
    ensures Replay(store, WriteIfPresent(key, v)) == if Truthy(v) then store[key := v.value] else store
  {
    if Truthy(v) {
      ReplayOne(store, SetItem(key, v.value));
    }
  }

  /** The store after the URL's parameters are persisted, written out as map updates. */
  function UrlStore(store: map<string, string>, url: UrlParams): map<string, string> {
    if !Truthy(url.userId) then store
    else
      var s1 := store[UserIdKey := url.userId.value];
      var s2 := if Truthy(url.token) then s1[TokenKey := url.token.value] else s1;
      var s3 := if Truthy(url.name) then s2[NameKey := url.name.value] else s2;
      if Truthy(url.picture) then s3[PictureKey := url.picture.value] else s3
  }

  lemma {:induction false} ReplayUrlWrites(store: map<string, string>, url: UrlParams)
    ensures Replay(store, UrlWrites(url)) == UrlStore(store, url)
  {
    if Truthy(url.userId) {
      var id := [SetItem(UserIdKey, url.userId.value)];
      var t, n, p := WriteIfPresent(TokenKey, url.token), WriteIfPresent(NameKey, DecodeParam(url.name)), WriteIfPresent(PictureKey, DecodeParam(url.picture));
      ReplayAppend(store, id + t + n + p, [StripUrl]);
      ReplayAppend(store, id + t + n, p);
      ReplayAppend(store, id + t, n);
      ReplayAppend(store, id, t);
      ReplayOne(store, id[0]);
      var s1 := Replay(store, id);
      ReplayWriteIfPresent(s1, TokenKey, url.token);
      var s2 := Replay(s1, t);
      ReplayWriteIfPresent(s2, NameKey, DecodeParam(url.name));
      var s3 := Replay(s2, n);
      ReplayWriteIfPresent(s3, PictureKey, DecodeParam(url.picture));
      ReplayOne(Replay(s3, p), StripUrl);
    }
  }

  /**
   * Persisting the URL's parameters: `auth_userId` takes the URL's user id, and the token,
   * name and picture are written only when the URL carries them; nothing else changes,
   * and without a URL user id nothing is written at all.
   */
  lemma UrlWritesEffect(store: map<string, string>, url: UrlParams)
    ensures var r := Replay(store, UrlWrites(url));
      && (!Truthy(url.userId) ==> r == store)
      && (Truthy(url.userId) ==>
           && Get(r, UserIdKey) == url.userId
           && Get(r, TokenKey) == (if Truthy(url.token) then url.token else Get(store, TokenKey))
           && Get(r, NameKey) == (if Truthy(url.name) then url.name else Get(store, NameKey))
           && Get(r, PictureKey) == (if Truthy(url.picture) then url.picture else Get(store, PictureKey)))
      && (forall k :: k != UserIdKey && k != TokenKey && k != NameKey && k != PictureKey ==> Get(r, k) == Get(store, k))
  {
    ReplayUrlWrites(store, url);
  }

  /** The user id bootstrap restores or fetches for is the one `auth_userId` holds afterwards. */
  lemma EffectiveUserIdPersisted(store: map<string, string>, url: UrlParams)
    requires Truthy(EffectiveUserId(url, store))
    ensures Get(Replay(store, UrlWrites(url)), UserIdKey) == EffectiveUserId(url, store)
  {
    UrlWritesEffect(store, url);
  }

  /**
   * The URL wins over storage, and the user id and the token are chosen independently: a URL
   * user id without a URL token goes with the stored token, and a URL token without a URL
   * user id goes with the stored user id.
   */
  lemma EffectiveSessionChoice(url: UrlParams, store: map<string, string>)
    ensures EffectiveUserId(url, store) == (if Truthy(url.userId) then url.userId else Get(store, UserIdKey))
    ensures EffectiveToken(url, store) == (if Truthy(url.token) then url.token else Get(store, TokenKey))
    ensures Truthy(url.userId) && !Truthy(url.token) ==>
      EffectiveUserId(url, store) == url.userId && EffectiveToken(url, store) == Get(store, TokenKey)
    ensures !Truthy(url.userId) && Truthy(url.token) ==>
      EffectiveUserId(url, store) == Get(store, UserIdKey) && EffectiveToken(url, store) == url.token
  {
  }

  /**
   * The token bootstrap fetches with is the one `auth_token` holds afterwards, except when the
   * URL carries a token but no user id: that token is used once and never stored.
   */
  lemma EffectiveTokenPersisted(store: map<string, string>, url: UrlParams)
    ensures Truthy(url.userId) || !Truthy(url.token) ==>
      Get(Replay(store, UrlWrites(url)), TokenKey) == EffectiveToken(url, store)
    ensures !Truthy(url.userId) && Truthy(url.token) ==>
      Replay(store, UrlWrites(url)) == store && EffectiveToken(url, store) == url.token
  {
    UrlWritesEffect(store, url);
  }

  /**
   * A fresh login caches the normalised payload under `cached_data_{userId}`. When the JSON
   * encoding round-trips and the payload has an app, the next bootstrap does not restore that
   * entry: the generated icons make it invalid.
   */
  lemma CachedNormalisedNeverRestored(store: map<string, string>, userId: string, body: RawBody,
                                      parse: string -> Option<Payload>, stringify: Payload -> string)
    requires body.data.Some? && |body.data.value| > 0
    requires parse(stringify(Normalised(body))) == Some(Normalised(body))
    ensures !CheckCache(store[CacheKey(userId) := stringify(Normalised(body))], userId, parse).Restored?
  {
    NormalisedWithAppsNeverValid(body);
  }

  /**
   * Logging out leaves no session key and, when a user id was stored, no cache entry of that
   * user; every other key keeps its value.
   */
  lemma {:induction false} LogoutClearsSession(store: map<string, string>)
    ensures var r := Replay(store, LogoutRemovals(store));
      var uid := Get(store, UserIdKey);
      var gone := {TokenKey, UserIdKey, NameKey, PictureKey} + (if Truthy(uid) then {CacheKey(uid.value)} else {});
      && (forall k :: k in gone ==> k !in r)
      && (forall k :: k !in gone ==> Get(r, k) == Get(store, k))
  {
    var uid := Get(store, UserIdKey);
    var c: seq<Effect> := if Truthy(uid) then [RemoveItem(CacheKey(uid.value))] else [];
    var r1, r2, r3, r4 := [RemoveItem(TokenKey)], [RemoveItem(UserIdKey)], [RemoveItem(NameKey)], [RemoveItem(PictureKey)];
    assert LogoutRemovals(store) == c + r1 + r2 + r3 + r4;
    ReplayAppend(store, c + r1 + r2 + r3, r4);
    ReplayAppend(store, c + r1 + r2, r3);
    ReplayAppend(store, c + r1, r2);
    ReplayAppend(store, c, r1);
    if Truthy(uid) {
      ReplayOne(store, c[0]);
    }
    var s0 := Replay(store, c);
    ReplayOne(s0, r1[0]);
    ReplayOne(Replay(s0, r1), r2[0]);
    ReplayOne(Replay(Replay(s0, r1), r2), r3[0]);
    ReplayOne(Replay(Replay(Replay(s0, r1), r2), r3), r4[0]);
  }

  lemma FetchCountOne(e: Effect)
    ensures FetchCount([e]) == if e.FetchApps? then 1 else 0
  {
    assert [e][..0] == [];
  }

  lemma {:induction false} NoFetches(s: seq<Effect>)
    requires forall i | 0 <= i < |s| :: !s[i].FetchApps?
    ensures FetchCount(s) == 0
  {
    if s != [] {
      NoFetches(s[..|s| - 1]);
    }
  }

  /** A login appends exactly one fetch to the log, whatever the response. */
  lemma LoginFetchesOnce(log0: seq<Effect>, userId: string, token: Option<string>, tail: seq<Effect>)
    requires forall i | 0 <= i < |tail| :: !tail[i].FetchApps?
    ensures FetchCount(log0 + [ShowView(Analyzing), FetchApps(userId, token)] + tail) == FetchCount(log0) + 1
  {
    var start: seq<Effect> := [ShowView(Analyzing), FetchApps(userId, token)];
    FetchCountAppend(log0 + start, tail);
    FetchCountAppend(log0, start);
    FetchCountAppend([ShowView(Analyzing)], [FetchApps(userId, token)]);
    assert start == [ShowView(Analyzing)] + [FetchApps(userId, token)];
    FetchCountOne(ShowView(Analyzing));
    FetchCountOne(FetchApps(userId, token));
    NoFetches(tail);
  }

  class App {
    var store: map<string, string>
    var view: View
    var user: Option<UserInfo>
    var spending: Option<SpendingData>
    var isAuthLoading: bool
    /** `dataFetchRef.current`: set once bootstrap has started. */
    var dataFetched: bool
    /** `JSON.parse` of a cache entry; `None` where it throws or yields no object. */
    const parse: string -> Option<Payload>
    /** `JSON.stringify` of a payload. */
    const stringify: Payload -> string
    ghost const initialStore: map<string, string>
    ghost var log: seq<Effect>

    ghost predicate Valid()
      reads this
    {
      store == Replay(initialStore, log)
    }

    constructor (store0: map<string, string>, parse: string -> Option<Payload>, stringify: Payload -> string)
      ensures Valid()
      ensures store == store0 && initialStore == store0 && log == []
      ensures view == Landing && user == None && spending == None && !isAuthLoading && !dataFetched
      ensures this.parse == parse && this.stringify == stringify
    {
      store := store0;
      initialStore := store0;
      log := [];
      view := Landing;
      user := None;
      spending := None;
      isAuthLoading := false;
      dataFetched := false;
      this.parse := parse;
      this.stringify := stringify;
    }

    /** `localStorage.setItem(key, value)`. */
    method StoreSet(key: string, value: string)
      requires Valid()
      modifies this`store, this`log
      ensures Valid()
      ensures store == old(store)[key := value] && log == old(log) + [SetItem(key, value)]
    {
      store := store[key := value];
      log := log + [SetItem(key, value)];
      assert (log)[..|log| - 1] == old(log);
    }

    /** `localStorage.removeItem(key)`. */
    method StoreRemove(key: string)
      requires Valid()
      modifies this`store, this`log
      ensures Valid()
      ensures store == old(store) - {key} && log == old(log) + [RemoveItem(key)]
    {
      store := store - {key};
      log := log + [RemoveItem(key)];
      assert (log)[..|log| - 1] == old(log);
    }

    /** An effect that does not touch the store. */
    method Emit(e: Effect)
      requires Valid() && !IsStorageWrite(e)
      modifies this`log
      ensures Valid() && log == old(log) + [e]
    {
      log := log + [e];
      assert (log)[..|log| - 1] == old(log);
    }

    method SetView(v: View)
      requires Valid()
      modifies this`view, this`log
      ensures Valid() && view == v && log == old(log) + [ShowView(v)]
    {
      view := v;
      Emit(ShowView(v));
    }

    /** `populateDashboard`. */
    method PopulateDashboard(data: Payload)
      requires Valid()
      modifies this`user, this`spending, this`view, this`log
      ensures Valid()
      ensures user == Some(DashboardUser(data, store))
      ensures spending == Some(SpendingShape(data))
      ensures view == Dashboard && log == old(log) + [ShowView(Dashboard)]
    {
      user := Some(DashboardUser(data, store));
      var shape := SpendingData(0, [], []);
      if data.apps.Some? {
        shape := SpendingData(if data.totalSpend.Some? then data.totalSpend.value else DefaultMonthlySpend,
                              if data.categories.Some? then data.categories.value else [],
                              data.apps.value);
      }
      spending := Some(shape);
      SetView(Dashboard);
    }

    /**
     * The state after `loginWithUserId(userId, token)` received `data` from `getUserApps`,
     * started from a store `store0`, a log `log0` and a shown user and spending `user0`, `spending0`.
     */
    ghost predicate LoggedIn(store0: map<string, string>, log0: seq<Effect>, user0: Option<UserInfo>,
                             spending0: Option<SpendingData>, userId: string, token: Option<string>, data: Option<Payload>)
      reads this`store, this`log, this`view, this`user, this`spending, this`isAuthLoading
    {
      !isAuthLoading && LoginDone(store0, log0 + [ShowView(Analyzing), FetchApps(userId, token)], user0, spending0, userId, data)
    }

    /** The branches of `loginWithUserId` after the fetch, from the log `started` that records it. */
    ghost predicate LoginDone(store0: map<string, string>, started: seq<Effect>, user0: Option<UserInfo>,
                              spending0: Option<SpendingData>, userId: string, data: Option<Payload>)
      reads this`store, this`log, this`view, this`user, this`spending
    {
      var kind := Classify(data);
      && (kind == Fresh ==>
           && store == store0[CacheKey(userId) := stringify(data.value)]
           && log == started + [SetItem(CacheKey(userId), stringify(data.value)), ShowView(Dashboard)]
           && view == Dashboard && user == Some(DashboardUser(data.value, store)) && spending == Some(SpendingShape(data.value)))
      && (kind == Degraded ==>
           && store == store0
           && log == started + [ShowView(Dashboard)]
           && view == Dashboard && user == Some(DashboardUser(data.value, store)) && spending == Some(SpendingShape(data.value)))
      && (kind == Failed ==>
           && store == store0
           && log == started + [ShowView(Landing)]
           && view == Landing && user == user0 && spending == spending0)
    }

    /** The branches of `loginWithUserId` after `getUserApps` returned `data`. */
    method ReceiveApps(userId: string, data: Option<Payload>)
      requires Valid()
      modifies this`store, this`log, this`view, this`user, this`spending
      ensures Valid()
      ensures LoginDone(old(store), old(log), old(user), old(spending), userId, data)
    {
      if data.Some? && !data.value.hasError && !data.value.isFallback {
        StoreSet(CacheKey(userId), stringify(data.value));
        PopulateDashboard(data.value);
      } else if data.Some? && data.value.isFallback {
        PopulateDashboard(data.value);
      } else {
        SetView(Landing);
      }
    }

    /** The start of `loginWithUserId`: the loading flag, the analyzing view, the request. */
    method StartLogin(userId: string, token: Option<string>)
      requires Valid()
      modifies this`log, this`view, this`isAuthLoading
      ensures Valid() && isAuthLoading && view == Analyzing
      ensures log == old(log) + [ShowView(Analyzing), FetchApps(userId, token)]
    {
      isAuthLoading := true;
      SetView(Analyzing);
      Emit(FetchApps(userId, token));
    }

    /** `loginWithUserId`; `outcome` is how the request to the backend ends. */
    method LoginWithUserId(userId: string, token: Option<string>, outcome: HttpOutcome)
      requires Valid()
      modifies this`store, this`log, this`view, this`user, this`spending, this`isAuthLoading
      ensures Valid()
      ensures LoggedIn(old(store), old(log), old(user), old(spending), userId, token, UserAppsResult(userId, outcome))
    {
      StartLogin(userId, token);
      var data := GetUserApps(userId, token, outcome);
      ghost var started := log;
      ReceiveApps(userId, data);
      assert LoginDone(old(store), started, old(user), old(spending), userId, data);
      isAuthLoading := false;
    }

    /**
     * The state after the cache step of `checkSession` for `userId`, started from `store0`,
     * `log0`, `user0`, `spending0` and `loading0`: a trusted entry is restored without a fetch,
     * an untrusted one is removed, and both a removal and a missing entry lead to a login.
     */
    ghost predicate Resumed(store0: map<string, string>, log0: seq<Effect>, user0: Option<UserInfo>,
                            spending0: Option<SpendingData>, loading0: bool,
                            userId: string, token: Option<string>, outcome: HttpOutcome)
      reads this`store, this`log, this`view, this`user, this`spending, this`isAuthLoading
    {
      var check := CheckCache(store0, userId, parse);
      && (check.Restored? ==>
           && store == store0 && log == log0 + [ShowView(Dashboard)]
           && view == Dashboard && user == Some(DashboardUser(check.payload, store))
           && spending == Some(SpendingShape(check.payload)) && isAuthLoading == loading0)
      && (check.NoEntry? ==>
           LoggedIn(store0, log0, user0, spending0, userId, token, UserAppsResult(userId, outcome)))
      && (check.Discarded? ==>
           LoggedIn(store0 - {CacheKey(userId)}, log0 + [RemoveItem(CacheKey(userId))],
                    user0, spending0, userId, token, UserAppsResult(userId, outcome)))
    }

    /** Every outcome of a login leaves exactly one more fetch in the log. */
    lemma LoggedInFetches(store0: map<string, string>, log0: seq<Effect>, user0: Option<UserInfo>,
                          spending0: Option<SpendingData>, userId: string, token: Option<string>, data: Option<Payload>)
      requires LoggedIn(store0, log0, user0, spending0, userId, token, data)
      ensures FetchCount(log) == FetchCount(log0) + 1
    {
      var kind := Classify(data);
      if kind == Fresh {
        LoginFetchesOnce(log0, userId, token, [SetItem(CacheKey(userId), stringify(data.value)), ShowView(Dashboard)]);
      } else if kind == Degraded {
        LoginFetchesOnce(log0, userId, token, [ShowView(Dashboard)]);
      } else {
        LoginFetchesOnce(log0, userId, token, [ShowView(Landing)]);
      }
    }

    /** A trusted cache entry is restored with no fetch; every other path makes exactly one fetch. */
    lemma ResumedFetches(store0: map<string, string>, log0: seq<Effect>, user0: Option<UserInfo>,
                         spending0: Option<SpendingData>, loading0: bool,
                         userId: string, token: Option<string>, outcome: HttpOutcome)
      requires Resumed(store0, log0, user0, spending0, loading0, userId, token, outcome)
      ensures CheckCache(store0, userId, parse).Restored? ==> FetchCount(log) == FetchCount(log0)
      ensures !CheckCache(store0, userId, parse).Restored? ==> FetchCount(log) == FetchCount(log0) + 1
    {
      var check := CheckCache(store0, userId, parse);
      var data := UserAppsResult(userId, outcome);
      if check.Restored? {
        FetchCountAppend(log0, [ShowView(Dashboard)]);
        FetchCountOne(ShowView(Dashboard));
      } else if check.NoEntry? {
        LoggedInFetches(store0, log0, user0, spending0, userId, token, data);
      } else {
        var removed := log0 + [RemoveItem(CacheKey(userId))];
        LoggedInFetches(store0 - {CacheKey(userId)}, removed, user0, spending0, userId, token, data);
        FetchCountAppend(log0, [RemoveItem(CacheKey(userId))]);
        FetchCountOne(RemoveItem(CacheKey(userId)));
      }
    }

    /** The state after `checkSession` with URL parameters `url`, from the state in `old`. */
    twostate predicate Bootstrapped(url: UrlParams, outcome: HttpOutcome)
      reads this`store, this`log, this`view, this`user, this`spending, this`isAuthLoading
    {
      var uid := EffectiveUserId(url, old(store));
      var unchangedView := view == old(view) && user == old(user) && spending == old(spending)
                           && isAuthLoading == old(isAuthLoading);
      if url.error == Some(LinkedAccountLogin) then
        && store == old(store) && unchangedView
        && log == old(log) + [Alert(OrElse(url.message, LinkedAccountNotice)), StripUrl]
      else if !Truthy(uid) then
        store == old(store) && unchangedView && log == old(log)
      else
        Resumed(Replay(old(store), UrlWrites(url)), old(log) + UrlWrites(url), old(user), old(spending),
                old(isAuthLoading), uid.value, EffectiveToken(url, old(store)), outcome)
    }

    /** `if (v) localStorage.setItem(key, v)`. */
    method WriteParam(key: string, v: Option<string>)
      requires Valid()
      modifies this`store, this`log
      ensures Valid()
      ensures log == old(log) + WriteIfPresent(key, v)
    {
      if Truthy(v) {
        StoreSet(key, v.value);
      }
    }

    /** Step 0 of `checkSession`: persist the URL's session parameters and strip the URL. */
    method ApplyUrlParams(url: UrlParams)
      requires Valid()
      modifies this`store, this`log
      ensures Valid()
      ensures log == old(log) + UrlWrites(url) && store == Replay(old(store), UrlWrites(url))
    {
      if Truthy(url.userId) {
        StoreSet(UserIdKey, url.userId.value);
        WriteParam(TokenKey, url.token);
        WriteParam(NameKey, DecodeParam(url.name));
        WriteParam(PictureKey, DecodeParam(url.picture));
        Emit(StripUrl);
        assert log == old(log) + [SetItem(UserIdKey, url.userId.value)] + WriteIfPresent(TokenKey, url.token)
                      + WriteIfPresent(NameKey, DecodeParam(url.name)) + WriteIfPresent(PictureKey, DecodeParam(url.picture))
                      + [StripUrl];
      }
      assert log == old(log) + UrlWrites(url);
      ReplayAppend(initialStore, old(log), UrlWrites(url));
    }

    /** Steps 1 and 2 of `checkSession`: restore from a trusted cache entry, or fetch. */
    method RestoreOrLogin(userId: string, token: Option<string>, outcome: HttpOutcome)
      requires Valid()
      modifies this`store, this`log, this`view, this`user, this`spending, this`isAuthLoading
      ensures Valid()
      ensures Resumed(old(store), old(log), old(user), old(spending), old(isAuthLoading), userId, token, outcome)
    {
      var key := CacheKey(userId);
      var cached := Get(store, key);
      if Truthy(cached) {
        var parsed := parse(cached.value);
        if parsed.Some? && !IsInvalidCache(parsed.value) {
          PopulateDashboard(parsed.value);
          return;
        }
        StoreRemove(key);
      }
      LoginWithUserId(userId, token, outcome);
    }

    /** `checkSession`. */
    method CheckSession(url: UrlParams, outcome: HttpOutcome)
      requires Valid()
      modifies this`store, this`log, this`view, this`user, this`spending, this`isAuthLoading
      ensures Valid()
      ensures Bootstrapped(url, outcome)
    {
      if url.error == Some(LinkedAccountLogin) {
        Emit(Alert(OrElse(url.message, LinkedAccountNotice)));
        Emit(StripUrl);
        return;
      }
      var uid := Or(url.userId, Get(store, UserIdKey));
      var token := Or(url.token, Get(store, TokenKey));
      if !Truthy(uid) {
        return;
      }
      ApplyUrlParams(url);
      RestoreOrLogin(uid.value, token, outcome);
    }

    /** The mount effect: bootstrap runs at most once, guarded by `dataFetched`. */
    method Mount(url: UrlParams, outcome: HttpOutcome)
      requires Valid()
      modifies this
      ensures Valid() && dataFetched
      ensures old(dataFetched) ==> unchanged(this)
      ensures !old(dataFetched) ==> Bootstrapped(url, outcome)
    {
      if dataFetched {
        return;
      }
      dataFetched := true;
      CheckSession(url, outcome);
    }

    /** The storage half of `handleLogout`: the current user's cache entry, then the four session keys. */
    method ClearSession()
      requires Valid()
      modifies this`store, this`log
      ensures Valid()
      ensures log == old(log) + LogoutRemovals(old(store))
      ensures store == Replay(old(store), LogoutRemovals(old(store)))
    {
      ghost var store0, log0 := store, log;
      var uid := Get(store, UserIdKey);
      if Truthy(uid) {
        StoreRemove(CacheKey(uid.value));
      }
      StoreRemove(TokenKey);
      StoreRemove(UserIdKey);
      StoreRemove(NameKey);
      StoreRemove(PictureKey);
      assert log == log0 + LogoutRemovals(store0);
      ReplayAppend(initialStore, log0, LogoutRemovals(store0));
    }

    /** `handleLogout`. */
    method HandleLogout()
      requires Valid()
      modifies this`store, this`log, this`view, this`user, this`spending
      ensures Valid()
      ensures log == old(log) + LogoutRemovals(old(store)) + [StripUrl, ShowView(Landing)]
      ensures store == Replay(old(store), LogoutRemovals(old(store)))
      ensures view == Landing && user == None && spending == None
    {
      ClearSession();
      user := None;
      spending := None;
      Emit(StripUrl);
      SetView(Landing);
    }
  }
}
