/**
 * The authentication composable: two module-level values (`isAuthenticated` and
 * `user`) mirrored into the browser store under fixed keys, and the operations that
 * set, clear, restore and check them. `router.push` appends a path to a log; the
 * outcome of an awaited API call is an input.
 */
module Auth {
  import opened Wrappers
  import Api
  import opened Storage

  const IsAuthenticatedKey := "is_authenticated"
  const UserNameKey := "user_name"
  const UserEmailKey := "user_email"
  const PictureKey := "picture"
  const LunchNumberKey := "lunchNumber"

  /** The keys `setAuth` writes. */
  const WrittenKeys: set<string> := {IsAuthenticatedKey, UserNameKey, UserEmailKey, PictureKey}
  /** The keys `clearAuth` removes. */
  const ClearedKeys: set<string> := {IsAuthenticatedKey, UserNameKey, UserEmailKey, PictureKey, LunchNumberKey}

  /** Where `logout` and `requireAuth` send the browser. */
  const HomePath := "/"

  /** A user record; a property the caller's object lacks is `None`. */
  datatype User = User(name: Option<string>, email: Option<string>, picture: Option<string>)

  /** `{ name: '', email: '', picture: '' }`. */
  const EmptyUser := User(Some(""), Some(""), Some(""))

  /** The record with every missing property replaced by `''`. */
  function WithDefaults(u: User): (d: User)
    ensures d.name == Some(Api.OrEmpty(u.name))
    ensures d.email == Some(Api.OrEmpty(u.email))
    ensures d.picture == Some(Api.OrEmpty(u.picture))
  {
    User(Some(Api.OrEmpty(u.name)), Some(Api.OrEmpty(u.email)), Some(Api.OrEmpty(u.picture)))
  }

  /** The user record `initAuthState` rebuilds from the store. */
  function StoredUser(store: Store): (u: User)
    ensures u == WithDefaults(User(GetItem(store, UserNameKey), GetItem(store, UserEmailKey), GetItem(store, PictureKey)))
  {
    User(Some(Api.OrEmpty(GetItem(store, UserNameKey))),
         Some(Api.OrEmpty(GetItem(store, UserEmailKey))),
         Some(Api.OrEmpty(GetItem(store, PictureKey))))
  }

  /** The store after `setAuth(u)`: the four written keys are set and no other key changes. */
  function SetAuthStore(store: Store, u: User): (r: Store)
    ensures r.Keys == store.Keys + WrittenKeys
    ensures r[IsAuthenticatedKey] == "true"
    ensures r[UserNameKey] == Api.OrEmpty(u.name)
    ensures r[UserEmailKey] == Api.OrEmpty(u.email)
    ensures r[PictureKey] == Api.OrEmpty(u.picture)
    ensures forall k :: k in store && k !in WrittenKeys ==> r[k] == store[k]
  {
    store[IsAuthenticatedKey := "true"][UserNameKey := Api.OrEmpty(u.name)]
         [UserEmailKey := Api.OrEmpty(u.email)][PictureKey := Api.OrEmpty(u.picture)]
  }

  /** The store after `clearAuth()`: exactly the five cleared keys are gone, the rest is as it was. */
  function ClearAuthStore(store: Store): (r: Store)
    ensures forall k :: k in r <==> k in store && k !in ClearedKeys
    ensures forall k :: k in r ==> r[k] == store[k]
  {
    store - ClearedKeys
  }

  /** Everything the composable reads or changes: its two values, the store, and the navigation log. */
  datatype Session = Session(isAuthenticated: bool, user: User, store: Store, pushed: seq<string>)

  /** The operations of the composable, with the outcome of the API call each one awaits. */
  datatype Op =
    | Init                              // initAuthState()
    | Set(userData: User)               // setAuth(userData)
    | Clear                             // clearAuth()
    | Check(userInfo: Api.Outcome)      // checkAuth(), given how api.getUserInfo() settled
    | LogOut(reply: Api.Outcome)        // logout(), given how api.logout() settled
    | Require                           // requireAuth()

  /** The state `clearAuth()` leaves. */
  function Cleared(s: Session): (r: Session)
    ensures !r.isAuthenticated && r.user == EmptyUser && r.pushed == s.pushed
    ensures forall k :: k in r.store <==> k in s.store && k !in ClearedKeys
    ensures forall k :: k in r.store ==> r.store[k] == s.store[k]
  {
    Session(false, EmptyUser, ClearAuthStore(s.store), s.pushed)
  }

  /** The effect of one operation on the session. */
  function Step(s: Session, op: Op): (r: Session)
    ensures r.pushed == s.pushed + (if op.LogOut? || (op.Require? && !s.isAuthenticated) then [HomePath] else [])
    ensures forall k :: k !in ClearedKeys ==> (k in r.store <==> k in s.store)
    ensures forall k :: k !in ClearedKeys && k in s.store ==> r.store[k] == s.store[k]
    ensures op.Set? ==> r.isAuthenticated && r.user == op.userData
    ensures op.Clear? || op.LogOut? || (op.Check? && op.userInfo.Failure?) ==> r == Cleared(s).(pushed := r.pushed)
    ensures op.Require? || (op.Check? && op.userInfo.Success?) ==> r.(pushed := s.pushed) == s
    ensures op.Init? ==> r.store == s.store && (r.isAuthenticated <==> HasItem(s.store, IsAuthenticatedKey))
  {
    match op
    case Init =>
      if HasItem(s.store, IsAuthenticatedKey) then s.(isAuthenticated := true, user := StoredUser(s.store))
      else s.(isAuthenticated := false)
    case Set(u) => Session(true, u, SetAuthStore(s.store, u), s.pushed)
    case Clear => Cleared(s)
    case Check(reply) => if reply.Success? then s else Cleared(s)
    case LogOut(_) => Cleared(s).(pushed := s.pushed + [HomePath])
    case Require => if s.isAuthenticated then s else s.(pushed := s.pushed + [HomePath])
  }

  /** The value an operation resolves to: `checkAuth` and `requireAuth` answer a boolean. */
  function Answer(s: Session, op: Op): (b: bool)
    ensures op.Check? ==> (b <==> op.userInfo.Success?)
    ensures op.Require? ==> (b <==> s.isAuthenticated)
  {
    match op
    case Check(reply) => reply.Success?
    case Require => s.isAuthenticated
    case _ => false
  }

  function Run(s: Session, ops: seq<Op>): Session
    decreases |ops|
  {
    if ops == [] then s else Run(Step(s, ops[0]), ops[1..])
  }

  /** The state at module load: both values at their initial values, then `initAuthState()`. */
  function Loaded(store: Store): (r: Session)
    ensures r.store == store && r.pushed == []
    ensures r.isAuthenticated <==> HasItem(store, IsAuthenticatedKey)
    ensures r.isAuthenticated ==> r.user == StoredUser(store)
    ensures !r.isAuthenticated ==> r.user == EmptyUser
  {
    Step(Session(false, EmptyUser, store, []), Init)
  }

  // ---------------------------------------------------------------------------
  // Properties of single operations

  /** `initAuthState` authenticates exactly when the flag is stored and non-empty, and only then rewrites `user`. */
  lemma InitAuthStateEffect(s: Session)
    ensures var r := Step(s, Init);
      && (r.isAuthenticated <==> IsAuthenticatedKey in s.store && s.store[IsAuthenticatedKey] != "")
      && (r.isAuthenticated ==> r.user == StoredUser(s.store))
      && (!r.isAuthenticated ==> r.user == s.user)
      && r.store == s.store && r.pushed == s.pushed
  {
  }

  /** `setAuth` keeps the caller's record as given; only the stored copies get `''` for missing fields. */
  lemma SetAuthEffect(s: Session, u: User)
    ensures var r := Step(s, Set(u));
      && r.isAuthenticated && r.user == u
      && GetItem(r.store, IsAuthenticatedKey) == Some("true")
      && StoredUser(r.store) == WithDefaults(u)
      && r.pushed == s.pushed
  {
  }

  /** `clearAuth` resets both values and is idempotent. */
  lemma ClearAuthIdempotent(s: Session)
    ensures Step(s, Clear).isAuthenticated == false && Step(s, Clear).user == EmptyUser
    ensures Step(Step(s, Clear), Clear) == Step(s, Clear)
  {
  }

  /** `checkAuth`: true and nothing changes when the user-info call succeeds; otherwise clear and false. */
  lemma CheckAuthEffect(s: Session, reply: Api.Outcome)
    ensures Answer(s, Check(reply)) <==> reply.Success?
    ensures reply.Success? ==> Step(s, Check(reply)) == s
    ensures reply.Failure? ==> Step(s, Check(reply)) == Step(s, Clear)
  {
  }

  /** `logout` ends cleared with one navigation home, whether or not the call failed. */
  lemma LogoutEffect(s: Session, reply: Api.Outcome)
    ensures Step(s, LogOut(reply)) == Step(s, Clear).(pushed := s.pushed + [HomePath])
    ensures forall other: Api.Outcome :: Step(s, LogOut(other)) == Step(s, LogOut(reply))
  {
  }

  /** `requireAuth` answers `isAuthenticated` and navigates home exactly when that is false. */
  lemma RequireAuthEffect(s: Session)
    ensures Answer(s, Require) == s.isAuthenticated
    ensures Step(s, Require).pushed == if s.isAuthenticated then s.pushed else s.pushed + [HomePath]
    ensures Step(s, Require).(pushed := s.pushed) == s
  {
  }

  /** Round trip: what `setAuth` stores, a fresh module load restores, with `''` defaults applied. */
  lemma ReloadAfterSetAuth(s: Session, u: User)
    ensures var r := Loaded(Step(s, Set(u)).store);
      r.isAuthenticated && r.user == WithDefaults(u)
  {
  }

  /** After `clearAuth` a fresh module load starts signed out with the empty user. */
  lemma ReloadAfterClearAuth(s: Session)
    ensures Loaded(Step(s, Clear).store).isAuthenticated == false
    ensures Loaded(Step(s, Clear).store).user == EmptyUser
  {
  }

  // ---------------------------------------------------------------------------
  // Properties of every sequence of operations

  /** The in-memory values agree with the store: what a reload would restore. */
  predicate Consistent(s: Session) {
    && (s.isAuthenticated <==> HasItem(s.store, IsAuthenticatedKey))
    && (s.isAuthenticated ==> WithDefaults(s.user) == StoredUser(s.store))
    && (!s.isAuthenticated ==> s.user == EmptyUser)
  }

  lemma LoadedConsistent(store: Store)
    ensures Consistent(Loaded(store))
  {
  }

  lemma StepConsistent(s: Session, op: Op)
    requires Consistent(s)
    ensures Consistent(Step(s, op))
  {
  }

  lemma {:induction false} RunConsistent(s: Session, ops: seq<Op>)
    requires Consistent(s)
    ensures Consistent(Run(s, ops))
    decreases |ops|
  {
    if ops != [] {
      StepConsistent(s, ops[0]);
      RunConsistent(Step(s, ops[0]), ops[1..]);
    }
  }

  /**
   * Whatever operations ran since the module loaded, reloading the page restores the
   * same `isAuthenticated`, and the same user up to `''` defaults.
   */
  lemma ReloadRestores(store: Store, ops: seq<Op>)
    ensures var s := Run(Loaded(store), ops);
      && Loaded(s.store).isAuthenticated == s.isAuthenticated
      && Loaded(s.store).user == (if s.isAuthenticated then WithDefaults(s.user) else EmptyUser)
  {
    LoadedConsistent(store);
    RunConsistent(Loaded(store), ops);
  }

  /** A key outside the cleared set keeps its stored value (or its absence) through any operations. */
  lemma {:induction false} RunKeepsOtherKeys(s: Session, ops: seq<Op>, key: string)
    requires key !in ClearedKeys
    ensures key in Run(s, ops).store <==> key in s.store
    ensures key in s.store ==> Run(s, ops).store[key] == s.store[key]
    decreases |ops|
  {
    if ops != [] {
      RunKeepsOtherKeys(Step(s, ops[0]), ops[1..], key);
    }
  }

  /** The composable only ever appends navigations, and only to `/`. */
  lemma {:induction false} RunPushesOnlyHome(s: Session, ops: seq<Op>)
    ensures |Run(s, ops).pushed| >= |s.pushed|
    ensures Run(s, ops).pushed[..|s.pushed|] == s.pushed
    ensures forall i :: |s.pushed| <= i < |Run(s, ops).pushed| ==> Run(s, ops).pushed[i] == HomePath
    decreases |ops|
  {
    if ops != [] {
      var t := Step(s, ops[0]);
      assert |t.pushed| >= |s.pushed| && t.pushed[..|s.pushed|] == s.pushed;
      assert forall i :: |s.pushed| <= i < |t.pushed| ==> t.pushed[i] == HomePath;
      RunPushesOnlyHome(t, ops[1..]);
      var r := Run(s, ops).pushed;
      assert r[..|t.pushed|] == t.pushed;
      assert r[..|s.pushed|] == r[..|t.pushed|][..|s.pushed|];
    }
  }

  // ---------------------------------------------------------------------------
  // The composable's state as an object

  class AuthModule {
    var isAuthenticated: bool
    var user: User
    var store: Store
    var pushed: seq<string>

    function State(): Session
      reads this
    {
      Session(isAuthenticated, user, store, pushed)
    }

    /** Module load: the refs start signed out and empty, then `initAuthState()` runs. */
    constructor (browserStore: Store)
      ensures State() == Loaded(browserStore)
      ensures Consistent(State())
    {
      isAuthenticated := false;
      user := EmptyUser;
      store := browserStore;
      pushed := [];
      new;
      InitAuthState();
      LoadedConsistent(browserStore);
    }

    method InitAuthState()
      modifies this
      ensures State() == Step(old(State()), Init)
    {
      var authFlag := GetItem(store, IsAuthenticatedKey);
      isAuthenticated := authFlag.Some? && authFlag.value != "";
      if authFlag.Some? && authFlag.value != "" {
        user := User(Some(Api.OrEmpty(GetItem(store, UserNameKey))),
                     Some(Api.OrEmpty(GetItem(store, UserEmailKey))),
                     Some(Api.OrEmpty(GetItem(store, PictureKey))));
      }
    }

    method SetAuth(userData: User)
      modifies this
      ensures State() == Step(old(State()), Set(userData))
    {
      isAuthenticated := true;
      user := userData;
      store := store[IsAuthenticatedKey := "true"];
      store := store[UserNameKey := Api.OrEmpty(userData.name)];
      store := store[UserEmailKey := Api.OrEmpty(userData.email)];
      store := store[PictureKey := Api.OrEmpty(userData.picture)];
    }

    method ClearAuth()
      modifies this
      ensures State() == Step(old(State()), Clear)
    {
      isAuthenticated := false;
      user := EmptyUser;
      store := store - {IsAuthenticatedKey};
      store := store - {UserNameKey};
      store := store - {UserEmailKey};
      store := store - {PictureKey};
      store := store - {LunchNumberKey};
    }

    /** `checkAuth()`, given how the awaited `api.getUserInfo()` settled. */
    method CheckAuth(userInfo: Api.Outcome) returns (authenticated: bool)
      modifies this
      ensures authenticated == Answer(old(State()), Check(userInfo))
      ensures State() == Step(old(State()), Check(userInfo))
    {
      if userInfo.Failure? {
        ClearAuth();
        return false;
      }
      return true;
    }

    /** `logout()`, given how the awaited `api.logout()` settled: clear and go home either way. */
    method Logout(reply: Api.Outcome)
      modifies this
      ensures State() == Step(old(State()), LogOut(reply))
    {
      ClearAuth();
      pushed := pushed + [HomePath];
    }

    method RequireAuth() returns (ok: bool)
      modifies this
      ensures ok == Answer(old(State()), Require)
      ensures State() == Step(old(State()), Require)
    {
      if !isAuthenticated {
        pushed := pushed + [HomePath];
        return false;
      }
      return true;
    }
  }
}
