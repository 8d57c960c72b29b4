/**
 * The session manager (src/contexts/AuthContext.tsx): the in-memory identity
 * and loading flag, the persisted `token` / `userInfo` pair, and the
 * start-up, login, register and logout transitions over them.
 *
 * Each transition is stated once as a function over `State` and once as a
 * method of `AuthProvider` that performs the source's steps in order; the
 * method is proved to reach the state the function describes, and the
 * properties of the transitions are lemmas about the functions.
 */
module Session {
  import opened Wrappers
  import opened Text
  import opened Storage
  import opened Entities
  import opened Gateway

  /** The claims the client reads from a token; every field but `user_id` may be missing. */
  datatype Claims = Claims(userId: int, exp: Option<int>, email: Option<string>, name: Option<string>)

  /**
   * What the session manager calls but does not define. `claims` decodes the
   * middle segment of a token (`JSON.parse(atob(token.split('.')[1]))`) and is
   * `None` wherever that throws; `readUser` is `JSON.parse` of the cached
   * identity, `None` where it throws; `writeUser` is `JSON.stringify`.
   */
  datatype Codec = Codec(
    claims: string -> Option<Claims>,
    readUser: string -> Option<User>,
    writeUser: User -> string)

  /** Serialising an identity gives a non-empty string that parses back to it. */
  ghost predicate CacheRoundTrips(codec: Codec) {
    forall u :: codec.writeUser(u) != "" && codec.readUser(codec.writeUser(u)) == Some(u)
  }

  /** Persisted storage, the in-memory identity and the loading flag. */
  datatype State = State(store: Store, user: Option<User>, loading: bool)

  /** The state a freshly loaded page starts from. */
  function Fresh(store: Store): State {
    State(store, None, true)
  }

  /** `payload.exp && payload.exp < currentTime`: a missing or zero expiry never expires. */
  predicate Expired(exp: Option<int>, now: int) {
    exp.Some? && exp.value != 0 && exp.value < now
  }

  // ---------------------------------------------------------------------------
  // Identities

  /** The identity start-up derives from claims: `name || email?.split('@')[0] || 'User'`. */
  function IdentityFromClaims(c: Claims): (u: User)
    ensures u.id == c.userId
    ensures u.email == OptOrElse(c.email, "")
    ensures u.name != ""
    ensures c.name.Some? && c.name.value != "" ==> u.name == c.name.value
    ensures (c.name.None? || c.name.value == "") && c.email.Some? && LocalPart(c.email.value) != "" ==>
              u.name == LocalPart(c.email.value)
    ensures (c.name.None? || c.name.value == "") && (c.email.None? || LocalPart(c.email.value) == "") ==>
              u.name == "User"
  {
    var fromEmail := if c.email.Some? then LocalPart(c.email.value) else "";
    User(c.userId, OptOrElse(c.name, OrElse(fromEmail, "User")), OptOrElse(c.email, ""))
  }

  /** The identity `login` builds: the e-mail is the argument, the name falls back to its local part. */
  function LoginIdentity(c: Claims, email: string): (u: User)
    ensures u.id == c.userId && u.email == email
    ensures c.name.Some? && c.name.value != "" ==> u.name == c.name.value
    ensures (c.name.None? || c.name.value == "") ==> u.name == LocalPart(email)
    ensures (c.name.None? || c.name.value == "") ==>
              |u.name| <= |email| && u.name == email[..|u.name|] && '@' !in u.name
  {
    User(c.userId, OptOrElse(c.name, LocalPart(email)), email)
  }

  /** The identity `register` builds: name and e-mail are the arguments, whatever the claims say. */
  function RegisterIdentity(c: Claims, name: string, email: string): (u: User)
    ensures u.id == c.userId && u.name == name && u.email == email
  {
    User(c.userId, name, email)
  }

  // ---------------------------------------------------------------------------
  // Transitions

  /** The start-up effect. It never fails: every decoding failure ends in a purge. */
  function Startup(s: State, codec: Codec, now: int): (r: State)
    ensures !r.loading
    ensures Get(r.store, TokenKey) == None || Get(r.store, TokenKey) == Get(s.store, TokenKey)
    ensures forall k :: k != TokenKey && k != UserInfoKey ==> Get(r.store, k) == Get(s.store, k)
    ensures r.user != s.user ==> r.user.None? || Truthy(Get(r.store, TokenKey))
    ensures r.user.None? ==> forall k :: k in r.store ==> k in s.store && r.store[k] == s.store[k]
  {
    var token := Get(s.store, TokenKey);
    var cached := Get(s.store, UserInfoKey);
    if !Truthy(token) then s.(loading := false)
    else if Truthy(cached) then
      match codec.readUser(cached.value)
      case Some(u) => State(s.store, Some(u), false)
      case None => State(s.store - {TokenKey, UserInfoKey}, None, false)
    else
      match codec.claims(token.value)
      case None => State(s.store - {TokenKey, UserInfoKey}, None, false)
      case Some(c) =>
        if Expired(c.exp, now) then State(s.store - {TokenKey}, None, false)
        else
          var u := IdentityFromClaims(c);
          State(s.store[UserInfoKey := codec.writeUser(u)], Some(u), false)
  }

  /** Loading a page: start-up from a fresh state over what storage holds. */
  function Reload(store: Store, codec: Codec, now: int): State {
    Startup(Fresh(store), codec, now)
  }

  /** The outcome of `login` or `register`: the new state, and whether the promise resolved. */
  datatype Step = Step(after: State, resolved: bool)

  /**
   * `login`/`register` once the network call has settled, with `build` making
   * the identity from the claims. A failed call changes nothing; a token whose
   * claims cannot be decoded is stored before the promise rejects.
   */
  function SignIn(s: State, reply: Reply<string>, codec: Codec, build: Claims -> User): (r: Step)
    ensures r.after.loading == s.loading
    ensures forall k :: k != TokenKey && k != UserInfoKey ==> Get(r.after.store, k) == Get(s.store, k)
    ensures reply.Failed? ==> r == Step(s, false)
    ensures reply.Ok? ==> Get(r.after.store, TokenKey) == Some(reply.data)
    ensures !r.resolved ==> r.after.user == s.user && Get(r.after.store, UserInfoKey) == Get(s.store, UserInfoKey)
    ensures r.resolved <==> reply.Ok? && codec.claims(reply.data).Some?
    ensures r.resolved ==> r.after.user == Some(build(codec.claims(reply.data).value))
    ensures r.resolved ==> Get(r.after.store, UserInfoKey) == Some(codec.writeUser(r.after.user.value))
  {
    match reply
    case Failed(_) => Step(s, false)
    case Ok(token) =>
      var stored := s.store[TokenKey := token];
      match codec.claims(token)
      case None => Step(s.(store := stored), false)
      case Some(c) =>
        var u := build(c);
        Step(State(stored[UserInfoKey := codec.writeUser(u)], Some(u), s.loading), true)
  }

  /** `login`: the identity keeps the typed e-mail and falls back to its local part for the name. */
  function LoginStep(s: State, email: string, reply: Reply<string>, codec: Codec): (r: Step)
    ensures r.resolved <==> reply.Ok? && codec.claims(reply.data).Some?
    ensures r.resolved ==>
              var c := codec.claims(reply.data).value;
              r.after.user == Some(User(c.userId, OptOrElse(c.name, LocalPart(email)), email))
  {
    SignIn(s, reply, codec, c => LoginIdentity(c, email))
  }

  /** `register`: the identity is the typed name and e-mail under the id the token carries. */
  function RegisterStep(s: State, name: string, email: string, reply: Reply<string>, codec: Codec): (r: Step)
    ensures r.resolved <==> reply.Ok? && codec.claims(reply.data).Some?
    ensures r.resolved ==> r.after.user == Some(User(codec.claims(reply.data).value.userId, name, email))
  {
    SignIn(s, reply, codec, c => RegisterIdentity(c, name, email))
  }

  /** `logout`: both keys removed, identity cleared, nothing else touched. */
  function LogoutStep(s: State): (r: State)
    ensures TokenKey !in r.store && UserInfoKey !in r.store && r.user.None?
    ensures forall k :: k != TokenKey && k != UserInfoKey ==> Get(r.store, k) == Get(s.store, k)
    ensures r.loading == s.loading
  {
    State(s.store - {TokenKey, UserInfoKey}, None, s.loading)
  }

  /** `useAuth`: the provided context, or the error thrown outside a provider. */
  datatype Guarded<T> = Provided(context: T) | Thrown(message: string)

  function UseAuth<T>(context: Option<T>): (r: Guarded<T>)
    ensures r.Provided? <==> context.Some?
    ensures r.Provided? ==> r.context == context.value
  {
    match context
    case Some(c) => Provided(c)
    case None => Thrown("useAuth must be used within an AuthProvider")
  }

  // ---------------------------------------------------------------------------
  // The provider

  class AuthProvider {
    const storage: LocalStorage
    const codec: Codec
    var user: Option<User>
    var loading: bool

    constructor (storage: LocalStorage, codec: Codec)
      ensures this.storage == storage && this.codec == codec
      ensures user.None? && loading
    {
      this.storage := storage;
      this.codec := codec;
      user := None;
      loading := true;
    }

    function Current(): State
      reads this, storage
    {
      State(storage.items, user, loading)
    }

    /** The start-up effect, with `now` standing for `Math.floor(Date.now() / 1000)`. */
    method Initialize(now: int)
      modifies this, storage
      ensures Current() == Startup(old(Current()), codec, now)
    {
      var token := storage.GetItem(TokenKey);
      var cached := storage.GetItem(UserInfoKey);
      if Truthy(token) {
        if Truthy(cached) {
          var parsed := codec.readUser(cached.value);
          if parsed.Some? {
            user := parsed;
          } else {
            storage.RemoveItem(TokenKey);
            storage.RemoveItem(UserInfoKey);
            user := None;
          }
        } else {
          var payload := codec.claims(token.value);
          if payload.None? {
            storage.RemoveItem(TokenKey);
            storage.RemoveItem(UserInfoKey);
            user := None;
          } else if Expired(payload.value.exp, now) {
            storage.RemoveItem(TokenKey);
            user := None;
          } else {
            var u := IdentityFromClaims(payload.value);
            storage.SetItem(UserInfoKey, codec.writeUser(u));
            user := Some(u);
          }
        }
      }
      loading := false;
    }

    /** `login(email, password)`; `reply` is what `authAPI.login` settles with. */
    method Login(email: string, password: string, reply: Reply<string>) returns (request: Request, resolved: bool)
      modifies this, storage
      ensures request == Route(Operation.Login(email, password))
      ensures Step(Current(), resolved) == LoginStep(old(Current()), email, reply, codec)
    {
      request := Route(Operation.Login(email, password));
      resolved := false;
      if reply.Ok? {
        var token := reply.data;
        storage.SetItem(TokenKey, token);
        var payload := codec.claims(token);
        if payload.Some? {
          var u := LoginIdentity(payload.value, email);
          storage.SetItem(UserInfoKey, codec.writeUser(u));
          user := Some(u);
          resolved := true;
        }
      }
    }

    /** `register(name, email, password)`; `reply` is what `authAPI.register` settles with. */
    method Register(name: string, email: string, password: string, reply: Reply<string>)
      returns (request: Request, resolved: bool)
      modifies this, storage
      ensures request == Route(Operation.Register(name, email, password))
      ensures Step(Current(), resolved) == RegisterStep(old(Current()), name, email, reply, codec)
    {
      request := Route(Operation.Register(name, email, password));
      resolved := false;
      if reply.Ok? {
        var token := reply.data;
        storage.SetItem(TokenKey, token);
        var payload := codec.claims(token);
        if payload.Some? {
          var u := RegisterIdentity(payload.value, name, email);
          storage.SetItem(UserInfoKey, codec.writeUser(u));
          user := Some(u);
          resolved := true;
        }
      }
    }

    method Logout()
      modifies this, storage
      ensures Current() == LogoutStep(old(Current()))
    {
      storage.RemoveItem(TokenKey);
      storage.RemoveItem(UserInfoKey);
      user := None;
    }
  }

  // ---------------------------------------------------------------------------
  // Start-up, case by case

  lemma StartupWithoutToken(s: State, codec: Codec, now: int)
    requires !Truthy(Get(s.store, TokenKey))
    ensures Startup(s, codec, now) == s.(loading := false)
  {
  }

  /** A readable cache is taken verbatim: the claims decoder and the clock play no part. */
  lemma StartupFromCache(s: State, codec: Codec, now: int, other: Codec, later: int)
    requires Truthy(Get(s.store, TokenKey)) && Truthy(Get(s.store, UserInfoKey))
    requires codec.readUser(s.store[UserInfoKey]).Some?
    requires forall text :: other.readUser(text) == codec.readUser(text)
    ensures Startup(s, codec, now) == State(s.store, codec.readUser(s.store[UserInfoKey]), false)
    ensures Startup(s, other, later) == Startup(s, codec, now)
  {
  }

  lemma StartupExpired(s: State, codec: Codec, now: int)
    requires Truthy(Get(s.store, TokenKey)) && !Truthy(Get(s.store, UserInfoKey))
    requires codec.claims(s.store[TokenKey]).Some?
    requires Expired(codec.claims(s.store[TokenKey]).value.exp, now)
    ensures Startup(s, codec, now) == State(s.store - {TokenKey}, None, false)
  {
  }

  /** An expiry equal to the current time, absent, or zero does not count as expired. */
  lemma NotExpired(now: int)
    ensures !Expired(Some(now), now) && !Expired(None, now) && !Expired(Some(0), now)
  {
  }

  lemma StartupDecodesClaims(s: State, codec: Codec, now: int)
    requires Truthy(Get(s.store, TokenKey)) && !Truthy(Get(s.store, UserInfoKey))
    requires codec.claims(s.store[TokenKey]).Some?
    requires !Expired(codec.claims(s.store[TokenKey]).value.exp, now)
    ensures var u := IdentityFromClaims(codec.claims(s.store[TokenKey]).value);
            Startup(s, codec, now) == State(s.store[UserInfoKey := codec.writeUser(u)], Some(u), false)
  {
  }

  /** Any decoding failure purges both keys and clears the identity. */
  lemma StartupPurgesOnFailure(s: State, codec: Codec, now: int)
    requires Truthy(Get(s.store, TokenKey))
    requires if Truthy(Get(s.store, UserInfoKey)) then codec.readUser(s.store[UserInfoKey]).None?
             else codec.claims(s.store[TokenKey]).None?
    ensures Startup(s, codec, now) == State(s.store - {TokenKey, UserInfoKey}, None, false)
  {
  }

  // ---------------------------------------------------------------------------
  // Transitions across reloads

  /**
   * Start-up is idempotent: a second start-up (at any later time) finds the
   * state the first one left, because a decoded identity is cached.
   */
  lemma StartupIdempotent(s: State, codec: Codec, now: int, later: int)
    requires CacheRoundTrips(codec)
    ensures Startup(Startup(s, codec, now), codec, later) == Startup(s, codec, now)
  {
  }

  /** After a successful login, a reload restores the same identity, however much later. */
  lemma LoginSurvivesReload(s: State, email: string, token: string, codec: Codec, now: int)
    requires CacheRoundTrips(codec)
    requires token != "" && codec.claims(token).Some?
    ensures var r := LoginStep(s, email, Ok(token), codec);
            r.resolved && Reload(r.after.store, codec, now) == r.after.(loading := false)
  {
  }

  /** After a successful registration, a reload restores the same identity, name included. */
  lemma RegisterSurvivesReload(s: State, name: string, email: string, token: string, codec: Codec, now: int)
    requires CacheRoundTrips(codec)
    requires token != "" && codec.claims(token).Some?
    ensures var r := RegisterStep(s, name, email, Ok(token), codec);
            r.resolved && r.after.user.value.name == name &&
            Reload(r.after.store, codec, now) == r.after.(loading := false)
  {
  }

  /** The example of a login whose claims carry only `user_id: 7`. */
  lemma LoginWithBareClaims(s: State, token: string, codec: Codec)
    requires codec.claims(token) == Some(Claims(7, None, None, None))
    ensures LoginStep(s, "a@b.com", Ok(token), codec).after.user == Some(User(7, "a", "a@b.com"))
  {
    assert LocalPart("a@b.com") == "a";
  }

  lemma LogoutIdempotent(s: State)
    ensures LogoutStep(LogoutStep(s)) == LogoutStep(s)
  {
  }

  lemma LogoutThenReload(s: State, codec: Codec, now: int)
    ensures Reload(LogoutStep(s).store, codec, now) == LogoutStep(s).(user := None, loading := false)
  {
  }

  /** The hard navigation after a 401 reloads the page, which then starts anonymous. */
  lemma UnauthorizedThenReload<T>(store: Store, reply: Reply<T>, codec: Codec, now: int)
    requires IsUnauthorized(reply)
    ensures Reload(AfterResponse(store, reply), codec, now) == State(AfterResponse(store, reply), None, false)
  {
  }

  /**
   * A rejected `login` or `register` whose reply is a 401 passes through the
   * response hook first: the token is gone before the handler sees the
   * failure, `userInfo` and the in-memory identity stay, and the promise
   * rejects.
   */
  lemma RejectedSignInUnderHook(s: State, reply: Reply<string>, codec: Codec, build: Claims -> User)
    requires IsUnauthorized(reply)
    ensures var hooked := s.(store := AfterResponse(s.store, reply));
            var r := SignIn(hooked, reply, codec, build);
            !r.resolved && TokenKey !in r.after.store && r.after.user == s.user &&
            Get(r.after.store, UserInfoKey) == Get(s.store, UserInfoKey)
  {
  }

  /**
   * A 401 removes `token` but keeps `userInfo`. If the next login gets a
   * token whose claims cannot be decoded, that token is stored anyway, and
   * the following reload restores the identity cached before the 401.
   */
  lemma StaleIdentityAfterUnauthorized<T>(
    store: Store, reply: Reply<T>, user: Option<User>, email: string, token: string,
    previous: User, codec: Codec, now: int)
    requires IsUnauthorized(reply)
    requires CacheRoundTrips(codec)
    requires Get(store, UserInfoKey) == Some(codec.writeUser(previous))
    requires token != "" && codec.claims(token).None?
    ensures var purged := State(AfterResponse(store, reply), user, false);
            var r := LoginStep(purged, email, Ok(token), codec);
            !r.resolved && Reload(r.after.store, codec, now).user == Some(previous)
  {
  }
}
