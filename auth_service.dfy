/**
 * `authService` of services/authService.ts: sign-in and sign-up through the `api` pipeline
 * followed by four AsyncStorage writes, logout (a remote call whose failure is swallowed,
 * then removal of the session keys), the current-user query and the token read.
 *
 * `SignIn`, `SignUp`, `SignOut` and `ReadAccessToken` are the specification over a `World`;
 * `AuthClient` is the imperative service, each method proved to produce what its
 * specification function computes.
 */
module AuthService {
  import opened Wrappers
  import opened Http
  import opened Storage
  import opened Text
  import opened Api

  datatype LoginCredentials = LoginCredentials(email: string, password: string)

  datatype RegisterCredentials = RegisterCredentials(name: string, email: string, phone: string, password: string)

  /** A settled service call that hands back the response envelope. */
  datatype AuthRun = AuthRun(world: World, result: Result<Envelope, Error>)

  function SignInRequest(c: LoginCredentials): Request {
    Request(ApiInstance, Post, "/auth/sign-in", DefaultHeaders, SignInBody(c.email, c.password), false)
  }

  function SignUpRequest(c: RegisterCredentials): Request {
    Request(ApiInstance, Post, "/auth/signup", DefaultHeaders, SignUpBody(c.name, c.email, c.phone, c.password), false)
  }

  const LogoutRequest := Request(ApiInstance, Post, "/auth/logout", DefaultHeaders, NoBody, false)

  const CurrentUserRequest := Request(ApiInstance, Get, "/users/me", DefaultHeaders, NoBody, false)

  // ---------------------------------------------------------------------------
  // The credential writes
  // ---------------------------------------------------------------------------

  /** The four `setItem` calls after a sign-in or sign-up, in the order they are awaited. */
  function TokenWrites(t: AuthResponse): (ws: seq<(string, string)>)
    ensures |ws| == 4
  {
    [(AccessTokenKey, t.accessToken), (RefreshTokenKey, t.refreshToken),
     (TokenTypeKey, t.tokenType), (ExpiresInKey, IntToString(t.expiresIn))]
  }

  /** The entries after the writes `ws`, one after the other. */
  function Applied(entries: map<string, string>, ws: seq<(string, string)>): map<string, string>
    decreases |ws|
  {
    if ws == [] then entries else Applied(entries[ws[0].0 := ws[0].1], ws[1..])
  }

  /** One more write on top of a prefix of `ws` is the next prefix. */
  lemma {:induction false} AppliedStep(entries: map<string, string>, ws: seq<(string, string)>, k: nat)
    requires k < |ws|
    ensures Applied(entries, ws[..k + 1]) == Applied(entries, ws[..k])[ws[k].0 := ws[k].1]
    decreases k
  {
    if k > 0 {
      assert ws[..k + 1][1..] == ws[1..][..k];
      assert ws[..k][1..] == ws[1..][..k - 1];
      AppliedStep(entries[ws[0].0 := ws[0].1], ws[1..], k - 1);
    }
  }

  /** The log entries of the writes `ws`. */
  function SetOps(ws: seq<(string, string)>): (ops: seq<StoreOp>)
    ensures |ops| == |ws|
    ensures forall i :: 0 <= i < |ws| ==> ops[i] == SetOp(ws[i].0, ws[i].1)
  {
    if ws == [] then [] else [SetOp(ws[0].0, ws[0].1)] + SetOps(ws[1..])
  }

  /** How many of the writes `ws` go through before the first one that rejects. */
  function Writable(ws: seq<(string, string)>, failing: set<string>): (n: nat)
    ensures n <= |ws|
    ensures forall i :: 0 <= i < n ==> ws[i].0 !in failing
    ensures n < |ws| ==> ws[n].0 in failing
  {
    if ws == [] || ws[0].0 in failing then 0 else 1 + Writable(ws[1..], failing)
  }

  /**
   * The body of `login` and `register` after the POST resolved with envelope `env`: the four
   * writes, stopping at the first that rejects (the earlier ones stay), then the envelope
   * handed back unchanged.
   */
  function PersistTokens(w: World, env: Envelope): (run: AuthRun)
    ensures run.world.sent == w.sent && run.world.script == w.script && run.world.failing == w.failing
    ensures !env.data.Tokens? ==> run == AuthRun(w, Failure(PayloadError))
    ensures env.data.Tokens? ==>
      var ws := TokenWrites(env.data.auth);
      var n := Writable(ws, w.failing);
      && run.world.entries == Applied(w.entries, ws[..n])
      && run.world.log == w.log + SetOps(ws[..if n < 4 then n + 1 else 4])
      && (n == 4 ==> run.result == Success(env))
      && (n < 4 ==> run.result == Failure(StorageError(ws[n].0)))
  {
    if !env.data.Tokens? then AuthRun(w, Failure(PayloadError))
    else
      var t := env.data.auth;
      var ws := TokenWrites(t);
      var (w1, ok1) := Write(w, AccessTokenKey, t.accessToken);
      var (w2, ok2) := Write(w1, RefreshTokenKey, t.refreshToken);
      var (w3, ok3) := Write(w2, TokenTypeKey, t.tokenType);
      var (w4, ok4) := Write(w3, ExpiresInKey, IntToString(t.expiresIn));
      assert ws[..0] == [] && ws[..4] == ws;
      AppliedStep(w.entries, ws, 0);
      AppliedStep(w.entries, ws, 1);
      AppliedStep(w.entries, ws, 2);
      AppliedStep(w.entries, ws, 3);
      if !ok1 then AuthRun(w1, Failure(StorageError(AccessTokenKey)))
      else if !ok2 then AuthRun(w2, Failure(StorageError(RefreshTokenKey)))
      else if !ok3 then AuthRun(w3, Failure(StorageError(TokenTypeKey)))
      else if !ok4 then AuthRun(w4, Failure(StorageError(ExpiresInKey)))
      else AuthRun(w4, Success(env))
  }

  /** `login` and `register`: a failed POST propagates before any write. */
  function Authenticate(w: World, req: Request, base: string): (run: AuthRun)
    requires req.client == ApiInstance
    ensures run.result.Success? ==> run.result.value.data.Tokens?
    ensures run.result.Success? ==>
      Dispatch(w, req, base).result.Success? && run.result.value == Dispatch(w, req, base).result.value.body
    ensures Dispatch(w, req, base).result.Failure? ==> run.result == Failure(Dispatch(w, req, base).result.error)
    ensures run.world.sent == Dispatch(w, req, base).world.sent
  {
    var posted := Dispatch(w, req, base);
    match posted.result
    case Failure(err) => AuthRun(posted.world, Failure(err))
    case Success(resp) => PersistTokens(posted.world, resp.body)
  }

  /** `login`: the first request put on the wire is the sign-in POST of the credentials as given. */
  function SignIn(w: World, c: LoginCredentials, base: string): (run: AuthRun)
    ensures AccessTokenKey !in w.failing ==>
      && |run.world.sent| > |w.sent|
      && var first := run.world.sent[|w.sent|];
      && first.client == ApiInstance && first.verb == Post && first.url == "/auth/sign-in"
      && first.body == SignInBody(c.email, c.password)
  {
    if AccessTokenKey !in w.failing then
      AttachesStoredToken(w, SignInRequest(c), base);
      Authenticate(w, SignInRequest(c), base)
    else Authenticate(w, SignInRequest(c), base)
  }

  /** `register`: the first request put on the wire is the sign-up POST of the credentials as given. */
  function SignUp(w: World, c: RegisterCredentials, base: string): (run: AuthRun)
    ensures AccessTokenKey !in w.failing ==>
      && |run.world.sent| > |w.sent|
      && var first := run.world.sent[|w.sent|];
      && first.client == ApiInstance && first.verb == Post && first.url == "/auth/signup"
      && first.body == SignUpBody(c.name, c.email, c.phone, c.password)
  {
    if AccessTokenKey !in w.failing then
      AttachesStoredToken(w, SignUpRequest(c), base);
      Authenticate(w, SignUpRequest(c), base)
    else Authenticate(w, SignUpRequest(c), base)
  }

  /**
   * `logout`: the logout POST goes out first, and whatever it does, the session keys are
   * removed afterwards.
   */
  function SignOut(w: World, base: string): (r: World)
    ensures AccessTokenKey !in r.entries && RefreshTokenKey !in r.entries && UserKey !in r.entries
    ensures w.sent <= r.sent && |r.log| > 0 && r.log[|r.log| - 1] == RemoveOp(SessionKeys)
    ensures AccessTokenKey !in w.failing ==>
      && |r.sent| > |w.sent|
      && var first := r.sent[|w.sent|];
      && first.client == ApiInstance && first.verb == Post && first.url == "/auth/logout"
      && first.body == NoBody
  {
    if AccessTokenKey !in w.failing then
      AttachesStoredToken(w, LogoutRequest, base);
      Remove(Dispatch(w, LogoutRequest, base).world, SessionKeys)
    else Remove(Dispatch(w, LogoutRequest, base).world, SessionKeys)
  }

  /** `getAccessToken`: one `getItem`. */
  function ReadAccessToken(w: World): (r: (World, Result<Option<string>, Error>))
    ensures r.0.entries == w.entries && r.0.sent == w.sent && r.0.log == w.log + [GetOp(AccessTokenKey)]
    ensures AccessTokenKey !in w.failing ==> r.1 == Success(Lookup(w.entries, AccessTokenKey))
    ensures AccessTokenKey in w.failing ==> r.1 == Failure(StorageError(AccessTokenKey))
  {
    Read(w, AccessTokenKey)
  }

  /** `getCurrentUser`: the GET's envelope, unchanged. */
  function CurrentUser(w: World, base: string): (r: AuthRun)
    ensures var run := Dispatch(w, CurrentUserRequest, base);
      && r.world == run.world
      && (r.result.Success? <==> run.result.Success?)
      && (run.result.Success? ==> r.result.value == run.result.value.body)
      && (run.result.Failure? ==> r.result.error == run.result.error)
  {
    var run := Dispatch(w, CurrentUserRequest, base);
    match run.result
    case Failure(err) => AuthRun(run.world, Failure(err))
    case Success(resp) => AuthRun(run.world, Success(resp.body))
  }

  // ---------------------------------------------------------------------------
  // Properties
  // ---------------------------------------------------------------------------

  /**
   * A resolved sign-in whose four writes are all accepted stores access token, refresh
   * token, token type and the decimal `expiresIn`, in that order, and returns the envelope.
   */
  lemma LoginStoresTokensInOrder(w: World, c: LoginCredentials, base: string)
    requires var posted := Dispatch(w, SignInRequest(c), base);
      && posted.result.Success? && posted.result.value.body.data.Tokens?
      && AccessTokenKey !in w.failing && RefreshTokenKey !in w.failing
      && TokenTypeKey !in w.failing && ExpiresInKey !in w.failing
    ensures var posted := Dispatch(w, SignInRequest(c), base);
      var env := posted.result.value.body;
      var t := env.data.auth;
      var run := SignIn(w, c, base);
      && run.result == Success(env)
      && run.world.log == posted.world.log + [SetOp(AccessTokenKey, t.accessToken), SetOp(RefreshTokenKey, t.refreshToken),
                                              SetOp(TokenTypeKey, t.tokenType), SetOp(ExpiresInKey, IntToString(t.expiresIn))]
      && run.world.entries == posted.world.entries[AccessTokenKey := t.accessToken][RefreshTokenKey := t.refreshToken]
                                                  [TokenTypeKey := t.tokenType][ExpiresInKey := IntToString(t.expiresIn)]
  {
    var posted := Dispatch(w, SignInRequest(c), base);
    var ws := TokenWrites(posted.result.value.body.data.auth);
    assert Writable(ws, w.failing) == 4;
    assert ws[..4] == ws;
  }

  /** After the four writes of a sign-in the stored access token is the one received. */
  lemma TokenWritesStoreAccessToken(entries: map<string, string>, t: AuthResponse)
    ensures Lookup(Applied(entries, TokenWrites(t)), AccessTokenKey) == Some(t.accessToken)
  {
    var ws := TokenWrites(t);
    assert ws[..0] == [];
    AppliedStep(entries, ws, 0);
    AppliedStep(entries, ws, 1);
    AppliedStep(entries, ws, 2);
    AppliedStep(entries, ws, 3);
    assert ws[..4] == ws;
  }

  /**
   * A request made right after a successful sign-in carries the token it received (when
   * that token is non-empty): the request interceptor reads back what `login` stored.
   */
  lemma LoginThenRequestCarriesToken(w: World, c: LoginCredentials, cfg: Request, base: string)
    requires cfg.client == ApiInstance && AccessTokenKey !in w.failing
    requires SignIn(w, c, base).result.Success?
    ensures var run := SignIn(w, c, base);
      var t := run.result.value.data.auth;
      var next := Dispatch(run.world, cfg, base);
      && |next.world.sent| > |run.world.sent|
      && (t.accessToken != "" ==> next.world.sent[|run.world.sent|].headers == cfg.headers[Authorization := Bearer(t.accessToken)])
  {
    var run := SignIn(w, c, base);
    var posted := Dispatch(w, SignInRequest(c), base);
    var t := run.result.value.data.auth;
    var ws := TokenWrites(t);
    assert Writable(ws, posted.world.failing) == 4;
    assert ws[..4] == ws;
    TokenWritesStoreAccessToken(posted.world.entries, t);
    AttachesStoredToken(run.world, cfg, base);
  }

  /** A rejected POST reaches the caller of `login` or `register` as it is, with no credential write. */
  lemma FailedPostWritesNothing(w: World, req: Request, base: string)
    requires req.client == ApiInstance && Dispatch(w, req, base).result.Failure?
    ensures var posted := Dispatch(w, req, base);
      Authenticate(w, req, base) == AuthRun(posted.world, Failure(posted.result.error))
  {
  }

  /**
   * A sign-in answered with 401 is handled like any other request: the pipeline posts the
   * stored refresh token before the caller sees anything.
   */
  lemma SignInUnauthorizedRefreshes(w: World, c: LoginCredentials, base: string)
    requires AccessTokenKey !in w.failing && RefreshTokenKey !in w.failing
    requires w.script != [] && w.script[0].Received? && w.script[0].response.status == 401
    ensures var run := SignIn(w, c, base);
      |run.world.sent| >= |w.sent| + 2 && run.world.sent[|w.sent| + 1] == RefreshRequest(base, Lookup(w.entries, RefreshTokenKey))
  {
    FirstUnauthorizedPostsRefresh(w, SignInRequest(c), base);
  }

  /**
   * After `logout` the session keys are gone whatever the remote call did, and `tokenType`,
   * `expiresIn` and every other key keep the value they had before.
   */
  lemma LogoutClearsSession(w: World, base: string)
    ensures var after := SignOut(w, base).entries;
      && AccessTokenKey !in after && RefreshTokenKey !in after && UserKey !in after
      && Lookup(after, TokenTypeKey) == Lookup(w.entries, TokenTypeKey)
      && Lookup(after, ExpiresInKey) == Lookup(w.entries, ExpiresInKey)
      && Unrelated(after) == Unrelated(w.entries)
  {
    var mid := Dispatch(w, LogoutRequest, base).world.entries;
    var after := SignOut(w, base).entries;
    assert Unrelated(mid) == Unrelated(w.entries);
    forall k | k != AccessTokenKey && k != RefreshTokenKey && k != UserKey
      ensures Lookup(after, k) == Lookup(w.entries, k)
    {
      assert (k in after <==> k in mid) && (k in mid ==> after[k] == mid[k]);
      assert (k in mid <==> k in Unrelated(mid)) && (k in w.entries <==> k in Unrelated(w.entries));
      assert k in mid ==> mid[k] == Unrelated(mid)[k];
      assert k in w.entries ==> w.entries[k] == Unrelated(w.entries)[k];
    }
    assert Unrelated(after) == Unrelated(mid);
  }

  /** `getAccessToken` reads the stored token, or null, and changes no entry. */
  lemma ReadAccessTokenWritesNothing(w: World)
    requires AccessTokenKey !in w.failing
    ensures var (w1, r) := ReadAccessToken(w);
      w1.entries == w.entries && r == Success(Lookup(w.entries, AccessTokenKey))
  {
  }

  // ---------------------------------------------------------------------------
  // The imperative service
  // ---------------------------------------------------------------------------

  class AuthClient {
    const api: ApiClient

    constructor (api: ApiClient)
      ensures this.api == api
    {
      this.api := api;
    }

    method Login(c: LoginCredentials) returns (r: Result<Envelope, Error>)
      modifies api.store, api.transport
      ensures AuthRun(api.State(), r) == SignIn(old(api.State()), c, api.baseUrl)
    {
      r := PostAndStore(SignInRequest(c));
    }

    method Register(c: RegisterCredentials) returns (r: Result<Envelope, Error>)
      modifies api.store, api.transport
      ensures AuthRun(api.State(), r) == SignUp(old(api.State()), c, api.baseUrl)
    {
      r := PostAndStore(SignUpRequest(c));
    }

    /** The shared shape of `login` and `register`. */
    method PostAndStore(req: Request) returns (r: Result<Envelope, Error>)
      requires req.client == ApiInstance
      modifies api.store, api.transport
      ensures AuthRun(api.State(), r) == Authenticate(old(api.State()), req, api.baseUrl)
    {
      var response := api.Request(req);
      if response.Failure? {
        r := Failure(response.error);
        return;
      }
      var env := response.value.body;
      if !env.data.Tokens? {
        r := Failure(PayloadError);
        return;
      }
      var data := env.data.auth;
      var ok := api.store.SetItem(AccessTokenKey, data.accessToken);
      if !ok {
        r := Failure(StorageError(AccessTokenKey));
        return;
      }
      ok := api.store.SetItem(RefreshTokenKey, data.refreshToken);
      if !ok {
        r := Failure(StorageError(RefreshTokenKey));
        return;
      }
      ok := api.store.SetItem(TokenTypeKey, data.tokenType);
      if !ok {
        r := Failure(StorageError(TokenTypeKey));
        return;
      }
      ok := api.store.SetItem(ExpiresInKey, IntToString(data.expiresIn));
      if !ok {
        r := Failure(StorageError(ExpiresInKey));
        return;
      }
      r := Success(env);
    }

    /** `logout`: the remote call's rejection is caught, and the `finally` always runs. */
    method Logout()
      modifies api.store, api.transport
      ensures api.State() == SignOut(old(api.State()), api.baseUrl)
    {
      var _ := api.Request(LogoutRequest);
      api.store.MultiRemove(SessionKeys);
    }

    method GetCurrentUser() returns (r: Result<Envelope, Error>)
      modifies api.store, api.transport
      ensures AuthRun(api.State(), r) == CurrentUser(old(api.State()), api.baseUrl)
    {
      var response := api.Request(CurrentUserRequest);
      if response.Failure? {
        r := Failure(response.error);
      } else {
        r := Success(response.value.body);
      }
    }

    method GetAccessToken() returns (r: Result<Option<string>, Error>)
      modifies api.store
      ensures (api.State(), r) == ReadAccessToken(old(api.State()))
    {
      r := api.store.GetItem(AccessTokenKey);
    }
  }
}
