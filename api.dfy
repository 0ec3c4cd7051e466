/**
 * The `api` axios instance of services/api.ts and its two interceptors.
 *
 * The request interceptor reads `accessToken` from AsyncStorage and attaches
 * `Authorization: Bearer <token>` when it is non-empty. The response interceptor passes
 * 2xx responses through; on the first 401 of a request it sets `_retry`, posts the stored
 * refresh token to `/auth/refresh` through bare axios, stores the new pair, and replays the
 * request once through `api`. When any step of the refresh fails it removes the session keys
 * and rejects with that step's error.
 *
 * `Dispatch`, `OnError` and `Refresh` are the specification, as functions over a `World`
 * (store plus transport). `ApiClient` is the imperative pipeline. It mutates the store, the
 * transport and a per-call `RequestConfig` object, and each method is proved to produce the
 * world its specification function computes.
 */
module Api {
  import opened Wrappers
  import opened Http
  import opened Storage
  import opened Text

  /** Everything the pipeline reads and changes: the store and the transport. */
  datatype World = World(
    entries: map<string, string>,
    failing: set<string>,
    log: seq<StoreOp>,
    script: seq<Outcome>,
    sent: seq<Request>)

  /** A settled call together with the world it leaves behind. */
  datatype Run = Run(world: World, result: Result<Response, Error>)

  // ---------------------------------------------------------------------------
  // Store and transport steps on a World
  // ---------------------------------------------------------------------------

  function Read(w: World, key: string): (World, Result<Option<string>, Error>) {
    (w.(log := w.log + [GetOp(key)]), ReadResult(w.entries, w.failing, key))
  }

  function Write(w: World, key: string, value: string): (World, bool) {
    var ok := key !in w.failing;
    (w.(log := w.log + [SetOp(key, value)], entries := if ok then w.entries[key := value] else w.entries), ok)
  }

  function Remove(w: World, keys: seq<string>): World {
    w.(log := w.log + [RemoveOp(keys)], entries := Removed(w.entries, keys))
  }

  function Send(w: World, req: Request): (World, Outcome) {
    (w.(script := RestOfScript(w.script), sent := w.sent + [req]), NextOutcome(w.script))
  }

  // ---------------------------------------------------------------------------
  // Pieces of the interceptors
  // ---------------------------------------------------------------------------

  function Bearer(token: string): string {
    "Bearer " + token
  }

  /**
   * The request interceptor's header step: only the headers can change, every header other
   * than `Authorization` keeps its value, and `Authorization` carries the token exactly when
   * the token is truthy.
   */
  function Authorize(cfg: Request, token: Option<string>): (r: Request)
    ensures r.(headers := cfg.headers) == cfg
    ensures r.headers - {Authorization} == cfg.headers - {Authorization}
    ensures Truthy(token) ==> Authorization in r.headers && r.headers[Authorization] == Bearer(token.value)
    ensures !Truthy(token) ==> r == cfg
  {
    if Truthy(token) then cfg.(headers := cfg.headers[Authorization := Bearer(token.value)]) else cfg
  }

  /**
   * The header step is idempotent: a replayed config that already carries the stored token
   * passes the request interceptor again unchanged.
   */
  lemma AuthorizeIdempotent(cfg: Request, token: Option<string>)
    ensures Authorize(Authorize(cfg, token), token) == Authorize(cfg, token)
  {
    var once := Authorize(cfg, token);
    if Truthy(token) {
      assert once.headers[Authorization := Bearer(token.value)] == once.headers;
    }
  }

  /** The refresh exchange: a bare-axios POST of the stored refresh token (null included). */
  function RefreshRequest(base: string, stored: Option<string>): Request {
    Request(BareAxios, Post, base + "/auth/refresh", map[], RefreshBody(stored), false)
  }

  /** The `catch` of the response interceptor: remove the session keys, reject with `err`. */
  function Invalidate(w: World, err: Error): Run {
    Run(Remove(w, SessionKeys), Failure(err))
  }

  /** The number of requests made through bare axios, i.e. of refresh exchanges. */
  function BareCalls(s: seq<Request>): nat {
    if s == [] then 0 else BareCalls(s[..|s| - 1]) + (if s[|s| - 1].client == BareAxios then 1 else 0)
  }

  /** The store entries other than the session keys: the pipeline never touches these. */
  function Unrelated(entries: map<string, string>): map<string, string> {
    entries - {AccessTokenKey, RefreshTokenKey, UserKey}
  }

  // ---------------------------------------------------------------------------
  // The pipeline, as functions
  // ---------------------------------------------------------------------------

  /**
   * One call `api(cfg)`: request interceptor, transport, response interceptor. A replay
   * (`cfg.retry`) sends one request and never refreshes; an original request sends at most
   * three (request, refresh, replay) and makes at most one refresh exchange.
   */
  function Dispatch(w: World, cfg: Request, base: string): (run: Run)
    requires cfg.client == ApiInstance
    ensures w.sent <= run.world.sent && w.log <= run.world.log && run.world.failing == w.failing
    ensures |run.world.sent| <= |w.sent| + (if cfg.retry then 1 else 3)
    ensures BareCalls(run.world.sent) <= BareCalls(w.sent) + (if cfg.retry then 0 else 1)
    ensures Unrelated(run.world.entries) == Unrelated(w.entries)
    decreases if cfg.retry then 2 else 7
  {
    var (w1, token) := Read(w, AccessTokenKey);
    if token.Failure? then
      // The interceptor's rejection reaches the response interceptor without a response.
      Run(w1, Failure(token.error))
    else
      var sentCfg := Authorize(cfg, token.value);
      var (w2, outcome) := Send(w1, sentCfg);
      assert BareCalls(w2.sent) == BareCalls(w.sent) + (if sentCfg.client == BareAxios then 1 else 0) by {
        assert w2.sent[..|w2.sent| - 1] == w.sent;
      }
      match Settle(outcome, sentCfg)
      case Success(resp) => Run(w2, Success(resp))
      case Failure(err) => OnError(w2, sentCfg, err, base)
  }

  /** The response interceptor's error handler, given the error and its (already sent) config. */
  function OnError(w: World, cfg: Request, err: Error, base: string): (run: Run)
    requires cfg.client == ApiInstance
    ensures w.sent <= run.world.sent && w.log <= run.world.log && run.world.failing == w.failing
    ensures |run.world.sent| <= |w.sent| + (if cfg.retry then 0 else 2)
    ensures BareCalls(run.world.sent) <= BareCalls(w.sent) + (if cfg.retry then 0 else 1)
    ensures Unrelated(run.world.entries) == Unrelated(w.entries)
    decreases if cfg.retry then 1 else 6
  {
    if err.HttpError? && err.response.status == 401 && !cfg.retry then
      Refresh(w, cfg.(retry := true), base)
    else
      Run(w, Failure(err))
  }

  /** The `try` block for a first 401; `cfg` already carries `_retry = true`. */
  function Refresh(w: World, cfg: Request, base: string): (run: Run)
    requires cfg.retry && cfg.client == ApiInstance
    ensures w.sent <= run.world.sent && w.log <= run.world.log && run.world.failing == w.failing
    ensures |run.world.sent| <= |w.sent| + 2
    ensures BareCalls(run.world.sent) <= BareCalls(w.sent) + 1
    ensures Unrelated(run.world.entries) == Unrelated(w.entries)
    decreases 5
  {
    var (w1, stored) := Read(w, RefreshTokenKey);
    if stored.Failure? then Invalidate(w1, stored.error)
    else
      var req := RefreshRequest(base, stored.value);
      var (w2, outcome) := Send(w1, req);
      assert BareCalls(w2.sent) == BareCalls(w.sent) + 1 by {
        assert w2.sent[..|w2.sent| - 1] == w.sent;
      }
      AfterRefreshPost(w2, cfg, outcome, req, base)
  }

  /**
   * The rest of the `try` block once the refresh POST `req` has been answered with
   * `outcome`: store the new pair, then replay.
   */
  function AfterRefreshPost(w: World, cfg: Request, outcome: Outcome, req: Request, base: string): (run: Run)
    requires cfg.retry && cfg.client == ApiInstance
    ensures w.sent <= run.world.sent && w.log <= run.world.log && run.world.failing == w.failing
    ensures |run.world.sent| <= |w.sent| + 1
    ensures BareCalls(run.world.sent) <= BareCalls(w.sent)
    ensures Unrelated(run.world.entries) == Unrelated(w.entries)
    decreases 4
  {
    match Settle(outcome, req)
    case Failure(err) => Invalidate(w, err)
    case Success(resp) =>
      if !resp.body.data.Tokens? then Invalidate(w, PayloadError)
      else
        var t := resp.body.data.auth;
        var (w3, ok1) := Write(w, AccessTokenKey, t.accessToken);
        if !ok1 then Invalidate(w3, StorageError(AccessTokenKey))
        else
          var (w4, ok2) := Write(w3, RefreshTokenKey, t.refreshToken);
          if !ok2 then Invalidate(w4, StorageError(RefreshTokenKey))
          else
            // `return api(originalRequest)`: not awaited, so a rejection skips the `catch`.
            Dispatch(w4, cfg.(headers := cfg.headers[Authorization := Bearer(t.accessToken)]), base)
  }

  // ---------------------------------------------------------------------------
  // Properties of the pipeline
  // ---------------------------------------------------------------------------

  /** The first request put on the wire carries the stored token exactly when it is truthy. */
  lemma AttachesStoredToken(w: World, cfg: Request, base: string)
    requires cfg.client == ApiInstance && AccessTokenKey !in w.failing
    ensures var run := Dispatch(w, cfg, base);
      var token := Lookup(w.entries, AccessTokenKey);
      && |run.world.sent| > |w.sent|
      && var first := run.world.sent[|w.sent|];
      && (Truthy(token) ==> first.headers == cfg.headers[Authorization := Bearer(token.value)])
      && (!Truthy(token) ==> first.headers == cfg.headers)
      && first.(headers := cfg.headers) == cfg
  {
    var run := Dispatch(w, cfg, base);
    var (w1, _) := Read(w, AccessTokenKey);
    var sentCfg := Authorize(cfg, Lookup(w.entries, AccessTokenKey));
    var (w2, outcome) := Send(w1, sentCfg);
    assert w2.sent[|w.sent|] == sentCfg;
    match Settle(outcome, sentCfg)
    case Success(_) =>
    case Failure(err) =>
      assert run == OnError(w2, sentCfg, err, base);
      assert w2.sent <= run.world.sent;
  }

  /** A 2xx response is handed back unchanged; the only store access is the token read. */
  lemma SuccessPassesThrough(w: World, cfg: Request, base: string)
    requires cfg.client == ApiInstance && AccessTokenKey !in w.failing
    requires w.script != [] && w.script[0].Received? && IsSuccess(w.script[0].response.status)
    ensures Dispatch(w, cfg, base) == Run(
      w.(log := w.log + [GetOp(AccessTokenKey)],
         script := w.script[1..],
         sent := w.sent + [Authorize(cfg, Lookup(w.entries, AccessTokenKey))]),
      Success(w.script[0].response))
  {
  }

  /**
   * Without a response, with a status other than 401, or with `_retry` already set, the
   * error is rejected as it is: no refresh exchange, no further store access.
   */
  lemma OtherFailuresPassThrough(w: World, cfg: Request, base: string)
    requires cfg.client == ApiInstance && AccessTokenKey !in w.failing
    requires var o := NextOutcome(w.script);
      o.NoResponse? || (!IsSuccess(o.response.status) && (o.response.status != 401 || cfg.retry))
    ensures var sentCfg := Authorize(cfg, Lookup(w.entries, AccessTokenKey));
      Dispatch(w, cfg, base) == Run(
        w.(log := w.log + [GetOp(AccessTokenKey)],
           script := RestOfScript(w.script),
           sent := w.sent + [sentCfg]),
        Settle(NextOutcome(w.script), sentCfg))
  {
  }

  /** A request whose read of the token rejects is never sent; the rejection reaches the caller. */
  lemma UnreadableTokenStopsRequest(w: World, cfg: Request, base: string)
    requires cfg.client == ApiInstance && AccessTokenKey in w.failing
    ensures Dispatch(w, cfg, base) == Run(w.(log := w.log + [GetOp(AccessTokenKey)]), Failure(StorageError(AccessTokenKey)))
  {
  }

  /** The world after the original request of `cfg` has been sent. */
  function AfterFirstSend(w: World, cfg: Request): World {
    w.(log := w.log + [GetOp(AccessTokenKey)],
       script := RestOfScript(w.script),
       sent := w.sent + [Authorize(cfg, Lookup(w.entries, AccessTokenKey))])
  }

  /** The world after the refresh token has been read and posted. */
  function AfterRefreshSend(w: World, base: string): World {
    w.(log := w.log + [GetOp(RefreshTokenKey)],
       script := RestOfScript(w.script),
       sent := w.sent + [RefreshRequest(base, Lookup(w.entries, RefreshTokenKey))])
  }

  /** A first 401 on an original request hands over to `Refresh`, with `_retry` now set. */
  lemma FirstUnauthorizedUnfolds(w: World, cfg: Request, base: string)
    requires cfg.client == ApiInstance && AccessTokenKey !in w.failing && !cfg.retry
    requires NextOutcome(w.script).Received? && NextOutcome(w.script).response.status == 401
    ensures var first := Authorize(cfg, Lookup(w.entries, AccessTokenKey));
      Dispatch(w, cfg, base) == Refresh(AfterFirstSend(w, cfg), first.(retry := true), base)
  {
  }

  /** With a readable refresh token, `Refresh` posts it and continues with `AfterRefreshPost`. */
  lemma RefreshUnfolds(w: World, cfg: Request, base: string)
    requires cfg.retry && cfg.client == ApiInstance && RefreshTokenKey !in w.failing
    ensures Refresh(w, cfg, base) == AfterRefreshPost(
      AfterRefreshSend(w, base), cfg, NextOutcome(w.script), RefreshRequest(base, Lookup(w.entries, RefreshTokenKey)), base)
  {
  }

  /**
   * On a first 401 a refresh exchange follows: a bare-axios POST to `base + "/auth/refresh"`
   * whose body is the stored refresh token, null when absent, read after the access token.
   */
  lemma FirstUnauthorizedPostsRefresh(w: World, cfg: Request, base: string)
    requires cfg.client == ApiInstance && AccessTokenKey !in w.failing && RefreshTokenKey !in w.failing
    requires !cfg.retry
    requires w.script != [] && w.script[0].Received? && w.script[0].response.status == 401
    ensures var run := Dispatch(w, cfg, base);
      && |run.world.sent| >= |w.sent| + 2 && |run.world.log| >= |w.log| + 2
      && run.world.sent[|w.sent| + 1] == RefreshRequest(base, Lookup(w.entries, RefreshTokenKey))
      && run.world.sent[|w.sent| + 1].url == base + "/auth/refresh"
      && run.world.sent[|w.sent| + 1].body == RefreshBody(Lookup(w.entries, RefreshTokenKey))
      && run.world.log[|w.log|..|w.log| + 2] == [GetOp(AccessTokenKey), GetOp(RefreshTokenKey)]
  {
    var first := Authorize(cfg, Lookup(w.entries, AccessTokenKey));
    var w2 := AfterFirstSend(w, cfg);
    FirstUnauthorizedUnfolds(w, cfg, base);
    RefreshUnfolds(w2, first.(retry := true), base);
    var w3 := AfterRefreshSend(w2, base);
    assert w3.sent[|w.sent| + 1] == RefreshRequest(base, Lookup(w.entries, RefreshTokenKey));
    assert w3.log[|w.log|..|w.log| + 2] == [GetOp(AccessTokenKey), GetOp(RefreshTokenKey)];
  }

  /** A replay sends exactly one request and writes nothing, so the stored pair survives it. */
  lemma ReplayKeepsTokens(w: World, cfg: Request, base: string)
    requires cfg.retry && cfg.client == ApiInstance && AccessTokenKey !in w.failing
    ensures var run := Dispatch(w, cfg, base);
      && run.world.entries == w.entries
      && run.world.sent == w.sent + [Authorize(cfg, Lookup(w.entries, AccessTokenKey))]
      && run.world.script == RestOfScript(w.script)
      && run.result == Settle(NextOutcome(w.script), Authorize(cfg, Lookup(w.entries, AccessTokenKey)))
  {
  }

  /**
   * A successful refresh stores the new pair, leaves every other key alone, and replays the
   * request exactly once with `Bearer <new access token>` and `_retry` set. The caller gets
   * the replay's own outcome: a rejected replay (a second 401 included) is not retried and
   * does not clear the store.
   */
  lemma RefreshSuccessReplaysOnce(w: World, cfg: Request, base: string)
    requires cfg.client == ApiInstance && AccessTokenKey !in w.failing && RefreshTokenKey !in w.failing
    requires !cfg.retry
    requires |w.script| >= 2
    requires w.script[0].Received? && w.script[0].response.status == 401
    requires w.script[1].Received? && IsSuccess(w.script[1].response.status)
    requires w.script[1].response.body.data.Tokens?
    ensures var t := w.script[1].response.body.data.auth;
      var run := Dispatch(w, cfg, base);
      var first := Authorize(cfg, Lookup(w.entries, AccessTokenKey));
      var replay := first.(retry := true, headers := first.headers[Authorization := Bearer(t.accessToken)]);
      && run.world.entries == w.entries[AccessTokenKey := t.accessToken][RefreshTokenKey := t.refreshToken]
      && run.world.sent == w.sent + [first, RefreshRequest(base, Lookup(w.entries, RefreshTokenKey)), replay]
      && run.world.script == RestOfScript(w.script[2..])
      && run.result == Settle(NextOutcome(w.script[2..]), replay)
  {
    var t := w.script[1].response.body.data.auth;
    var first := Authorize(cfg, Lookup(w.entries, AccessTokenKey));
    var retried := first.(retry := true);
    var w2 := AfterFirstSend(w, cfg);
    FirstUnauthorizedUnfolds(w, cfg, base);
    RefreshUnfolds(w2, retried, base);
    var w3 := AfterRefreshSend(w2, base);
    assert w3.script == w.script[2..];
    var (w4, _) := Write(w3, AccessTokenKey, t.accessToken);
    var (w5, _) := Write(w4, RefreshTokenKey, t.refreshToken);
    var replay := retried.(headers := retried.headers[Authorization := Bearer(t.accessToken)]);
    assert Dispatch(w, cfg, base) == Dispatch(w5, replay, base);
    // The replay's interceptor reads the token just written; the header it sets is the one
    // the error handler already put there.
    assert Lookup(w5.entries, AccessTokenKey) == Some(t.accessToken);
    assert Authorize(replay, Some(t.accessToken)) == replay;
    ReplayKeepsTokens(w5, replay, base);
  }

  /**
   * When the refresh POST itself is rejected (no response, or a status outside 2xx) the
   * session keys are removed and the caller gets that rejection, not the original 401.
   */
  lemma RefreshRejectionInvalidates(w: World, cfg: Request, base: string)
    requires cfg.client == ApiInstance && AccessTokenKey !in w.failing && RefreshTokenKey !in w.failing
    requires !cfg.retry
    requires w.script != [] && w.script[0].Received? && w.script[0].response.status == 401
    requires var o := NextOutcome(w.script[1..]); !(o.Received? && IsSuccess(o.response.status))
    ensures var run := Dispatch(w, cfg, base);
      var req := RefreshRequest(base, Lookup(w.entries, RefreshTokenKey));
      && run.world.entries == Removed(w.entries, SessionKeys)
      && run.world.log == w.log + [GetOp(AccessTokenKey), GetOp(RefreshTokenKey), RemoveOp(SessionKeys)]
      && run.result == Settle(NextOutcome(w.script[1..]), req)
      && run.result.Failure? && run.result.error.config == req
  {
    var first := Authorize(cfg, Lookup(w.entries, AccessTokenKey));
    var w2 := AfterFirstSend(w, cfg);
    FirstUnauthorizedUnfolds(w, cfg, base);
    RefreshUnfolds(w2, first.(retry := true), base);
    assert w2.script == w.script[1..];
  }

  /**
   * A first 401 ends in one of two ways. Either the refresh went through, the request was
   * replayed (three requests sent) and both tokens are stored. Or the refresh failed (fewer
   * requests sent); then the session keys are gone, every other key is kept, and the caller
   * gets an error other than the original 401. Which error, step by step, is stated by
   * `RefreshReadFailureInvalidates`, `RefreshRejectionInvalidates`,
   * `RefreshWithoutTokensInvalidates` and `TokenWriteFailureInvalidates`.
   */
  lemma FirstUnauthorizedOutcomes(w: World, cfg: Request, base: string)
    requires cfg.client == ApiInstance && AccessTokenKey !in w.failing && !cfg.retry
    requires w.script != [] && w.script[0].Received? && w.script[0].response.status == 401
    ensures var run := Dispatch(w, cfg, base);
      var original := HttpError(w.script[0].response, Authorize(cfg, Lookup(w.entries, AccessTokenKey)));
      || (&& |run.world.sent| == |w.sent| + 3
          && run.world.sent[|w.sent| + 2].retry
          && AccessTokenKey in run.world.entries && RefreshTokenKey in run.world.entries)
      || (&& |run.world.sent| < |w.sent| + 3
          && run.world.entries == Removed(w.entries, SessionKeys)
          && run.result.Failure? && run.result.error != original)
  {
    var first := Authorize(cfg, Lookup(w.entries, AccessTokenKey));
    var retried := first.(retry := true);
    var w2 := AfterFirstSend(w, cfg);
    FirstUnauthorizedUnfolds(w, cfg, base);
    if RefreshTokenKey !in w.failing {
      RefreshUnfolds(w2, retried, base);
      var req := RefreshRequest(base, Lookup(w.entries, RefreshTokenKey));
      var w3 := AfterRefreshSend(w2, base);
      var outcome := NextOutcome(w2.script);
      match Settle(outcome, req)
      case Failure(err) =>
        assert err.config == req;
      case Success(resp) =>
        if resp.body.data.Tokens? {
          var t := resp.body.data.auth;
          var (w4, ok1) := Write(w3, AccessTokenKey, t.accessToken);
          var (w5, ok2) := Write(w4, RefreshTokenKey, t.refreshToken);
          if ok2 {
            var replay := retried.(headers := retried.headers[Authorization := Bearer(t.accessToken)]);
            assert Dispatch(w, cfg, base) == Dispatch(w5, replay, base);
            assert Lookup(w5.entries, AccessTokenKey) == Some(t.accessToken);
            ReplayKeepsTokens(w5, replay, base);
          }
        }
    }
  }

  /**
   * When the refresh token cannot be read, nothing more is sent: the session keys are removed
   * and the caller gets the read's rejection.
   */
  lemma RefreshReadFailureInvalidates(w: World, cfg: Request, base: string)
    requires cfg.client == ApiInstance && AccessTokenKey !in w.failing && RefreshTokenKey in w.failing
    requires !cfg.retry
    requires w.script != [] && w.script[0].Received? && w.script[0].response.status == 401
    ensures var run := Dispatch(w, cfg, base);
      && run.result == Failure(StorageError(RefreshTokenKey))
      && run.world.entries == Removed(w.entries, SessionKeys)
      && |run.world.sent| == |w.sent| + 1
  {
    FirstUnauthorizedUnfolds(w, cfg, base);
  }

  /**
   * A refresh answered with 2xx but without a token pair (`data.accessToken` of nothing, a
   * type error) removes the session keys and the caller gets that error.
   */
  lemma RefreshWithoutTokensInvalidates(w: World, cfg: Request, base: string)
    requires cfg.client == ApiInstance && AccessTokenKey !in w.failing && RefreshTokenKey !in w.failing
    requires !cfg.retry
    requires w.script != [] && w.script[0].Received? && w.script[0].response.status == 401
    requires var o := NextOutcome(w.script[1..]);
      o.Received? && IsSuccess(o.response.status) && !o.response.body.data.Tokens?
    ensures var run := Dispatch(w, cfg, base);
      && run.result == Failure(PayloadError)
      && run.world.entries == Removed(w.entries, SessionKeys)
      && |run.world.sent| == |w.sent| + 2
  {
    var first := Authorize(cfg, Lookup(w.entries, AccessTokenKey));
    var w2 := AfterFirstSend(w, cfg);
    FirstUnauthorizedUnfolds(w, cfg, base);
    RefreshUnfolds(w2, first.(retry := true), base);
    assert w2.script == w.script[1..];
  }

  /**
   * When a write of the new pair rejects, the replay is not made: the session keys are
   * removed (an access token already written goes with them) and the caller gets the
   * rejection of the write that failed.
   */
  lemma TokenWriteFailureInvalidates(w: World, cfg: Request, outcome: Outcome, req: Request, base: string)
    requires cfg.retry && cfg.client == ApiInstance
    requires Settle(outcome, req).Success? && Settle(outcome, req).value.body.data.Tokens?
    requires AccessTokenKey in w.failing || RefreshTokenKey in w.failing
    ensures var run := AfterRefreshPost(w, cfg, outcome, req, base);
      && run.result == Failure(StorageError(if AccessTokenKey in w.failing then AccessTokenKey else RefreshTokenKey))
      && run.world.entries == Removed(w.entries, SessionKeys)
      && run.world.sent == w.sent
  {
    var t := Settle(outcome, req).value.body.data.auth;
    if AccessTokenKey !in w.failing {
      var written := w.entries[AccessTokenKey := t.accessToken];
      assert Removed(written, SessionKeys) == Removed(w.entries, SessionKeys);
    }
  }

  /** A replayed request (`_retry` set) is never refreshed again, whatever it receives. */
  lemma RetriedRequestNeverRefreshes(w: World, cfg: Request, base: string)
    requires cfg.retry && cfg.client == ApiInstance
    ensures var run := Dispatch(w, cfg, base);
      BareCalls(run.world.sent) == BareCalls(w.sent) && |run.world.sent| <= |w.sent| + 1
  {
    var run := Dispatch(w, cfg, base);
    if AccessTokenKey !in w.failing {
      var sentCfg := Authorize(cfg, Lookup(w.entries, AccessTokenKey));
      assert run.world.sent == w.sent + [sentCfg];
      assert (w.sent + [sentCfg])[..|w.sent|] == w.sent;
    }
  }

  // ---------------------------------------------------------------------------
  // The imperative pipeline
  // ---------------------------------------------------------------------------

  /** The config object axios builds for one call; the interceptors mutate it in place. */
  class RequestConfig {
    var client: Client
    var verb: Method
    var url: string
    var headers: map<string, string>
    var body: Body
    var retry: bool

    /** axios merges the caller's config into a fresh object for every call. */
    constructor (r: Request)
      ensures Value() == r
    {
      client, verb, url, headers, body, retry := r.client, r.verb, r.url, r.headers, r.body, r.retry;
    }

    function Value(): Request
      reads this
    {
      Request(client, verb, url, headers, body, retry)
    }
  }

  /** The `api` instance: base URL, the credential store it reads and writes, the transport. */
  class ApiClient {
    const baseUrl: string
    const store: Store
    const transport: Transport

    constructor (baseUrl: string, store: Store, transport: Transport)
      ensures this.baseUrl == baseUrl && this.store == store && this.transport == transport
    {
      this.baseUrl, this.store, this.transport := baseUrl, store, transport;
    }

    function State(): World
      reads store, transport
    {
      World(store.entries, store.failing, store.log, transport.script, transport.sent)
    }

    /** `api(r)`: the whole pipeline for one call, including any refresh and replay. */
    method Request(r: Request) returns (result: Result<Response, Error>)
      requires r.client == ApiInstance
      modifies store, transport
      ensures Run(State(), result) == Dispatch(old(State()), r, baseUrl)
      decreases if r.retry then 2 else 7
    {
      var config := new RequestConfig(r);
      // Request interceptor.
      var token := store.GetItem(AccessTokenKey);
      if token.Failure? {
        result := Failure(token.error);
        return;
      }
      if Truthy(token.value) {
        config.headers := config.headers[Authorization := Bearer(token.value.value)];
      }
      var outcome := transport.Send(config.Value());
      // Response interceptor.
      var settled := Settle(outcome, config.Value());
      if settled.Success? {
        result := settled;
      } else {
        result := HandleError(config, settled.error);
      }
    }

    /** The response interceptor's error handler; it mutates `config` (`_retry`, the header). */
    method HandleError(config: RequestConfig, err: Error) returns (result: Result<Response, Error>)
      requires config.client == ApiInstance
      modifies store, transport, config
      ensures Run(State(), result) == OnError(old(State()), old(config.Value()), err, baseUrl)
      decreases if config.retry then 1 else 6
    {
      if err.HttpError? && err.response.status == 401 && !config.retry {
        config.retry := true;
        result := RefreshAndReplay(config);
      } else {
        result := Failure(err);
      }
    }

    method RefreshAndReplay(config: RequestConfig) returns (result: Result<Response, Error>)
      requires config.retry && config.client == ApiInstance
      modifies store, transport, config
      ensures Run(State(), result) == Refresh(old(State()), old(config.Value()), baseUrl)
      decreases 5
    {
      var stored := store.GetItem(RefreshTokenKey);
      if stored.Failure? {
        result := ClearSession(stored.error);
        return;
      }
      var req := RefreshRequest(baseUrl, stored.value);
      var outcome := transport.Send(req);
      result := StoreTokensAndReplay(config, outcome, req);
    }

    /** The part of the `try` block after the refresh POST `req` was answered with `outcome`. */
    method StoreTokensAndReplay(config: RequestConfig, outcome: Outcome, req: Request) returns (result: Result<Response, Error>)
      requires config.retry && config.client == ApiInstance
      modifies store, transport, config
      ensures Run(State(), result) == AfterRefreshPost(old(State()), old(config.Value()), outcome, req, baseUrl)
      decreases 4
    {
      var settled := Settle(outcome, req);
      if settled.Failure? {
        result := ClearSession(settled.error);
        return;
      }
      var data := settled.value.body.data;
      if !data.Tokens? {
        result := ClearSession(PayloadError);
        return;
      }
      var ok := store.SetItem(AccessTokenKey, data.auth.accessToken);
      if !ok {
        result := ClearSession(StorageError(AccessTokenKey));
        return;
      }
      ok := store.SetItem(RefreshTokenKey, data.auth.refreshToken);
      if !ok {
        result := ClearSession(StorageError(RefreshTokenKey));
        return;
      }
      config.headers := config.headers[Authorization := Bearer(data.auth.accessToken)];
      result := Request(config.Value());
    }

    method ClearSession(err: Error) returns (result: Result<Response, Error>)
      modifies store
      ensures Run(State(), result) == Invalidate(old(State()), err)
    {
      store.MultiRemove(SessionKeys);
      result := Failure(err);
    }
  }
}
