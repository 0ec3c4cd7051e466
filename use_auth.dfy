/**
 * The `useAuth` hook of hooks/useAuth.ts: a cached "current token" (the `CURRENT_TOKEN`
 * query) seeded from `getAccessToken`, and the mutations whose `onSuccess` callbacks
 * change it. The query cache is reduced to that token and a flag for `queryClient.clear()`.
 *
 * `verifyOTP` and `createBusiness` are not defined in services/authService.ts; their
 * outcomes are parameters here.
 */
module UseAuth {
  import opened Wrappers
  import opened Http
  import opened Storage
  import opened Text
  import opened Api
  import opened AuthService

  class AuthSession {
    const auth: AuthClient
    /** The `CURRENT_TOKEN` query's data. */
    var token: Option<string>
    /** Set once `queryClient.clear()` has run. */
    var cacheCleared: bool

    /** `useQuery({queryFn: getAccessToken})`: a rejected read leaves the data undefined. */
    constructor (auth: AuthClient)
      modifies auth.api.store
      ensures this.auth == auth && !cacheCleared
      ensures var (w, r) := ReadAccessToken(old(auth.api.State()));
        auth.api.State() == w && token == (if r.Success? then r.value else None)
    {
      this.auth := auth;
      var r := auth.GetAccessToken();
      token := if r.Success? then r.value else None;
      cacheCleared := false;
    }

    /** `isAuthenticated: !!token`. */
    predicate IsAuthenticated()
      reads this
    {
      Truthy(token)
    }

    /** `login`; on success the cached token becomes the new access token. */
    method Login(c: LoginCredentials) returns (r: Result<Envelope, Error>)
      modifies this, auth.api.store, auth.api.transport
      ensures AuthRun(auth.api.State(), r) == SignIn(old(auth.api.State()), c, auth.api.baseUrl)
      ensures r.Success? ==> token == Some(r.value.data.auth.accessToken)
      ensures r.Success? ==> (IsAuthenticated() <==> r.value.data.auth.accessToken != "")
      ensures r.Failure? ==> token == old(token)
      ensures cacheCleared == old(cacheCleared)
    {
      r := auth.Login(c);
      if r.Success? {
        token := Some(r.value.data.auth.accessToken);
      }
    }

    /** `register` has no `onSuccess`: the tokens it stores do not reach the cached token. */
    method Register(c: RegisterCredentials) returns (r: Result<Envelope, Error>)
      modifies auth.api.store, auth.api.transport
      ensures AuthRun(auth.api.State(), r) == SignUp(old(auth.api.State()), c, auth.api.baseUrl)
    {
      r := auth.Register(c);
    }

    /** `createBusiness`, given the outcome of the remote operation; the token is untouched. */
    method CreateBusiness(outcome: Result<Envelope, Error>) returns (r: Result<Envelope, Error>)
      ensures r == outcome
    {
      r := outcome;
    }

    /** `logout` always resolves; its `onSuccess` nulls the token, then clears the whole cache. */
    method Logout()
      modifies this, auth.api.store, auth.api.transport
      ensures auth.api.State() == SignOut(old(auth.api.State()), auth.api.baseUrl)
      ensures token == None && cacheCleared
      ensures !IsAuthenticated()
    {
      auth.Logout();
      token := None;
      cacheCleared := true;
    }

    /** `verifyOtp`, given the outcome of the remote operation; success caches its access token. */
    method VerifyOtp(outcome: Result<AuthResponse, Error>) returns (r: Result<AuthResponse, Error>)
      modifies this
      ensures r == outcome
      ensures outcome.Success? ==> token == Some(outcome.value.accessToken)
      ensures outcome.Success? ==> (IsAuthenticated() <==> outcome.value.accessToken != "")
      ensures outcome.Failure? ==> token == old(token)
      ensures cacheCleared == old(cacheCleared)
    {
      r := outcome;
      if outcome.Success? {
        token := Some(outcome.value.accessToken);
      }
    }
  }
}
