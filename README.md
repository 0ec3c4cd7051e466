# Tilla-POS client session and form logic, in Dafny

This project models the client-side core of the Tilla-POS point-of-sale mobile app. The
model is written in Dafny 4.11, and the properties below are proved about it.

**The authenticated HTTP pipeline** (`src/services/api.ts`) is modelled in two ways:
- a pure model over a `World` value, which holds the device key/value store and a
  scripted network;
- an imperative `ApiClient` class, whose methods update that store and network in place.
  Each method's postcondition equates the new state with the pure model.

The request interceptor:
- reads `accessToken` from the store;
- sets `Authorization: Bearer <token>` when that token is truthy.

The response interceptor:
- passes 2xx responses through unchanged;
- on the first 401 of a request (`_retry` unset), marks the request, posts the stored
  refresh token to `<base>/auth/refresh` through bare axios, stores the new pair and
  replays the request once;
- if any refresh step rejects, removes `accessToken`, `refreshToken` and `user` in one
  `multiRemove` and rejects with that step's error.

**The authentication service** (`authService.ts`): sign-in and sign-up with their four token
writes, logout, the current-user call and the token read. Another state layer sits over it:
the `useAuth` hook's cached token, with `isAuthenticated = !!token`.

**The pure helpers:**
- `formatURL`, which rewrites a URL's origin onto the configured base URL;
- `formateDate`, the relative "last seen" label;
- the multipart bodies of the category service;
- the theme provider: mode, palette, persistence and the toggle cycle.

**Three screens** (a register screen, a create-business screen and an OTP screen).
For each, the model covers:
- the validation rules;
- the payload sent;
- the state changes, such as cell focus, the resend timer and the masked address.

The network and the store are oracles:
- A `Transport` holds a script of the outcomes still to come and records every request
  sent. An exhausted script yields no response, which models a network error.
- A `Store` holds its entries, a set of keys whose `getItem`/`setItem` reject, and a log of
  every operation.

Three remote operations are called but do not exist: `authService` (src/services/authService.ts:46-99)
defines no `verifyOTP`, `createBusiness` or `resendOTP`. As written, therefore, each call throws a
`TypeError`:
- `useAuth`'s mutations at src/hooks/useAuth.ts:30 and 44, so `createBusiness` and `verifyOtp` reject;
- src/screens/OTPScreen.tsx:102.
Each screen turns that into its failure path:
- the create-business screen shows its alert and stays;
- the OTP screen shows the fallback message, because the error carries no response.
The outcome of each call is a parameter of the method that makes it. In this version of the code
only its `Failure` case is reachable, and the model covers it. The `Success` case models the
operations as they are meant to be once implemented.

Two behaviours of the code are easy to miss, and the model proves both:
- A 401 answer to the sign-in request itself goes through the refresh path, like any other
  request (`AuthService.SignInUnauthorizedRefreshes`).
- A replayed request is never refreshed a second time, whatever it receives
  (`Api.RetriedRequestNeverRefreshes`).

Four facts about the code shape the model:
- When no refresh token is stored, the refresh POST is still sent, with body
  `{refreshToken: null}` (src/services/api.ts:49-55).
- Invalidation only removes keys from the store. It does not touch the `useAuth` hook's
  cached token; only logout's `onSuccess` clears that (src/hooks/useAuth.ts:34-40).
- The `api` instance is created without a timeout (src/services/api.ts:15-20), although
  `Config.API.TIMEOUT` exists (src/config/env.config.ts:15).
- The sign-in body is the `{email, password}` credentials object as given
  (src/services/authService.ts:4-7, 50-53).

## Model

| member | source | states |
|---|---|---|
| Api.Authorize | src/services/api.ts:24-29 | only the headers can change; every header other than `Authorization` keeps its value; `Authorization` is `Bearer <token>` when the stored token is truthy, and nothing changes otherwise; `AuthorizeIdempotent`: applying it twice equals applying it once, so a replayed config passes the interceptor again unchanged |
| Api.AuthorizeIdempotent | src/services/api.ts:24-29 | the header step applied twice equals applying it once; a replay whose `Authorization` was set to the stored token (api.ts:62) is not altered by the request interceptor |
| Api.Dispatch | src/services/api.ts:23-71 | a request through `api` only appends to the sent requests and the store log; it sends at most 3 requests, 1 once `_retry` is set; it makes at most one bare refresh call; it never touches store keys other than the session keys |
| Api.OnError | src/services/api.ts:42-71 | the response error handler keeps the same frame: at most 2 more requests on a first failure, none once `_retry` is set; session keys are the only keys touched |
| Api.Refresh | src/services/api.ts:48-67 | the refresh step sends at most the refresh POST and one replay (one bare call); other keys are untouched |
| Api.AfterRefreshPost | src/services/api.ts:57-67 | after the refresh POST settles: at most one more request (the replay), no further bare call, other keys untouched |
| Api.AttachesStoredToken | src/services/api.ts:24-29 | the first request put on the wire carries `Bearer <stored token>` exactly when the stored token is truthy; otherwise it carries the caller's headers; nothing else of the config changes |
| Api.SuccessPassesThrough | src/services/api.ts:38-41 | a 2xx answer is handed back unchanged; the only store access is the token read; one request is sent |
| Api.OtherFailuresPassThrough | src/services/api.ts:45-70 | no response, a non-401 error status, or a 401 with `_retry` set rejects with that error as it is; no refresh and no further store access |
| Api.UnreadableTokenStopsRequest | src/services/api.ts:24-25 | if reading the token rejects, nothing is sent and the caller gets that rejection |
| Api.FirstUnauthorizedUnfolds | src/services/api.ts:45-46 | a first 401 hands over to the refresh step with `_retry` set on the original config |
| Api.RefreshUnfolds | src/services/api.ts:49-55 | the refresh step reads `refreshToken` and posts it as the body |
| Api.FirstUnauthorizedPostsRefresh | src/services/api.ts:45-55 | after a first 401 the second request sent is a bare-axios POST to `base + "/auth/refresh"` whose body is the stored refresh token (null when absent); the access-token read is logged before the refresh-token read |
| Api.ReplayKeepsTokens | src/services/api.ts:62-63 | a replay sends exactly one request, writes nothing, and returns the settled outcome of that request |
| Api.RefreshSuccessReplaysOnce | src/services/api.ts:57-63 | a successful refresh stores the new access and refresh tokens and nothing else; it replays the request once with `Bearer <new access token>` and `_retry` set; the caller gets the replay's own outcome (a second 401 is not retried and does not clear the store) |
| Api.RefreshRejectionInvalidates | src/services/api.ts:64-67 | when the refresh POST is rejected, the session keys are removed and the log shows both reads then the `multiRemove`; the caller gets the refresh POST's error, not the original 401 |
| Api.FirstUnauthorizedOutcomes | src/services/api.ts:45-67 | a first 401 ends either in the replay (three requests sent, both tokens stored) or in invalidation (fewer requests, session keys removed, other keys kept, an error other than the original 401); the next three rows and `Api.RefreshRejectionInvalidates` say which error each step passes on |
| Api.RefreshReadFailureInvalidates | src/services/api.ts:48-67 | when reading the refresh token rejects: nothing more is sent, the session keys are removed, and the caller gets that read's `StorageError` |
| Api.RefreshWithoutTokensInvalidates | src/services/api.ts:56-67 | a 2xx refresh answer without a token pair: the session keys are removed and the caller gets the type error (`PayloadError`) |
| Api.TokenWriteFailureInvalidates | src/services/api.ts:59-67 | when a write of the new pair rejects: no replay is sent, the session keys are removed (an access token already written goes with them), and the caller gets the `StorageError` of the write that failed |
| Api.RetriedRequestNeverRefreshes | src/services/api.ts:45 | a request with `_retry` set never triggers a bare refresh call and sends at most one request |
| Api.ApiClient.Request | src/services/api.ts:23-71 | the imperative pipeline's new store, network and result equal `Dispatch` of the old state |
| Api.ApiClient.HandleError | src/services/api.ts:42-71 | the imperative error handler equals `OnError` on the old state and config |
| Api.ApiClient.RefreshAndReplay | src/services/api.ts:48-67 | the imperative refresh step equals `Refresh` |
| Api.ApiClient.StoreTokensAndReplay | src/services/api.ts:57-67 | the imperative steps after the refresh POST equal `AfterRefreshPost` |
| Api.ApiClient.ClearSession | src/services/api.ts:64-67 | the `catch` block removes the session keys and rejects with the caught error |
| Api.RequestConfig.constructor | src/services/api.ts:43 | a mutable request config holds the request it was built from |
| Http.Settle | src/services/api.ts:37-42 | resolves exactly when a response arrived whose status is 2xx or 0 (axios resolves a falsy status); the transport's outcome can be read back from the result; a rejection is always an HTTP or network error carrying the config that was sent, never a storage or payload error |
| Http.ServerMessage | src/screens/RegisterScreen.tsx:56-57 | `error.response?.data?.message \|\| fallback`: the server's message is shown only for a response that carries a non-empty one; with a non-empty fallback the message is never empty, which the screens' `{error && …}` relies on |
| Http.Transport.Send | src/services/api.ts:50-55 | the network records the request and yields the next scripted outcome (none once the script is used up) |
| Storage.Lookup | src/services/api.ts:25 | `getItem` on the entries: null exactly when the key is absent; what a read gives after a write or a `multiRemove` is stated by `Storage.LookupAfterSet` and `Storage.LookupAfterRemove` |
| Storage.LookupAfterSet | src/services/authService.ts:56-59 | after `setItem(key, value)` the key reads back as the value, and every other key reads as before |
| Storage.LookupAfterRemove | src/services/api.ts:65 | after `multiRemove(keys)` each removed key reads as null, and every other key reads as before |
| Storage.Removed | src/services/api.ts:65 | `multiRemove` drops exactly the listed keys and keeps every other value |
| Storage.Store.GetItem | src/services/api.ts:25 | a read changes no entry, logs itself and settles as `ReadResult` |
| Storage.Store.SetItem | src/services/authService.ts:56-59 | a write is logged; it goes through exactly when the key's writes do not reject, and only then is the entry set |
| Storage.Store.MultiRemove | src/services/authService.ts:87 | `multiRemove` is logged and leaves the entries `Removed` |
| AuthService.TokenWrites | src/services/authService.ts:56-59 | sign-in and sign-up make exactly four writes |
| AuthService.Writable | src/services/authService.ts:56-59 | the writes before the first rejecting one go through; the count stops at the first write whose key rejects |
| AuthService.PersistTokens | src/services/authService.ts:54-61 | after the POST resolves, the four writes run in order up to the first rejection (the earlier ones stay, the log shows the rejected write), and that rejection is the result; when all four succeed the envelope is returned unchanged; a payload without tokens is a type error before any write; nothing is sent |
| AuthService.Authenticate | src/services/authService.ts:47-79 | a resolved sign-in or sign-up returns the POST's own envelope holding tokens; a rejected POST reaches the caller unchanged; the token writes send nothing |
| AuthService.SignIn | src/services/authService.ts:47-62 | the first request put on the wire is a POST to `/auth/sign-in` through `api` whose body is the credentials' email and password |
| AuthService.SignUp | src/services/authService.ts:64-79 | the first request put on the wire is a POST to `/auth/signup` through `api` whose body is the name, email, phone and password given |
| AuthService.SignOut | src/services/authService.ts:81-89 | when the stored token can be read, the first request put on the wire is a body-less POST to `/auth/logout` through `api`; whatever it does, `accessToken`, `refreshToken` and `user` are absent afterwards, and the last store operation is the `multiRemove` of those keys |
| AuthService.ReadAccessToken | src/services/authService.ts:96-98 | one logged `getItem("accessToken")`, no entry changed, nothing sent; it yields the stored token or null, or the read's rejection |
| AuthService.CurrentUser | src/services/authService.ts:91-94 | `GET /users/me` through the pipeline: it resolves exactly when the pipeline does, with the response's envelope; a rejection passes through unchanged |
| AuthService.LoginStoresTokensInOrder | src/services/authService.ts:50-61 | when the POST resolves and every write succeeds: access token, refresh token, token type and the decimal `expiresIn` are written in that order, and the envelope is returned |
| AuthService.LoginThenRequestCarriesToken | src/services/authService.ts:56 | a request made right after a successful sign-in carries `Bearer <the access token received>` (when that token is non-empty) |
| AuthService.FailedPostWritesNothing | src/services/authService.ts:50-53 | a rejected POST reaches the caller with no credential write |
| AuthService.SignInUnauthorizedRefreshes | src/services/authService.ts:50-53 | a 401 on sign-in triggers a refresh exchange like any other request |
| AuthService.LogoutClearsSession | src/services/authService.ts:81-89 | after logout `accessToken`, `refreshToken` and `user` are gone whatever the remote call did; `tokenType`, `expiresIn` and every other key keep their values |
| AuthService.ReadAccessTokenWritesNothing | src/services/authService.ts:96-98 | `getAccessToken` returns the stored token or null and changes no entry |
| AuthService.AuthClient.Login | src/services/authService.ts:47-62 | the imperative login equals `SignIn` |
| AuthService.AuthClient.Register | src/services/authService.ts:64-79 | the imperative register equals `SignUp` |
| AuthService.AuthClient.PostAndStore | src/services/authService.ts:50-61 | the shared POST-then-store body equals `Authenticate` |
| AuthService.AuthClient.Logout | src/services/authService.ts:81-89 | the imperative logout catches the remote rejection and always removes the session keys (`SignOut`) |
| AuthService.AuthClient.GetCurrentUser | src/services/authService.ts:91-94 | `GET /users/me` returns the response envelope |
| AuthService.AuthClient.GetAccessToken | src/services/authService.ts:96-98 | one `getItem("accessToken")` |
| UseAuth.AuthSession.constructor | src/hooks/useAuth.ts:9-13 | the cached token is what `getAccessToken` read; a rejected read leaves it undefined |
| UseAuth.AuthSession.IsAuthenticated | src/hooks/useAuth.ts:53 | `!!token`: a cached token that is present and non-empty (a predicate, no contract of its own) |
| UseAuth.AuthSession.Login | src/hooks/useAuth.ts:16-21 | the underlying call is `SignIn`; on success the cached token becomes the new access token and `isAuthenticated` holds exactly when it is non-empty; on failure the cache is unchanged |
| UseAuth.AuthSession.Register | src/hooks/useAuth.ts:24-26 | register has no `onSuccess`: the cached token does not change |
| UseAuth.AuthSession.CreateBusiness | src/hooks/useAuth.ts:29-31 | the remote outcome is passed through; the cached token is unchanged |
| UseAuth.AuthSession.Logout | src/hooks/useAuth.ts:34-40 | logout runs `SignOut`, then nulls the cached token and clears the cache; afterwards `isAuthenticated` is false |
| UseAuth.AuthSession.VerifyOtp | src/hooks/useAuth.ts:43-48 | a successful verification caches its access token (`isAuthenticated` exactly when it is non-empty); a failure leaves the cache unchanged |
| FormatUrl.SchemeLength | src/utils/formatURL.ts:36 | `https?://`: 8 exactly for `https://`, 7 exactly for `http://`, otherwise 0 |
| FormatUrl.Origin | src/utils/formatURL.ts:36-37 | the origin regex `^(https?:\/\/[^/]+)` matches with length `n` exactly when `OriginMatch(s, n)` holds (scheme, a non-empty run of non-`/` characters, then the end or a `/`) |
| FormatUrl.FormatUrl | src/utils/formatURL.ts:22-48 | an empty URL, or one already starting with the base, is returned unchanged; when both have an origin, the URL's origin is replaced by the base's and the rest of the path is kept; otherwise the URL is returned unchanged |
| FormatUrl.OriginOfJoin | src/utils/formatURL.ts:42-43 | the result of a swap has the base's origin as its own origin |
| FormatUrl.FormatUrlIdempotent | src/utils/formatURL.ts:22-48 | formatting twice gives what formatting once gives |
| DeviceInfo.Classify | src/components/specifics/devices/DeviceInfoItem.tsx:14-30 | an unparsable date is Unknown; under 60 s (negatives included) it is seconds; 1-59 minutes equal `sec/60`; 1-23 hours equal `sec/3600`; otherwise the date is shown absolutely |
| DeviceInfo.Render | src/components/specifics/devices/DeviceInfoItem.tsx:17-35 | the text of each bucket (a definition); `DeviceInfo.RelativeLabelsDetermineAge` proves that a relative label determines its bucket and count, and `DeviceInfo.UnitLetter` that each label carries its unit letter |
| DeviceInfo.RelativeLabelsDetermineAge | src/components/specifics/devices/DeviceInfoItem.tsx:17-30 | two relative labels that read alike come from the same age: no label is shown for two different ages |
| DeviceInfo.FormateDate | src/components/specifics/devices/DeviceInfoItem.tsx:14-36 | `Unknown` for an unparsable date; `<sec>s ago` below 60 seconds (future dates included); `<sec/60>m ago` from 60 s to under an hour; `<sec/3600>h ago` from an hour to under a day; the localized date from a day on |
| DeviceInfo.UnitLetter | src/components/specifics/devices/DeviceInfoItem.tsx:21-29 | a relative label ends in its unit letter and ` ago` |
| Text.NatToStringRoundTrip | src/services/authService.ts:59 | the decimal rendering of `expiresIn` reads back as the same number |
| Text.IntToStringInjective | src/services/authService.ts:59 | distinct integers are stored as distinct strings |
| Text.IntToString | src/components/specifics/devices/DeviceInfoItem.tsx:21 | decimal rendering of an integer as JavaScript's `toString` gives it for integers below 1e21: a `-` sign exactly for negatives, then the digits of the magnitude |
| CategoryService.CreateParts | src/services/categoryService.ts:36-44 | the create form always holds the name first, then the image exactly when one is given |
| CategoryService.UpdateParts | src/services/categoryService.ts:60-70 | the update form holds the name exactly when it is a non-empty string, then the image exactly when one is given |
| CategoryService.UpdateWithNameMatchesCreate | src/services/categoryService.ts:36-70 | an update with a non-empty name sends the same form as a create with that name and image |
| CategoryService.UpdateWithNothingIsEmpty | src/services/categoryService.ts:60-70 | an update with no usable name and no image sends an empty form |
| CategoryService.Unwrap | src/services/categoryService.ts:29 | `response.data.data` of a resolved call, a rejection passed on unchanged; `CategoryService.ListingWithoutRefresh` states what that means for `getCategories` given the transport's answer |
| CategoryService.ListingWithoutRefresh | src/services/categoryService.ts:26-29 | when the first answer is not a 401, `getCategories` resolves exactly when a 2xx (or status 0) response arrived, with that response's `data`; otherwise it rejects with an HTTP or network error; no entry of the store changes |
| CategoryService.BuildCreateForm | src/services/categoryService.ts:36-44 | the appended `FormData` parts are `CreateParts` |
| CategoryService.BuildUpdateForm | src/services/categoryService.ts:60-70 | the appended `FormData` parts are `UpdateParts` |
| CategoryService.CategoryClient.GetCategories | src/services/categoryService.ts:27-30 | `GET /categories` through the pipeline, then its payload |
| CategoryService.CategoryClient.GetCategoryById | src/services/categoryService.ts:31-34 | `GET /categories/<id>` through the pipeline, then its payload |
| CategoryService.CategoryClient.CreateCategory | src/services/categoryService.ts:35-56 | `POST /categories` with the multipart form and header, then its payload |
| CategoryService.CategoryClient.UpdateCategory | src/services/categoryService.ts:57-82 | `PUT /categories/<id>` with the multipart form and header, then its payload |
| FileUpload.Accepts | src/components/ui/ThemedFileUpload.tsx:61-71 | `validateFile`'s test: an asset is refused exactly when its size is truthy and greater than `maxSizeInMB * 1024 * 1024` (a predicate; `LimitIsInclusive` and `PickerEffect` state its consequences) |
| FileUpload.ToUploaded | src/components/ui/ThemedFileUpload.tsx:92-98 | the record handed to `onFileSelect`, the asset's fields with a null uri as `""` (a definition); `FileUpload.PickerEffect` states when it is built (an accepted `assets[0]` only), and `FileUpload.SelectedWithinLimit` that its size is then within the limit |
| FileUpload.PickerEffect | src/components/ui/ThemedFileUpload.tsx:73-103 | a cancel does nothing; an error code reports the message (default "Failed to pick image"); a first asset within the limit is selected; one over it reports the size message; no asset does nothing |
| FileUpload.SelectedWithinLimit | src/components/ui/ThemedFileUpload.tsx:61-71 | a selected file's size is missing, 0 or at most `maxSizeInMB` MiB |
| FileUpload.LimitIsInclusive | src/components/ui/ThemedFileUpload.tsx:64 | exactly `maxSizeInMB` MiB is accepted; one byte more is refused |
| FileUpload.OnlyFirstAssetCounts | src/components/ui/ThemedFileUpload.tsx:88 | assets after the first change nothing |
| FileUpload.FileUploadState.constructor | src/components/ui/ThemedFileUpload.tsx:56-60 | the selection starts as the `value` prop, with loading off |
| FileUpload.FileUploadState.StartPicking | src/components/ui/ThemedFileUpload.tsx:123-137 | the camera and gallery handlers set `loading` and change nothing else |
| FileUpload.FileUploadState.HandlePickerResponse | src/components/ui/ThemedFileUpload.tsx:73-103 | clears `loading`, then applies `PickerEffect`: a selection sets the file and calls `onFileSelect`; an error calls `onError` |
| FileUpload.FileUploadState.HandleRemove | src/components/ui/ThemedFileUpload.tsx:150-153 | clears the selection and calls `onFileSelect(null)` |
| ThemeContext.SystemTheme | src/context/ThemeContext.tsx:26-29 | dark exactly for a dark system scheme; no preference counts as light |
| ThemeContext.ThemeFromMode | src/context/ThemeContext.tsx:31-36 | the dark palette exactly for dark mode, or for system mode under a dark scheme |
| ThemeContext.DarkForMatchesPalette | src/context/ThemeContext.tsx:86-89 | the `isDark` flag and the palette chosen for the same mode agree |
| ThemeContext.ParseMode | src/context/ThemeContext.tsx:49-52 | a stored value is adopted exactly when it is `light`, `dark` or `system` |
| ThemeContext.ModeNameRoundTrip | src/context/ThemeContext.tsx:49-52 | a stored mode reads back as itself, and a mode read back was stored exactly so |
| ThemeContext.NextMode | src/context/ThemeContext.tsx:97-109 | a toggle always moves to a different mode |
| ThemeContext.ThreeTogglesReturn | src/context/ThemeContext.tsx:97-109 | three toggles return to the start and pass through every mode |
| ThemeContext.ThemeProvider.constructor | src/context/ThemeContext.tsx:41-43 | starts in system mode, with palette and flag from the current scheme |
| ThemeContext.ThemeProvider.LoadTheme | src/context/ThemeContext.tsx:46-62 | adopts a valid stored mode with its palette; a rejected read or an unknown value changes nothing; the store is only read |
| ThemeContext.ThemeProvider.OnAppearanceChange | src/context/ThemeContext.tsx:68-75 | only in system mode does the palette follow the new scheme; the mode never changes |
| ThemeContext.ThemeProvider.SetTheme | src/context/ThemeContext.tsx:82-95 | persists the mode name first; only when that write goes through do mode, palette and flag change |
| ThemeContext.ThemeProvider.ToggleTheme | src/context/ThemeContext.tsx:97-109 | `setTheme` of the next mode in the cycle: the write of its name is logged; if it goes through, the store holds that name and mode, palette and flag are the next mode's; if it rejects, the store and the state are unchanged; the state invariant (flag matches palette, palette matches a fixed mode) is kept |
| RegisterScreen.RegisterPhonePattern | src/screens/RegisterScreen.tsx:46 | `/^\+?[1-9]\d{1,14}$/`: an optional `+`, a digit 1-9, then 1 to 14 more digits (a predicate; used by `RegisterErrors`) |
| RegisterScreen.RequiredErrors | src/screens/RegisterScreen.tsx:24-32 | one message exactly for each empty required field; the phone is not required |
| RegisterScreen.RegisterErrors | src/screens/RegisterScreen.tsx:22-49 | no error exactly when every check passes; otherwise only the first failing check is reported, in the order required, mismatch, length, phone |
| RegisterScreen.OnlyFirstFailureReported | src/screens/RegisterScreen.tsx:36-49 | once the required fields are filled, at most one error is shown |
| RegisterScreen.MismatchBeforeLength | src/screens/RegisterScreen.tsx:36-44 | differing passwords are reported as a mismatch even when too short |
| RegisterScreen.BlankNameIsPresent | src/screens/RegisterScreen.tsx:24-26 | the emptiness checks do not trim: a name of blanks passes them |
| RegisterScreen.RegisterScreenState.HandleRegister | src/screens/RegisterScreen.tsx:21-60 | `register` is called exactly when there is no validation error, and then with the form's fields; otherwise the errors are shown and nothing is sent; a rejection shows the server's message or the fallback |
| CreateBusinessScreen.BusinessPhonePattern | src/screens/CreateBusinessScreen.tsx:91 | `/^\+?[0-9]{7,15}$/`: an optional `+`, then 7 to 15 digits and nothing else (a predicate; used by `ValidationErrors`) |
| CreateBusinessScreen.ValidationErrors | src/screens/CreateBusinessScreen.tsx:79-100 | an error exactly for each blank name, type and currency, and for a blank or malformed phone, with the source's messages; a non-empty phone that fails gets "Invalid phone number" (the later assignment wins), an empty one "Phone number is required"; no error exactly when the form is valid |
| CreateBusinessScreen.BlankPhoneIsInvalid | src/screens/CreateBusinessScreen.tsx:88-94 | a phone of blanks is rejected by the pattern |
| CreateBusinessScreen.CollectErrors | src/screens/CreateBusinessScreen.tsx:79-100 | `validate`'s successive assignments build exactly `ValidationErrors(f)`, which is empty exactly when the form is valid |
| CreateBusinessScreen.DropSpaces | src/screens/CreateBusinessScreen.tsx:111 | strips the leading run of whitespace, leaving a suffix of the input |
| CreateBusinessScreen.Slug | src/screens/CreateBusinessScreen.tsx:111 | the slug is no longer than the name and has neither whitespace nor upper-case letters; the rule itself (lower-case, one `-` per whitespace run) is stated by `SlugOfWord` and `SlugSplit` |
| CreateBusinessScreen.SlugOfWord | src/screens/CreateBusinessScreen.tsx:111 | a name without whitespace is lower-cased character by character: `Slug(s) == seq(\|s\|, i => Lower(s[i]))` |
| CreateBusinessScreen.SlugSplit | src/screens/CreateBusinessScreen.tsx:111 | a maximal whitespace run between two parts becomes exactly one `-`: `Slug(a + ws + b) == Slug(a) + "-" + Slug(b)` when `ws` is a non-empty run, `a` does not end in whitespace and `b` does not start with it |
| CreateBusinessScreen.SlugOfSlugLike | src/screens/CreateBusinessScreen.tsx:111 | a string already free of whitespace and capitals is its own slug |
| CreateBusinessScreen.SlugIdempotent | src/screens/CreateBusinessScreen.tsx:111 | making a slug of a slug changes nothing |
| CreateBusinessScreen.SlugLeadingDash | src/screens/CreateBusinessScreen.tsx:111 | a name starting with whitespace gives a slug starting with `-` (no trimming) |
| CreateBusinessScreen.SlugTrailingDash | src/screens/CreateBusinessScreen.tsx:111 | a name ending with whitespace gives a slug ending with `-` |
| CreateBusinessScreen.LogoFile | src/screens/CreateBusinessScreen.tsx:115-119 | the logo part defaults the uri to `""`, the name to `logo.jpg` and the type to `image/jpeg`; the name and type are never empty |
| CreateBusinessScreen.PickedLogo | src/screens/CreateBusinessScreen.tsx:63-75 | the logo changes only for a non-cancelled, error-free response whose first asset has a uri, and then takes that asset's values |
| CreateBusinessScreen.CreatePayload | src/screens/CreateBusinessScreen.tsx:108-120 | the slug of the name, the form's fields, the logo part, the route's shopkeeper id and email; the slug is URL-safe (no whitespace, no capital) and already its own slug; the logo always has a name and a type |
| CreateBusinessScreen.CreateBusinessState.PickLogo | src/screens/CreateBusinessScreen.tsx:54-77 | the logo state becomes `PickedLogo`; nothing else changes |
| CreateBusinessScreen.CreateBusinessState.HandleCreate | src/screens/CreateBusinessScreen.tsx:102-128 | the errors shown are `ValidationErrors(f)`; `createBusiness` is called exactly when the form is valid, and then with `CreatePayload`; the screen moves to the OTP screen only when that call succeeds; the logo is unchanged |
| OtpScreen.Join | src/screens/OTPScreen.tsx:74 | `otp.join('')`: the cells concatenated in order (a helper function; its properties are the next two rows' lemmas) |
| OtpScreen.JoinFull | src/screens/OTPScreen.tsx:74-75 | the joined code of one-character cells has length 6 exactly when no cell is empty |
| OtpScreen.JoinDigits | src/screens/OTPScreen.tsx:52-57 | joining digit cells gives a string of digits |
| OtpScreen.VerifiedCodeIsComplete | src/screens/OTPScreen.tsx:73-82 | a code that passes the length check is six digits, one from each cell |
| OtpScreen.LastIndexOf | src/screens/OTPScreen.tsx:118 | the greedy `(.*)` ends at the last `@`: the index found holds `@` and none follows it |
| OtpScreen.Mask | src/screens/OTPScreen.tsx:118 | with an `@` at index 2 or later: the first two characters, `***`, then everything from the last such `@`; otherwise the address is unchanged |
| OtpScreen.MaskKeepsDomain | src/screens/OTPScreen.tsx:118 | the masked address keeps the domain after the last `@` |
| OtpScreen.MaskIdempotent | src/screens/OTPScreen.tsx:118 | masking twice gives what masking once gives |
| OtpScreen.OtpScreenState.constructor | src/screens/OTPScreen.tsx:29-33 | six empty cells, no error, a 60-second timer, resend disabled |
| OtpScreen.OtpScreenState.MaskedContact | src/screens/OTPScreen.tsx:118 | a masked address is shown exactly when an email was passed; the shown text is stable (masking it again changes nothing); `OtpScreen.MaskKeepsDomain` states that its domain part is the address's own |
| OtpScreen.OtpScreenState.Tick | src/screens/OTPScreen.tsx:40-49 | the timer counts down to 0 and resend becomes possible exactly at 0 |
| OtpScreen.OtpScreenState.HandleOtpChange | src/screens/OTPScreen.tsx:51-65 | a non-digit value is ignored; a digit or an empty value is stored in its cell and clears the error; a digit in cells 0-4 moves focus to the next cell |
| OtpScreen.OtpScreenState.HandleKeyPress | src/screens/OTPScreen.tsx:67-71 | Backspace on an empty cell other than the first moves focus back one cell |
| OtpScreen.OtpScreenState.HandleVerify | src/screens/OTPScreen.tsx:73-91 | an incomplete code shows the incomplete message and calls nothing; a complete code is sent to `verifyOtp` as `{code, email}`; a success keeps the cells and caches the access token; a rejection shows the server's message or the fallback, empties the cells and focuses the first one; loading, the timer, the resend count and the session's cache flag never change, and focus moves only on a rejection |
| OtpScreen.OtpScreenState.HandleResend | src/screens/OTPScreen.tsx:93-116 | does nothing before the timer ends; a success restarts the 60-second timer, empties the cells and focuses the first one; a failure shows the server's message or the fallback and keeps the cells, the timer and the focus; loading is always cleared; no verification is recorded |

## Left out

- Concurrency: requests, interceptors and React state updates are modelled one at a time. Parallel 401s, which would each start their own refresh, interleaved awaits and the order of re-renders are not modelled.
- Storage.Store.MultiRemove: a rejecting `multiRemove` is not modelled; the model removes the keys unconditionally.
- axios's header merging, its request/response object shapes beyond the modelled fields, `validateStatus` other than the default, and the timeout (the instance sets none) are not modelled.
- A payload that lacks the token fields where the code reads them (a JavaScript `TypeError`, or `undefined` written to the store) is modelled as one `PayloadError`.
- Console logging is left out. So are alerts, navigation other than the create-business screen's move to the OTP screen, and everything about rendering and styling.
- `authService.verifyOTP`, `authService.createBusiness` and `authService.resendOTP` are missing from authService.ts, so as written every call rejects with a `TypeError`. Their outcomes are parameters of the methods that call them, and a `Failure` outcome is that case. The error a missing operation throws carries no response, so `Http.ServerMessage` gives the fallback for it.
- The mutations' `isPending` flags in the `useAuth` hook are not modelled; only the cached token and the cache clear are.
- The higher-level hooks over the category service and the service for device information are not part of this model.
- AuthService.TokenWrites: `expiresIn` is taken as an integer, and its decimal rendering is what JavaScript's `toString()` gives only for integers below 1e21. A fractional value, or one of 1e21 or more (written in exponent form), would be stored differently.
- Text.IntToString: the elapsed-seconds count and `expiresIn` are integers; JavaScript's exponent form for magnitudes of 1e21 or more is not modelled.
- Api.TokenWriteFailureInvalidates: the store decides failure per key, for reads and writes alike. So in the pipeline a token write never rejects after the read of the same key went through (a transient failure is not modelled). The lemma states the write-failure path on `AfterRefreshPost` directly, for any store.
- DeviceInfo.FormateDate: `new Date(str)` parsing, `Date.now()` and `toLocaleString` are inputs: the parsed timestamp (or none), the current time and the localized text.
- Text.IsSpace: JavaScript's `\s` and `trim` are taken over ASCII whitespace only, and `toLowerCase` over ASCII letters only. Unicode whitespace and case mapping are not modelled.
- OtpScreen.Mask: `.` in the masking regex is taken to match any character. Addresses containing line terminators, which `.` does not match, are not modelled.
- RegisterScreen.PasswordLongEnough: the length is counted in characters, not in UTF-16 code units.
- FileUpload.MaxBytes: `maxSizeInMB` is a natural number. A fractional limit is not modelled.
- ImagePicker.HasAsset: an absent `didCancel` is modelled as false, and the picker options (quality, size) are not modelled.
- The create-business form's phone is validated but not sent: the payload has no phone field, as in the source.
