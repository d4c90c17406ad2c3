# Airsense mobile — a Dafny model of the app's logic

Airsense is an Android client for an air-quality backend. A user signs in with Firebase
Authentication (e-mail and password, or a Google ID token). Every sign-in is followed
by a `POST /auth` registration. Its push token is the fixed value "EXAMPLE" in the copy
of AuthViewModel that MainActivity uses; only FCM's `onNewToken` registers the device's
real push token. The app browses the user's environments, and the rooms of each
environment, as paged lists. `AuthInterceptor` adds the ID token held by
`org.yooud.airsense.auth.SessionManager` to each request as a bearer header when there
is one, and the request goes out unchanged otherwise. The copy of AuthViewModel that
MainActivity uses writes the `SessionManager` of the root package `org.yooud.airsense`
instead. That is a different, same-named object (see "## Left out"). This project models the app's logic in Dafny and proves what that logic
guarantees:

- **`Paging`, `PagedLoading`** (`paging.dfy`, `loader.dfy`) — the pagination engine
  shared by `EnvironmentViewModel` and `EnvironmentDetailViewModel`.
  - It is one generic class, `Loader<T>`, whose methods are specified by pure transition
    functions.
  - Calls and responses are separate steps, so every interleaving is a trace of events.
  - The lemmas cover traces: the offset accounting, that every request uses the loader's
    endpoint, and how many requests are in flight compared with the two flags.
  - They also cover the list against an unchanging backend: whether the list stays a
    prefix of the backend's data.
- **`Session`** (`session.dfy`) — a session token object, written by:
  - the `TokenListener` that each AuthViewModel copy installs on the session object of
    its own package;
  - `FirebaseAuthTokenProvider`'s dispatch of auth-state changes;
  - the forced token refresh after a 201 reply to `POST /auth`.

  The token is proved to be a last-writer-wins register.
- **`AuthViewModels`** (`auth_view_model.dfy`) — both AuthViewModel copies.
  - the listener set-up and tear-down;
  - the outside calls each sign-in coroutine makes, in order;
  - the completion of `registerInApi`.
- **`Network`** (`interceptor.dfy`) — `AuthInterceptor`, which appends one bearer header
  when a token is present.
- **`Messaging`** (`messaging.dfy`) — the FCM service:
  - which title and body a push shows;
  - the 32-bit notification id counter;
  - the registration of a new FCM token.
- **`Navigation`** (`navigation.dfy`) — the screen state of `EnvironmentActivity` and
  `MainActivity`, and the Google credential check.
- **`Text`, `Forms`, `Screens`** (`text.dfy`, `forms.dfy`, `screens.dfy`):
  - Kotlin's `isBlank`, `lowercase` and `replaceFirstChar`;
  - the login and registration forms;
  - the list screens: the scroll trigger, the gesture wiring, the list rows, the role
    classification and the parameter rows.

External services are parameters. A page response is `Option<seq<T>>`, where `None`
means the call threw or the body was null. An HTTP status is an `int`. A Firebase token
task's result is a `Fetch`. The outside calls a coroutine makes are returned as values.

The model follows the code as written; in particular:

- **No `hasMore` flag.**
  - `loadMore` is guarded only by `isLoadingMore` and `isRefreshing`.
  - A short or empty page does not stop further requests (`Paging.ShortPageKeepsLoading`).
  - An empty page changes nothing at all.
- **Refresh has no guard.**
  - Calling refresh again while one is running sends a second request.
  - The first response then clears `isRefreshing` while a refresh is still in flight
    (`Paging.RefreshFlagClearedEarly`).
  - A refresh can start while a loadMore is in flight, so both flags can be true at once
    (`Paging.BothFlagsAtOnce`).
  - The flags still keep at most one loadMore in flight (`Paging.ReachableCoherent`).
- **The offset is never reset.**
  - It starts at `pageSize`, not 0.
  - A refresh never changes it.
  - So a refresh after a successful loadMore leaves a gap against an unchanging backend
    (`Paging.RefreshAlignedIff`).
  - A first page shorter than `pageSize` leaves the offset past the end of the data
    (`Paging.FirstRefreshAlignedIff`).
- **Sign-in registration.**
  - Every sign-in coroutine calls `registerInApi` whatever the sign-in's outcome.
  - The copy of AuthViewModel that MainActivity uses registers the fixed push token
    "EXAMPLE".
- **Stale results are not discarded.** A forced refresh that completes after a sign-out
  puts a token back into the session (`Session.LateRefreshAfterSignOut`).

## Model

Source paths are relative to the repository root.

| member | source | states |
|---|---|---|
| Paging.BeginRefresh | app/src/main/java/org/yooud/airsense/env/EnvironmentViewModel.kt:32-34 | calling refresh sets `isRefreshing` with no guard and changes nothing else |
| Paging.RefreshRequest | app/src/main/java/org/yooud/airsense/env/EnvironmentViewModel.kt:37 | a refresh asks the loader's endpoint for skip 0 and count `pageSize` |
| Paging.EndRefresh | app/src/main/java/org/yooud/airsense/env/EnvironmentViewModel.kt:36-43 | a page replaces the items wholesale; a failure keeps them; the offset, the loadMore flag and the configuration are untouched; `isRefreshing` ends false in every case |
| Paging.BeginLoadMore | app/src/main/java/org/yooud/airsense/env/EnvironmentViewModel.kt:47-51 | only the loadMore flag may change, and it ends set exactly when it already was or no refresh is shown |
| Paging.LoadMoreRequest | app/src/main/java/org/yooud/airsense/env/EnvironmentViewModel.kt:48-54 | a request is sent if and only if both flags are false, and then it is one page at `currentSkip` |
| Paging.EndLoadMore | app/src/main/java/org/yooud/airsense/env/EnvironmentViewModel.kt:53-64 | the old items are a prefix of the new ones; the suffix is exactly the delivered page (nothing on failure); the offset advances by exactly the number of items added; the loadMore flag ends false and the refresh flag is untouched |
| Paging.ShortPageKeepsLoading | app/src/main/java/org/yooud/airsense/env/EnvironmentViewModel.kt:48-58 | after any loadMore response, even a short or empty page, the next loadMore sends a request at the advanced offset |
| Paging.SkipAccounting | app/src/main/java/org/yooud/airsense/env/EnvironmentViewModel.kt:26-66 | along any trace the offset grows by exactly the total length of the pages loadMore appended; endpoint and page size never change |
| Paging.SkipFromConstruction | app/src/main/java/org/yooud/airsense/env/EnvironmentViewModel.kt:26-30 | from construction on, the offset is `pageSize` plus everything appended, so never below `pageSize` |
| Paging.SkipMonotone | app/src/main/java/org/yooud/airsense/env/EnvironmentViewModel.kt:56-59 | the offset never decreases from a prefix of a trace to the whole trace |
| Paging.RequestsKeepEndpoint | app/src/main/java/org/yooud/airsense/env/EnvironmentDetailViewModel.kt:41-58 | every request a loader sends over any trace names its own endpoint (so its environment id) and its page size |
| Paging.CoherentAlways | app/src/main/java/org/yooud/airsense/env/EnvironmentViewModel.kt:47-66 | along any feasible trace at most one loadMore is in flight, `isLoadingMore` holds exactly while it is, and `isRefreshing` only while some refresh is |
| Paging.ReachableCoherent | app/src/main/java/org/yooud/airsense/env/EnvironmentViewModel.kt:28-66 | the same holds for every trace starting from a constructed loader |
| Paging.RefreshFlagClearedEarly | app/src/main/java/org/yooud/airsense/env/EnvironmentViewModel.kt:32-45 | with two refreshes started and one answered, a refresh is in flight while `isRefreshing` is false |
| Paging.BothFlagsAtOnce | app/src/main/java/org/yooud/airsense/env/EnvironmentViewModel.kt:32-51 | a refresh called while a loadMore is in flight leaves both flags true |
| Paging.LoadMoreKeepsAligned | app/src/main/java/org/yooud/airsense/env/EnvironmentViewModel.kt:53-59 | against an unchanging backend, a loadMore that succeeds or fails keeps the items equal to the first `currentSkip` records |
| Paging.RefreshAlignedIff | app/src/main/java/org/yooud/airsense/env/EnvironmentViewModel.kt:32-38 | a successful refresh leaves the list aligned with the backend if and only if the offset equals the first page's length |
| Paging.FirstRefreshAlignedIff | app/src/main/java/org/yooud/airsense/env/EnvironmentViewModel.kt:26-38 | the construction refresh aligns the list if and only if the backend holds at least `pageSize` records |
| PagedLoading.Loader.constructor | app/src/main/java/org/yooud/airsense/env/EnvironmentViewModel.kt:11-30 | empty items, offset `pageSize`, loadMore idle, and the `init` refresh started |
| PagedLoading.Loader.Refresh | app/src/main/java/org/yooud/airsense/env/EnvironmentViewModel.kt:32-37 | the new state is `BeginRefresh` of the old; sends `RefreshRequest`; `refreshRooms` (EnvironmentDetailViewModel.kt:35-41) is the same method on a `Rooms` loader |
| PagedLoading.Loader.RefreshResponse | app/src/main/java/org/yooud/airsense/env/EnvironmentViewModel.kt:36-43 | the new state is `EndRefresh` of the old and the response; likewise for the rooms (EnvironmentDetailViewModel.kt:39-47) |
| PagedLoading.Loader.LoadMore | app/src/main/java/org/yooud/airsense/env/EnvironmentViewModel.kt:47-54 | the new state is `BeginLoadMore` of the old; sends `LoadMoreRequest`, nothing when guarded; likewise `loadMoreRooms` (EnvironmentDetailViewModel.kt:51-58) |
| PagedLoading.Loader.LoadMoreResponse | app/src/main/java/org/yooud/airsense/env/EnvironmentViewModel.kt:53-64 | the new state is `EndLoadMore` of the old and the response, and the ghost count of appended records grows by the page length, so the invariant `currentSkip == pageSize + appended` is kept; likewise for the rooms (EnvironmentDetailViewModel.kt:57-68) |
| PagedLoading.NewEnvironmentViewModel | app/src/main/java/org/yooud/airsense/env/EnvironmentViewModel.kt:11-30 | a fresh loader on `GET /env` with a refresh in flight |
| PagedLoading.NewEnvironmentDetailViewModel | app/src/main/java/org/yooud/airsense/env/EnvironmentDetailViewModel.kt:13-33 | a fresh loader on the rooms of the given environment with a refresh in flight |
| PagedLoading.ScrollTwice | app/src/main/java/org/yooud/airsense/env/EnvironmentViewModel.kt:47-66 | page size 20: the first loadMore asks for offset 20 whatever the first page held, a second call in flight sends nothing, the next asks for 20 plus the page length |
| Session.ForcedRefreshFor | app/src/main/java/org/yooud/airsense/auth/AuthViewModel.kt:60-62 | a forced token refresh is issued if and only if the status is 201 |
| Session.Apply | app/src/main/java/org/yooud/airsense/auth/AuthViewModel.kt:20-66 | sign-out clears the token; a new ID token sets it; any status other than 201, or a failed forced refresh, keeps it; a successful forced refresh writes its result, null included |
| Session.TokenIsLastWrite | app/src/main/java/org/yooud/airsense/auth/AuthViewModel.kt:20-66 | after any sequence of events the token is the value of the last write, or the starting value if nothing wrote |
| Session.NonCreatedRepliesKeepToken | app/src/main/java/org/yooud/airsense/auth/AuthViewModel.kt:59-66 | any number of replies with a status other than 201 (200 included) leave the token unchanged |
| Session.LateRefreshAfterSignOut | app/src/main/java/org/yooud/airsense/auth/AuthViewModel.kt:25-66 | a forced refresh completing after a sign-out puts the token back |
| Session.CallbackFor | app/src/main/java/org/yooud/airsense/FirebaseAuthTokenProvider.kt:21-27 | `onNewIdToken` fires if and only if the fetch succeeded with a non-null token, and carries that token |
| Session.TokenListener.Deliver | app/src/main/java/org/yooud/airsense/auth/AuthViewModel.kt:21-28 | the session token becomes `Apply` of its old value and the callback |
| Session.FirebaseAuthTokenProvider.constructor | app/src/main/java/org/yooud/airsense/FirebaseAuthTokenProvider.kt:7-16 | no listener and not registered with Firebase |
| Session.FirebaseAuthTokenProvider.StartListening | app/src/main/java/org/yooud/airsense/FirebaseAuthTokenProvider.kt:33-36 | the listener replaces any previous one and the auth-state callback is registered |
| Session.FirebaseAuthTokenProvider.StopListening | app/src/main/java/org/yooud/airsense/FirebaseAuthTokenProvider.kt:38-41 | the callback is unregistered and the listener cleared |
| Session.FirebaseAuthTokenProvider.AuthStateChanged | app/src/main/java/org/yooud/airsense/FirebaseAuthTokenProvider.kt:18-31 | signed in: a non-forced token fetch is issued and nothing is written; signed out: the current listener's session is cleared |
| Session.FirebaseAuthTokenProvider.TokenFetched | app/src/main/java/org/yooud/airsense/FirebaseAuthTokenProvider.kt:21-27 | with a listener present at completion and a callback due, its session takes the token; otherwise nothing changes |
| Session.StoppedProviderDropsEvents | app/src/main/java/org/yooud/airsense/FirebaseAuthTokenProvider.kt:33-41 | after `stopListening` a late token fetch no longer reaches the old session |
| AuthViewModels.RegisterCalls | app/src/main/java/org/yooud/airsense/auth/AuthViewModel.kt:57-59 | `registerInApi` fetches the FCM token, then posts exactly that token |
| AuthViewModels.AuthViewModel.constructor | app/src/main/java/org/yooud/airsense/auth/AuthViewModel.kt:18-29 | a new provider is listening with a listener bound to the session |
| AuthViewModels.AuthViewModel.OnCleared | app/src/main/java/org/yooud/airsense/auth/AuthViewModel.kt:31-34 | the provider stops listening |
| AuthViewModels.AuthViewModel.SignIn | app/src/main/java/org/yooud/airsense/auth/AuthViewModel.kt:39-43 | the password sign-in, then the register calls, whatever the outcome |
| AuthViewModels.AuthViewModel.SignUp | app/src/main/java/org/yooud/airsense/auth/AuthViewModel.kt:45-49 | account creation, then the register calls, whatever the outcome |
| AuthViewModels.AuthViewModel.SignInWithGoogle | app/src/main/java/org/yooud/airsense/auth/AuthViewModel.kt:51-55 | the credential sign-in with the ID token, then the register calls, whatever the outcome |
| AuthViewModels.AuthViewModel.RegisterCompleted | app/src/main/java/org/yooud/airsense/auth/AuthViewModel.kt:57-66 | a forced refresh only for 201; the session token is updated as `Apply` says |
| AuthViewModels.LegacyAuthViewModel.constructor | app/src/main/java/org/yooud/airsense/AuthViewModel.kt:15-26 | a new provider is listening with a listener bound to the session |
| AuthViewModels.LegacyAuthViewModel.OnCleared | app/src/main/java/org/yooud/airsense/AuthViewModel.kt:28-31 | the provider stops listening |
| AuthViewModels.LegacyAuthViewModel.SignIn | app/src/main/java/org/yooud/airsense/AuthViewModel.kt:36-40 | the password sign-in, then a post of "EXAMPLE", whatever the outcome |
| AuthViewModels.LegacyAuthViewModel.SignUp | app/src/main/java/org/yooud/airsense/AuthViewModel.kt:42-46 | account creation, then a post of "EXAMPLE" |
| AuthViewModels.LegacyAuthViewModel.SignInWithGoogle | app/src/main/java/org/yooud/airsense/AuthViewModel.kt:48-52 | the credential sign-in, then a post of "EXAMPLE" |
| AuthViewModels.LegacyAuthViewModel.RegisterCompleted | app/src/main/java/org/yooud/airsense/AuthViewModel.kt:54-63 | a forced refresh only for 201; the session token is updated as `Apply` says |
| AuthViewModels.OkIsNotCreated | app/src/main/java/org/yooud/airsense/auth/AuthViewModel.kt:57-66 | a 200 reply keeps the listener's token, and a later sign-out clears it |
| Network.BearerToken | app/src/main/java/org/yooud/airsense/network/AuthInterceptor.kt:11 | a header value carries a token if and only if it starts with "Bearer " |
| Network.BearerValue | app/src/main/java/org/yooud/airsense/network/AuthInterceptor.kt:11 | `"Bearer $token"`: the prefix "Bearer " followed by exactly the token |
| Network.BearerRoundTrip | app/src/main/java/org/yooud/airsense/network/AuthInterceptor.kt:11 | the bearer value of a token gives back that token |
| Network.Intercept | app/src/main/java/org/yooud/airsense/network/AuthInterceptor.kt:9-14 | method, URL and body are untouched; without a token the request is unchanged; with one, exactly one header is appended after the existing ones |
| Network.AuthorizationAdded | app/src/main/java/org/yooud/airsense/network/AuthInterceptor.kt:9-13 | the `Authorization` values gain exactly the bearer value, after any existing ones; every other header name keeps its values |
| Network.InterceptIsReversible | app/src/main/java/org/yooud/airsense/network/AuthInterceptor.kt:9-13 | dropping the appended header gives back the original request |
| Network.InterceptWith | app/src/main/java/org/yooud/airsense/network/AuthInterceptor.kt:8-15 | the request that proceeds is `Intercept` of the request and the session's current token |
| Messaging.Content | app/src/main/java/org/yooud/airsense/fcm/MyFirebaseMessagingService.kt:46-56 | nothing is sent if and only if there is no notification part and the data map is empty; the notification part wins; missing fields default to "Airsense" and "" |
| Messaging.NotificationWins | app/src/main/java/org/yooud/airsense/fcm/MyFirebaseMessagingService.kt:46-50 | with a notification part the data map has no influence |
| Messaging.TitleDefaulting | app/src/main/java/org/yooud/airsense/fcm/MyFirebaseMessagingService.kt:48-53 | the shown title is "Airsense" if and only if the chosen source has no title or that very title |
| Messaging.Successor | app/src/main/java/org/yooud/airsense/fcm/MyFirebaseMessagingService.kt:95 | `notificationId++` adds one, and wraps from 2^31-1 to -2^31 |
| Messaging.IdsCount | app/src/main/java/org/yooud/airsense/fcm/MyFirebaseMessagingService.kt:95 | below the wrap, k sends from `id` use `id`, `id`+1, …, `id`+k-1 |
| Messaging.FirstIdsIncrease | app/src/main/java/org/yooud/airsense/fcm/MyFirebaseMessagingService.kt:26 | from 0, the first 2^31 notifications get strictly increasing, distinct ids 0, 1, … |
| Messaging.MessagingService.constructor | app/src/main/java/org/yooud/airsense/fcm/MyFirebaseMessagingService.kt:26 | the id counter starts at 0 |
| Messaging.MessagingService.SendNotification | app/src/main/java/org/yooud/airsense/fcm/MyFirebaseMessagingService.kt:73-96 | the notification carries the current id, title and body; the counter becomes its successor |
| Messaging.MessagingService.OnMessageReceived | app/src/main/java/org/yooud/airsense/fcm/MyFirebaseMessagingService.kt:42-57 | sends what `Content` selects with the current id and advances the counter; sends nothing and keeps the counter otherwise |
| Messaging.MessagingService.OnNewToken | app/src/main/java/org/yooud/airsense/fcm/MyFirebaseMessagingService.kt:34-40 | the new token itself is registered |
| Navigation.ShownFor | app/src/main/java/org/yooud/airsense/app/EnvironmentActivity.kt:49-67 | "list" shows the environment list, "settings" the settings screen and "environment" the detail screen of the stored id; nothing shows if and only if the name is none of the three |
| Navigation.EnvironmentNavigation.constructor | app/src/main/java/org/yooud/airsense/app/EnvironmentActivity.kt:45-46 | the list screen with id 0 |
| Navigation.EnvironmentNavigation.OnItemClick | app/src/main/java/org/yooud/airsense/app/EnvironmentActivity.kt:51-54 | from the list, opens the detail screen of the clicked environment's id |
| Navigation.EnvironmentNavigation.OnSettingsClick | app/src/main/java/org/yooud/airsense/app/EnvironmentActivity.kt:56-57 | from the list, opens settings and keeps the id |
| Navigation.EnvironmentNavigation.OnBack | app/src/main/java/org/yooud/airsense/app/EnvironmentActivity.kt:59-66 | from settings or detail, back to the list with the id kept |
| Navigation.EnvironmentNavigation.OnLogout | app/src/main/java/org/yooud/airsense/app/EnvironmentActivity.kt:30-34 | sign out first, then start MainActivity |
| Navigation.ScreenFor | app/src/main/java/org/yooud/airsense/app/MainActivity.kt:39-57 | a signed-in user always sees Home; otherwise Registration if and only if `showRegister`, and Login if and only if not |
| Navigation.MainNavigation.constructor | app/src/main/java/org/yooud/airsense/app/MainActivity.kt:36 | `showRegister` starts false |
| Navigation.MainNavigation.OnRegisterLink | app/src/main/java/org/yooud/airsense/app/MainActivity.kt:54 | from Login, switches to Registration |
| Navigation.MainNavigation.OnLogin | app/src/main/java/org/yooud/airsense/app/MainActivity.kt:52 | signs in with exactly the submitted e-mail and password |
| Navigation.MainNavigation.OnRegister | app/src/main/java/org/yooud/airsense/app/MainActivity.kt:43-46 | signs up with the submitted credentials and resets `showRegister` |
| Navigation.MainNavigation.OnSignInLink | app/src/main/java/org/yooud/airsense/app/MainActivity.kt:47 | from Registration, back to Login |
| Navigation.GoogleSignInFor | app/src/main/java/org/yooud/airsense/app/MainActivity.kt:97-105 | a Google sign-in starts if and only if the credential is custom and of the Google ID-token type, and then with its ID token |
| Text.NotBlankIff | app/src/main/java/org/yooud/airsense/ui/LoginScreen.kt:33 | a string is not blank if and only if some character is not whitespace |
| Text.LowercaseIdempotent | app/src/main/java/org/yooud/airsense/ui/EnvironmentsScreen.kt:201 | lower-casing twice is lower-casing once |
| Text.Capitalize | app/src/main/java/org/yooud/airsense/ui/EnvironmentDetailedScreen.kt:204 | same length; first character upper-cased, the rest unchanged |
| Text.IsWhitespace | app/src/main/java/org/yooud/airsense/ui/LoginScreen.kt:33 | the characters Kotlin's `isWhitespace` accepts on the JVM, which `isNotBlank` tests |
| Text.IsBlank | app/src/main/java/org/yooud/airsense/ui/LoginScreen.kt:33 | `isBlank`: empty, or every character is whitespace |
| Text.LowerChar | app/src/main/java/org/yooud/airsense/ui/EnvironmentsScreen.kt:201 | an ASCII capital letter becomes its small letter; every other character is kept |
| Text.UpperChar | app/src/main/java/org/yooud/airsense/ui/EnvironmentsScreen.kt:242 | `uppercaseChar`: an ASCII small letter becomes its capital; every other character is kept |
| Text.Lowercase | app/src/main/java/org/yooud/airsense/ui/EnvironmentsScreen.kt:201 | `lowercase()`: same length, each character lowered by `LowerChar` |
| Forms.LoginFormValid | app/src/main/java/org/yooud/airsense/ui/LoginScreen.kt:33 | valid if and only if e-mail and password each have a non-whitespace character |
| Forms.RegistrationFormValid | app/src/main/java/org/yooud/airsense/ui/RegistrationScreen.kt:53 | valid if and only if e-mail and password are non-blank and the password equals the confirmation; a valid form has a non-blank confirmation |
| Forms.LoginForm.constructor | app/src/main/java/org/yooud/airsense/ui/LoginScreen.kt:30-33 | both fields empty, so Sign In starts disabled |
| Forms.LoginForm.EmailChanged | app/src/main/java/org/yooud/airsense/ui/LoginScreen.kt:69-70 | the e-mail takes the typed value, the password is kept |
| Forms.LoginForm.PassChanged | app/src/main/java/org/yooud/airsense/ui/LoginScreen.kt:87-88 | the password takes the typed value, the e-mail is kept |
| Forms.LoginForm.ClearEmail | app/src/main/java/org/yooud/airsense/ui/LoginScreen.kt:73-79 | offered only for a non-empty e-mail; empties it and leaves the form invalid |
| Forms.LoginForm.Submit | app/src/main/java/org/yooud/airsense/ui/LoginScreen.kt:106-108 | enabled only on a valid form; passes exactly the current e-mail and password |
| Forms.RegistrationForm.constructor | app/src/main/java/org/yooud/airsense/ui/RegistrationScreen.kt:48-53 | all fields empty, the form invalid, no error |
| Forms.RegistrationForm.EmailChanged | app/src/main/java/org/yooud/airsense/ui/RegistrationScreen.kt:89-90 | sets the e-mail, keeps the rest, and `error` stays null |
| Forms.RegistrationForm.PassChanged | app/src/main/java/org/yooud/airsense/ui/RegistrationScreen.kt:99-100 | sets the password, keeps the rest, and `error` stays null |
| Forms.RegistrationForm.ConfirmPassChanged | app/src/main/java/org/yooud/airsense/ui/RegistrationScreen.kt:110-111 | sets the confirmation, keeps the rest, and `error` stays null, so the error text at lines 119-126 never shows |
| Forms.RegistrationForm.Submit | app/src/main/java/org/yooud/airsense/ui/RegistrationScreen.kt:129-131 | enabled only on a valid form; passes the e-mail and the password, which equals the confirmation |
| Screens.ShouldLoadMore | app/src/main/java/org/yooud/airsense/ui/EnvironmentsScreen.kt:81 | fires if and only if the list is non-empty and the first visible row is one of its last two; never on an empty list; the room list uses the same condition (EnvironmentDetailedScreen.kt:47) |
| Screens.TriggerMonotone | app/src/main/java/org/yooud/airsense/ui/EnvironmentsScreen.kt:81 | once it fires, it fires for every later first index |
| Screens.CallFor | app/src/main/java/org/yooud/airsense/ui/EnvironmentsScreen.kt:78-130 | a pull calls refresh; a scroll never does, and calls loadMore if and only if the trigger fires |
| Screens.OnGesture | app/src/main/java/org/yooud/airsense/ui/EnvironmentsScreen.kt:78-130 | the loader steps as the chosen call says; an idle scroll changes nothing; a scroll never touches `isRefreshing`; the room screen wires `loadMoreRooms` and `refreshRooms` the same way (EnvironmentDetailedScreen.kt:44-94) |
| Screens.CardRowsShape | app/src/main/java/org/yooud/airsense/ui/EnvironmentsScreen.kt:167-175 | one card per item, in order, with a spacer after every card but the last |
| Screens.ListRows | app/src/main/java/org/yooud/airsense/ui/EnvironmentsScreen.kt:167-190 | the cards, then a loading row exactly while `isLoadingMore`; the room list has the same rows (EnvironmentDetailedScreen.kt:112-138) |
| Screens.ShortListRetriggers | app/src/main/java/org/yooud/airsense/ui/EnvironmentsScreen.kt:79-83 | the loading row counts toward `totalItemsCount` (lines 177-189). On a one- or two-item list at position 0, an empty page shrinks the count, the trigger fires on the new count, and the loader repeats the request at the same offset |
| Screens.ListShowsEveryItem | app/src/main/java/org/yooud/airsense/ui/EnvironmentsScreen.kt:167-190 | the cards read back give exactly the items, in order |
| Screens.RoleKindOf | app/src/main/java/org/yooud/airsense/ui/EnvironmentsScreen.kt:201-212 | Owner, User or Admin if and only if the lower-cased role is "owner", "user" or "admin"; Other otherwise |
| Screens.RoleCaseInsensitive | app/src/main/java/org/yooud/airsense/ui/EnvironmentsScreen.kt:201-212 | roles that lower-case alike are classified alike |
| Screens.RoleOfLowercase | app/src/main/java/org/yooud/airsense/ui/EnvironmentsScreen.kt:201-207 | a role and its lower-cased form are classified alike |
| Screens.RoleLabel | app/src/main/java/org/yooud/airsense/ui/EnvironmentsScreen.kt:242 | the badge shows the role with its first character upper-cased, the rest unchanged |
| Screens.RowsOf | app/src/main/java/org/yooud/airsense/ui/EnvironmentDetailedScreen.kt:186-189 | one row per parameter, in order, each captioned with the capitalised name |
| Screens.ParameterRows | app/src/main/java/org/yooud/airsense/ui/EnvironmentDetailedScreen.kt:186-204 | null parameters give no rows; otherwise one row per parameter, in order |

## Left out

- **Coroutine scheduling.** `viewModelScope.launch`, `runBlocking`, `StateFlow` collection and
  `snapshotFlow` are not modelled.
  - Each call and each response is one atomic step, and interleavings are traces of such
    steps.
  - Truly parallel access to the flags is not modelled.
- **`snapshotFlow` / `collectLatest`.** The model does not capture that the flow delivers only
  changed (first index, total count) pairs. A scroll event is one trigger evaluation.
  Because the loading row is counted, the appearance and disappearance of that row are
  themselves such changes. `Screens.ShortListRetriggers` shows the consequence on a list of one or
  two items: after an empty page the trigger fires again and the same page is requested.
  Each request is made only after the previous one has finished, and the model does not
  claim that this loop ever ends.
- **Compose rendering.** The layout, theming, colours, dp values and typography are left out.
  So are SettingsScreen, HomeScreen and ModernTheme.
- **Firebase Auth, FCM, Credential Manager, Retrofit and OkHttp.** These are outside the
  model, and their results are parameters. AuthRepository, FirebaseMessagingRepository,
  ApiClient and both ApiService files are not part of this model.
- **Exceptions in `registerInApi`.** The model leaves out an exception thrown by the FCM
  token fetch, by `POST /auth` or by `currentUser!!`. Such an exception escapes the
  sign-in coroutine.
- **Firebase's listener list.** Firebase keeps its own list of auth-state listeners, and a
  second `startListening` adds the same callback again. This is reduced to the single
  `registered` flag.
- **`SessionManager`.** Its file is not part of this model. It is a class with one nullable
  token, and its initial value is a constructor parameter.
- **Same-named objects in two packages.** The model has one `SessionManager` class and one
  `FirebaseAuthTokenProvider` class for all users. Each user is given its session object
  as a parameter. The source resolves these names by package:
  - The legacy `AuthViewModel.kt` is in package `org.yooud.airsense` (line 1), and MainActivity.kt:21 uses it. It writes
    `org.yooud.airsense.SessionManager` (lines 20, 23, 60). Its `ApiClient.service` (line 55)
    also belongs to that package.
  - `auth/AuthViewModel.kt` is in package `org.yooud.airsense.auth`. It writes
    `org.yooud.airsense.auth.SessionManager`. It builds the `FirebaseAuthTokenProvider` of
    that package (line 18), whose file is not part of this model. It is modelled by the
    root-package class in `FirebaseAuthTokenProvider.kt`.
  - `AuthInterceptor` reads `org.yooud.airsense.auth.SessionManager`
    (AuthInterceptor.kt:5).

  So the model does not claim that a sign-in through MainActivity's copy makes requests
  carry a bearer header. Whether it does depends on files outside the model.
- **Floating point.** The parameter value, minimum, maximum and progress fraction
  (EnvironmentDetailedScreen.kt:210-217) are left out. So are these fields of
  `Parameter`.
- **The detail view model instance.** `EnvironmentDetailScreen` builds its default view
  model as an argument expression, so a new instance can be built on recomposition. The
  model treats one loader per detail screen.
- **Notification plumbing.** The notification channel, intent flags, pending intent and
  sound (MyFirebaseMessagingService.kt:59-94) are left out.
- Messaging.MessagingService.OnNewToken: models only the request it sends. The reply's
  status is ignored by the source. An exception from the blocking registration call
  (MyFirebaseMessagingService.kt:37-39) escapes `onNewToken` uncaught, and the model does
  not capture that failure.
- **Logging.** `Log` calls are left out, except where one changes control flow. Those
  cases are the two lines below.
- Paging.EndLoadMore: a failed loadMore is modelled as a quiet `None` that keeps the items.
  Both loaders log the failure with the two-argument `Log.e(tag, e.localizedMessage)`
  (EnvironmentViewModel.kt:61, EnvironmentDetailViewModel.kt:65). When the failure is the
  NullPointerException of `body()!!` on a reply without a body, its message is null, and
  Android's two-argument `Log.e` can throw on a null message. That exception would leave
  the `catch` after `finally` has cleared the flag. The loader state is then what
  `EndLoadMore(s, None)` says, but the coroutine fails, and that failure (an uncaught
  exception in `viewModelScope`) is not modelled.
- Paging.EndRefresh: the same applies to the room refresh, which logs with the two-argument
  form (EnvironmentDetailViewModel.kt:44). The environment refresh uses the
  three-argument form (EnvironmentViewModel.kt:40), which accepts a null message.
- Navigation.GoogleSignInFor: every custom credential of the Google ID-token type is
  treated as a sign-in with its token. `GoogleIdTokenCredential.createFrom`
  (MainActivity.kt:100) can throw on malformed credential data, and only
  `GetCredentialException` is caught (line 75). The model does not capture that crash
  path.
- Network.Intercept: always appends the header when a token is present. OkHttp's
  `addHeader` (AuthInterceptor.kt:11) throws on a value with non-ASCII or control
  characters. The model does not capture that failure. Firebase ID tokens are ASCII JWTs.
- Network.InterceptWith: the same `addHeader` failure is not modelled.
- Text.LowerChar: models `lowercaseChar` on ASCII letters only. It does not model the full
  Unicode case mapping of `lowercase()`.
- Text.UpperChar: models `uppercaseChar` on ASCII letters only. It does not model the full
  Unicode case mapping.
- PagedLoading.Loader.LoadMoreResponse: does not model the 32-bit overflow of `currentSkip`.
  The offset is an unbounded integer, because overflow would need more than 2^31 loaded
  records.
