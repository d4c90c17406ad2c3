/** The two copies of AuthViewModel: `auth/AuthViewModel.kt`, which registers the FCM
    token fetched from the messaging repository, and the older top-level
    `AuthViewModel.kt`, which always registers the fixed push token "EXAMPLE" (and is the
    one MainActivity uses). The repository, the FCM token fetch and `POST /auth` are
    calls into code outside the model: their results are parameters, and the calls a
    coroutine makes are returned in order as `Call` values. `registerInApi` is split into
    the calls it makes (`RegisterCalls`) and its completion (`RegisterCompleted`). */
module AuthViewModels {
  import opened Wrappers
  import opened Session

  /** An outside call made by a sign-in coroutine, in the order it is made. */
  datatype Call =
    | SignInWithPassword(email: string, pass: string)
    | CreateAccount(email: string, pass: string)
    | SignInWithCredential(idToken: string)
    | FetchFcmToken
    | PostAuth(pushToken: string)

  /** The outcome of a repository call. Every sign-in coroutine ignores it. */
  datatype Outcome = Succeeded | Failed

  /** The push token the older copy registers, whatever the device's FCM token is. */
  const FixedPushToken := "EXAMPLE"

  /** The calls of `registerInApi` in `auth/AuthViewModel.kt`: fetch the FCM token, then
      post it as the register payload. */
  function RegisterCalls(fcmToken: string): (r: seq<Call>)
    ensures |r| == 2 && r[0] == FetchFcmToken && r[1].PostAuth? && r[1].pushToken == fcmToken
  {
    [FetchFcmToken, PostAuth(fcmToken)]
  }

  /** `auth/AuthViewModel.kt`. */
  class AuthViewModel {
    const session: SessionManager
    const provider: FirebaseAuthTokenProvider
    const listener: TokenListener

    /** `init`: start listening with a listener that writes the session token. */
    constructor (session: SessionManager)
      ensures this.session == session && listener.session == session
      ensures fresh(provider) && fresh(listener)
      ensures provider.listener == Some(listener) && provider.registered
    {
      this.session := session;
      var p := new FirebaseAuthTokenProvider();
      var l := new TokenListener(session);
      p.StartListening(l);
      provider := p;
      listener := l;
    }

    /** `onCleared`: stop listening. */
    method OnCleared()
      modifies provider
      ensures provider.listener == None && !provider.registered
    {
      provider.StopListening();
    }

    /** `signIn`: the password sign-in, then `registerInApi` whatever its outcome. */
    method SignIn(email: string, pass: string, outcome: Outcome, fcmToken: string) returns (calls: seq<Call>)
      ensures |calls| == 3 && calls[0] == SignInWithPassword(email, pass)
      ensures calls[1..] == RegisterCalls(fcmToken)
    {
      calls := [SignInWithPassword(email, pass)] + RegisterCalls(fcmToken);
    }

    /** `signUp`: account creation, then `registerInApi` whatever its outcome. */
    method SignUp(email: string, pass: string, outcome: Outcome, fcmToken: string) returns (calls: seq<Call>)
      ensures |calls| == 3 && calls[0] == CreateAccount(email, pass)
      ensures calls[1..] == RegisterCalls(fcmToken)
    {
      calls := [CreateAccount(email, pass)] + RegisterCalls(fcmToken);
    }

    /** `signInWithGoogle`: the credential sign-in, then `registerInApi` whatever its
        outcome. */
    method SignInWithGoogle(idToken: string, outcome: Outcome, fcmToken: string) returns (calls: seq<Call>)
      ensures |calls| == 3 && calls[0] == SignInWithCredential(idToken)
      ensures calls[1..] == RegisterCalls(fcmToken)
    {
      calls := [SignInWithCredential(idToken)] + RegisterCalls(fcmToken);
    }

    /** The response of `POST /auth` arrives and, for 201 only, the forced
        `getIdToken(true)` completes; its success listener writes the session token
        (null included), a failed refresh writes nothing. */
    method RegisterCompleted(code: int, forced: Fetch) returns (forceRefresh: Option<bool>)
      modifies session
      ensures forceRefresh == ForcedRefreshFor(code)
      ensures session.token == Apply(old(session.token), RegisterReply(code, forced))
    {
      forceRefresh := ForcedRefreshFor(code);
      if code == Created {
        match forced {
          case FetchSucceeded(t) => session.token := t;
          case FetchFailed =>
        }
      }
    }
  }

  /** The older copy, `AuthViewModel.kt`: the same listener set-up and sequencing, but
      the register payload is always `FixedPushToken` and no FCM token is fetched. */
  class LegacyAuthViewModel {
    const session: SessionManager
    const provider: FirebaseAuthTokenProvider
    const listener: TokenListener

    constructor (session: SessionManager)
      ensures this.session == session && listener.session == session
      ensures fresh(provider) && fresh(listener)
      ensures provider.listener == Some(listener) && provider.registered
    {
      this.session := session;
      var p := new FirebaseAuthTokenProvider();
      var l := new TokenListener(session);
      p.StartListening(l);
      provider := p;
      listener := l;
    }

    method OnCleared()
      modifies provider
      ensures provider.listener == None && !provider.registered
    {
      provider.StopListening();
    }

    /** `signIn` (AuthViewModel.kt:36-40): `repo.signIn` (line 37), then `registerInApi`
        (line 39), whose one call is `POST /auth` with "EXAMPLE" (line 55). */
    method SignIn(email: string, pass: string, outcome: Outcome) returns (calls: seq<Call>)
      ensures calls == [SignInWithPassword(email, pass), PostAuth(FixedPushToken)]
    {
      calls := [SignInWithPassword(email, pass), PostAuth(FixedPushToken)];
    }

    /** `signUp` (AuthViewModel.kt:42-46): `repo.signUp` (line 43), then `registerInApi`
        (line 45). */
    method SignUp(email: string, pass: string, outcome: Outcome) returns (calls: seq<Call>)
      ensures calls == [CreateAccount(email, pass), PostAuth(FixedPushToken)]
    {
      calls := [CreateAccount(email, pass), PostAuth(FixedPushToken)];
    }

    /** `signInWithGoogle` (AuthViewModel.kt:48-52): `repo.signInWithGoogle` (line 49),
        then `registerInApi` (line 51). */
    method SignInWithGoogle(idToken: string, outcome: Outcome) returns (calls: seq<Call>)
      ensures calls == [SignInWithCredential(idToken), PostAuth(FixedPushToken)]
    {
      calls := [SignInWithCredential(idToken), PostAuth(FixedPushToken)];
    }

    method RegisterCompleted(code: int, forced: Fetch) returns (forceRefresh: Option<bool>)
      modifies session
      ensures forceRefresh == ForcedRefreshFor(code)
      ensures session.token == Apply(old(session.token), RegisterReply(code, forced))
    {
      forceRefresh := ForcedRefreshFor(code);
      if code == Created {
        match forced {
          case FetchSucceeded(t) => session.token := t;
          case FetchFailed =>
        }
      }
    }
  }

  /** A client: a 200 reply to `POST /auth` leaves the token exactly as the listener last
      wrote it, and a later sign-out clears it. */
  method OkIsNotCreated(session: SessionManager, t: string)
    modifies session
    ensures session.token == None
  {
    var vm := new AuthViewModel(session);
    vm.provider.TokenFetched(FetchSucceeded(Some(t)));
    assert session.token == Some(t);
    var refresh := vm.RegisterCompleted(200, FetchSucceeded(None));
    assert refresh == None && session.token == Some(t);
    var fetch := vm.provider.AuthStateChanged(false);
  }
}
