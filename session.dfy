/** The session token and the listener that keeps it in sync with Firebase.
    - A `SessionManager.token` (whose file is not part of this model) is a
      `SessionManager` object with one nullable field.
    - Each AuthViewModel copy writes the `SessionManager` of its own package: the legacy
      copy writes `org.yooud.airsense`'s and the `auth` copy writes
      `org.yooud.airsense.auth`'s, which is the one the interceptor reads. So every user
      is given its session object as a parameter.
    - `FirebaseAuthTokenProvider.kt` is a listener slot and the dispatch of auth-state
      changes.
    - The anonymous listener object each copy installs is `TokenListener`. */
module Session {
  import opened Wrappers

  /** The two callbacks of `FirebaseAuthTokenProvider.TokenListener`. */
  datatype Callback = NewIdToken(token: string) | SignOut

  /** The result of a Firebase `getIdToken` task: failure, or success with a token that
      may be null. */
  datatype Fetch = FetchFailed | FetchSucceeded(token: Option<string>)

  /** Everything that writes the session token: a listener callback, or the completion
      of `registerInApi` with the HTTP status of `POST /auth` and, for status 201, the
      outcome of the forced token refresh (ignored for any other status). */
  datatype SessionEvent = Heard(callback: Callback) | RegisterReply(code: int, forced: Fetch)

  /** The only status that triggers the forced refresh: 201 Created. */
  const Created := 201

  /** What `registerInApi` does with the status: a forced refresh (`getIdToken(true)`) is
      issued only for 201. */
  function ForcedRefreshFor(code: int): (r: Option<bool>)
    ensures r.Some? <==> code == 201
    ensures r.Some? ==> r.value
  {
    if code == Created then Some(true) else None
  }

  /** The token after one event. */
  function Apply(token: Option<string>, e: SessionEvent): (r: Option<string>)
    ensures e == Heard(SignOut) ==> r == None
    ensures e.Heard? && e.callback.NewIdToken? ==> r == Some(e.callback.token)
    ensures e.RegisterReply? && e.code != 201 ==> r == token
    ensures e.RegisterReply? && e.forced.FetchFailed? ==> r == token
    ensures e.RegisterReply? && e.code == 201 && e.forced.FetchSucceeded? ==> r == e.forced.token
  {
    match e
    case Heard(NewIdToken(t)) => Some(t)
    case Heard(SignOut) => None
    case RegisterReply(code, forced) =>
      if ForcedRefreshFor(code).Some? && forced.FetchSucceeded? then forced.token else token
  }

  /** The token after a sequence of events, applied in order. */
  function ApplyAll(token: Option<string>, es: seq<SessionEvent>): Option<string>
    decreases |es|
  {
    if es == [] then token else ApplyAll(Apply(token, es[0]), es[1..])
  }

  /** The value an event writes, if it writes one at all. */
  function Written(e: SessionEvent): Option<Option<string>> {
    match e
    case Heard(NewIdToken(t)) => Some(Some(t))
    case Heard(SignOut) => Some(None)
    case RegisterReply(code, forced) =>
      if code == 201 && forced.FetchSucceeded? then Some(forced.token) else None
  }

  /** The value written by the last writing event of a trace, found from the end. */
  function LastWritten(es: seq<SessionEvent>): Option<Option<string>>
    decreases |es|
  {
    if es == [] then None
    else if Written(es[|es| - 1]).Some? then Written(es[|es| - 1])
    else LastWritten(es[..|es| - 1])
  }

  lemma {:induction false} ApplyAllSnoc(token: Option<string>, es: seq<SessionEvent>, e: SessionEvent)
    ensures ApplyAll(token, es + [e]) == Apply(ApplyAll(token, es), e)
    decreases |es|
  {
    if es != [] {
      assert (es + [e])[1..] == es[1..] + [e];
      ApplyAllSnoc(Apply(token, es[0]), es[1..], e);
    }
  }

  /** The session token is always the value of the last write, or the starting value if
      nothing wrote: the token is a plain last-writer-wins register. */
  lemma {:induction false} TokenIsLastWrite(token: Option<string>, es: seq<SessionEvent>)
    ensures ApplyAll(token, es) == LastWritten(es).GetOr(token)
    decreases |es|
  {
    if es != [] {
      var init, e := es[..|es| - 1], es[|es| - 1];
      assert es == init + [e];
      ApplyAllSnoc(token, init, e);
      TokenIsLastWrite(token, init);
    }
  }

  /** Replies with a status other than 201 (200 included) never change the token. */
  lemma {:induction false} NonCreatedRepliesKeepToken(token: Option<string>, es: seq<SessionEvent>)
    requires forall i :: 0 <= i < |es| ==> es[i].RegisterReply? && es[i].code != 201
    ensures ApplyAll(token, es) == token
    decreases |es|
  {
    if es != [] {
      NonCreatedRepliesKeepToken(Apply(token, es[0]), es[1..]);
    }
  }

  /** Nothing discards a stale result: a forced refresh that completes after a sign-out
      puts a token back. */
  lemma LateRefreshAfterSignOut(stale: string, renewed: string)
    ensures ApplyAll(Some(stale), [Heard(SignOut), RegisterReply(201, FetchSucceeded(Some(renewed)))]) == Some(renewed)
  {
    TokenIsLastWrite(Some(stale), [Heard(SignOut), RegisterReply(201, FetchSucceeded(Some(renewed)))]);
  }

  /** The listener callback a signed-in state change yields once its `getIdToken(false)`
      completes: `onNewIdToken` only for a successful fetch with a non-null token, and no
      callback at all otherwise. */
  function CallbackFor(fetch: Fetch): (c: Option<Callback>)
    ensures c.Some? <==> fetch.FetchSucceeded? && fetch.token.Some?
    ensures c.Some? ==> c.value == NewIdToken(fetch.token.value)
  {
    if fetch.FetchSucceeded? && fetch.token.Some? then Some(NewIdToken(fetch.token.value)) else None
  }

  /** A `SessionManager` object: one token, written by the listener of the AuthViewModel
      copy in its package. The `auth` package's object is also the one the
      interceptor reads. */
  class SessionManager {
    var token: Option<string>

    constructor (token: Option<string>)
      ensures this.token == token
    {
      this.token := token;
    }
  }

  /** The `TokenListener` object both AuthViewModel copies pass to `startListening`. */
  class TokenListener {
    const session: SessionManager

    constructor (session: SessionManager)
      ensures this.session == session
    {
      this.session := session;
    }

    /** `onNewIdToken` / `onSignOut`: write the callback's value into the session. */
    method Deliver(c: Callback)
      modifies session
      ensures session.token == Apply(old(session.token), Heard(c))
    {
      match c
      case NewIdToken(t) => session.token := Some(t);
      case SignOut => session.token := None;
    }
  }

  /** `FirebaseAuthTokenProvider`. `registered` says whether its `authStateListener` is
      in Firebase's listener list; Firebase calls `AuthStateChanged` only while it is. */
  class FirebaseAuthTokenProvider {
    var listener: Option<TokenListener>
    var registered: bool

    constructor ()
      ensures listener == None && !registered
    {
      listener := None;
      registered := false;
    }

    /** The objects a callback may write: the session of the current listener. */
    function Targets(): set<object>
      reads this
    {
      if listener.Some? then {listener.value.session} else {}
    }

    /** `startListening`: stores the listener, replacing any previous one, and registers
        the auth-state callback. */
    method StartListening(l: TokenListener)
      modifies this
      ensures listener == Some(l) && registered
    {
      listener := Some(l);
      registered := true;
    }

    /** `stopListening`: unregisters the callback and clears the listener. */
    method StopListening()
      modifies this
      ensures listener == None && !registered
    {
      registered := false;
      listener := None;
    }

    /** Firebase reports a new auth state. Signed in: a token fetch with
        `forceRefresh = false` is issued (the answer is `TokenFetched`). Signed out:
        `onSignOut` reaches the listener, if there is one. */
    method AuthStateChanged(signedIn: bool) returns (fetchForceRefresh: Option<bool>)
      requires registered
      modifies Targets()
      ensures signedIn ==> fetchForceRefresh == Some(false)
      ensures !signedIn ==> fetchForceRefresh == None
      ensures signedIn || listener.None? ==> forall o :: o in Targets() ==> unchanged(o)
      ensures !signedIn && listener.Some? ==> listener.value.session.token == None
    {
      if signedIn {
        fetchForceRefresh := Some(false);
      } else {
        fetchForceRefresh := None;
        if listener.Some? {
          listener.value.Deliver(SignOut);
        }
      }
    }

    /** The `getIdToken(false)` task completes. The listener is read now, so after
        `stopListening` the result is dropped. */
    method TokenFetched(fetch: Fetch)
      modifies Targets()
      ensures listener.None? || CallbackFor(fetch).None? ==> forall o :: o in Targets() ==> unchanged(o)
      ensures listener.Some? && CallbackFor(fetch).Some? ==>
        listener.value.session.token == Apply(old(listener.value.session.token), Heard(CallbackFor(fetch).value))
    {
      var c := CallbackFor(fetch);
      if c.Some? && listener.Some? {
        listener.value.Deliver(c.value);
      }
    }
  }

  /** A client: once listening has stopped, neither a late token nor a sign-out reaches
      the old listener's session. */
  method StoppedProviderDropsEvents(session: SessionManager, t: string)
    modifies session
    ensures session.token == old(session.token)
  {
    var provider := new FirebaseAuthTokenProvider();
    var l := new TokenListener(session);
    provider.StartListening(l);
    provider.StopListening();
    provider.TokenFetched(FetchSucceeded(Some(t)));
  }
}
