/** The screen state of the two activities. `app/EnvironmentActivity.kt` keeps the
    current screen as a string and the selected environment id; `app/MainActivity.kt`
    chooses between Home, Registration and Login from the signed-in user and a
    `showRegister` flag. Callbacks are methods whose `requires` says which screen shows
    the control that fires them. */
module Navigation {
  import opened Wrappers
  import opened Models

  // ---------------------------------------------------------------------------------
  // EnvironmentActivity

  const ListScreen := "list"
  const SettingsScreen := "settings"
  const DetailScreen := "environment"

  /** What the `when (currentScreen)` composes. It has no `else` branch, so any other
      string would show nothing. */
  datatype Shown = EnvironmentList | Settings | EnvironmentDetail(environmentId: int) | Nothing

  function ShownFor(currentScreen: string, environmentId: int): (r: Shown)
    ensures currentScreen == ListScreen ==> r == EnvironmentList
    ensures currentScreen == SettingsScreen ==> r == Settings
    ensures currentScreen == DetailScreen ==> r == EnvironmentDetail(environmentId)
    ensures r == Nothing <==> currentScreen !in {ListScreen, SettingsScreen, DetailScreen}
  {
    if currentScreen == ListScreen then EnvironmentList
    else if currentScreen == SettingsScreen then Settings
    else if currentScreen == DetailScreen then EnvironmentDetail(environmentId)
    else Nothing
  }

  /** The effects of `onLogout`, in order. */
  datatype LogoutEffect = SignOutOfFirebase | StartMainActivity

  class EnvironmentNavigation {
    var currentScreen: string
    var environmentId: int

    /** Only the three screen names are ever assigned, so some screen always shows. */
    predicate Valid()
      reads this
    {
      currentScreen in {ListScreen, SettingsScreen, DetailScreen}
    }

    constructor ()
      ensures Valid() && currentScreen == ListScreen && environmentId == 0
    {
      currentScreen := ListScreen;
      environmentId := 0;
    }

    /** An environment card on the list: open its detail screen. The only place the id
        changes. */
    method OnItemClick(env: Environment)
      requires Valid() && currentScreen == ListScreen
      modifies this
      ensures Valid() && currentScreen == DetailScreen && environmentId == env.id
      ensures ShownFor(currentScreen, environmentId) == EnvironmentDetail(env.id)
    {
      currentScreen := DetailScreen;
      environmentId := env.id;
    }

    /** The settings icon on the list. */
    method OnSettingsClick()
      requires Valid() && currentScreen == ListScreen
      modifies this
      ensures Valid() && currentScreen == SettingsScreen && environmentId == old(environmentId)
      ensures ShownFor(currentScreen, environmentId) == Settings
    {
      currentScreen := SettingsScreen;
    }

    /** Back on the settings or the detail screen: return to the list, keeping the id. */
    method OnBack()
      requires Valid() && currentScreen in {SettingsScreen, DetailScreen}
      modifies this
      ensures Valid() && currentScreen == ListScreen && environmentId == old(environmentId)
      ensures ShownFor(currentScreen, environmentId) == EnvironmentList
    {
      currentScreen := ListScreen;
    }

    /** Logout on the settings screen (EnvironmentActivity.kt:30-34): sign out first
        (line 31), then start the login activity (line 33). */
    method OnLogout() returns (effects: seq<LogoutEffect>)
      requires Valid() && currentScreen == SettingsScreen
      ensures effects == [SignOutOfFirebase, StartMainActivity]
    {
      effects := [SignOutOfFirebase];
      effects := effects + [StartMainActivity];
    }
  }

  // ---------------------------------------------------------------------------------
  // MainActivity

  datatype MainScreen = Home | Registration | Login

  /** The `if / else if / else` of `setContent`. */
  function ScreenFor(signedIn: bool, showRegister: bool): (r: MainScreen)
    ensures signedIn ==> r == Home
    ensures !signedIn ==> (r == Registration <==> showRegister) && (r == Login <==> !showRegister)
  {
    if signedIn then Home else if showRegister then Registration else Login
  }

  /** A request the screens pass to the view model (`authVm.signIn` and friends). */
  datatype AuthRequest =
    | SignInRequest(email: string, pass: string)
    | SignUpRequest(email: string, pass: string)
    | GoogleSignInRequest(idToken: string)

  class MainNavigation {
    var showRegister: bool

    constructor ()
      ensures !showRegister
    {
      showRegister := false;
    }

    /** "Register" on the login screen. */
    method OnRegisterLink(signedIn: bool)
      requires ScreenFor(signedIn, showRegister) == Login
      modifies this
      ensures showRegister && ScreenFor(signedIn, showRegister) == Registration
    {
      showRegister := true;
    }

    /** "Sign In" on the login screen: the view model signs in; nothing else changes. */
    method OnLogin(signedIn: bool, email: string, pass: string) returns (request: AuthRequest)
      requires ScreenFor(signedIn, showRegister) == Login
      ensures request == SignInRequest(email, pass)
    {
      request := SignInRequest(email, pass);
    }

    /** "Register" on the registration screen: sign up, then back to the login choice. */
    method OnRegister(signedIn: bool, email: string, pass: string) returns (request: AuthRequest)
      requires ScreenFor(signedIn, showRegister) == Registration
      modifies this
      ensures request == SignUpRequest(email, pass) && !showRegister
    {
      request := SignUpRequest(email, pass);
      showRegister := false;
    }

    /** "Sign In" link on the registration screen. */
    method OnSignInLink(signedIn: bool)
      requires ScreenFor(signedIn, showRegister) == Registration
      modifies this
      ensures !showRegister && ScreenFor(signedIn, showRegister) == Login
    {
      showRegister := false;
    }
  }

  /** The credential types Credential Manager can return. */
  datatype Credential =
    | CustomCredential(credentialType: string, idToken: string)
    | PasswordCredential(id: string, password: string)
    | PublicKeyCredential(json: string)

  /** `GoogleIdTokenCredential.TYPE_GOOGLE_ID_TOKEN_CREDENTIAL`. */
  const GoogleIdTokenType := "com.google.android.libraries.identity.googleid.TYPE_GOOGLE_ID_TOKEN_CREDENTIAL"

  /** `handleGoogleCredential`: only a custom credential of the Google ID-token type is
      forwarded to `signInWithGoogle`, with its ID token; anything else is logged and
      ignored. */
  function GoogleSignInFor(c: Credential): (r: Option<AuthRequest>)
    ensures r.Some? <==> c.CustomCredential? && c.credentialType == GoogleIdTokenType
    ensures r.Some? ==> r.value == GoogleSignInRequest(c.idToken)
  {
    match c
    case CustomCredential(t, token) => if t == GoogleIdTokenType then Some(GoogleSignInRequest(token)) else None
    case _ => None
  }
}
