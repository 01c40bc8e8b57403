// The sign-in, sign-up and set-password pages: their form rules and what a submit does
// (app/auth/login/page.tsx, app/auth/register/page.tsx, app/set-password/page.tsx).
// The auth service's calls are inputs: whether they throw, and the session they leave.

module AuthPages {
  import opened Types
  import opened ApiRows

  // ----- app/auth/login/page.tsx -----

  datatype LoginField = LoginEmail | LoginPassword

  /** `loginSchema`: a valid email (zod's test, an input here) and a password of at least 6. */
  function LoginErrors(emailValid: bool, password: string): (errs: set<LoginField>)
    ensures LoginEmail in errs <==> !emailValid
    ensures LoginPassword in errs <==> |password| < 6
    ensures errs <= {LoginEmail, LoginPassword}
  {
    (if emailValid then {} else {LoginEmail}) + (if |password| < 6 then {LoginPassword} else {})
  }

  const HomePath := "/"
  const SetupPath := "/setup"
  const LoginFallback := "Došlo je do greške prilikom prijave"

  /** Where a signed-in user is sent: home when they own a wedding or have a collaborator row for
      their email, otherwise the setup page; nowhere without a session. */
  function LoginRoute(session: Option<Session>, weddings: seq<WeddingRow>, collaborators: seq<CollaboratorRow>)
    : (r: Option<string>)
    ensures r.None? <==> session.None?
    ensures session.Some? ==>
      (r == Some(HomePath) <==>
         OwnedWedding(weddings, session.value.userId).Some? || CollaboratorRowOf(collaborators, session.value.email).Some?)
    ensures r.Some? ==> r.value == HomePath || r.value == SetupPath
  {
    if session.None? then None
    else if OwnedWedding(weddings, session.value.userId).Some? then Some(HomePath)
    else if CollaboratorRowOf(collaborators, session.value.email).Some? then Some(HomePath)
    else Some(SetupPath)
  }

  /** The login page agrees with the dashboard's wedding resolution when metadata plays no part:
      a user is sent home exactly when their wedding resolves (row ids are never empty). */
  lemma LoginRouteMatchesResolution(weddings: seq<WeddingRow>, collaborators: seq<CollaboratorRow>, s: Session)
    requires forall w :: w in weddings ==> w.id != ""
    requires forall c :: c in collaborators ==> c.weddingId != ""
    ensures LoginRoute(Some(s), weddings, collaborators) == Some(HomePath) <==>
            !ResolveWedding(weddings, collaborators, map[], s).Unresolved?
  {
  }

  /** A user linked to a wedding only through the metadata pointer is sent to the setup page,
      although the dashboard would resolve their wedding. */
  lemma MetadataOnlyUserSentToSetup(s: Session, weddingId: string)
    requires weddingId != ""
    ensures LoginRoute(Some(s), [], []) == Some(SetupPath)
    ensures ResolveWedding([], [], map[s.userId := weddingId], s) == ViaMetadata(weddingId)
  {
  }

  /** The page's `error` state and where the router was sent. */
  class LoginPage {
    var error: Option<string>
    var route: Option<string>

    constructor()
      ensures error == None && route == None
    {
      error, route := None, None;
    }

    /** `onSubmit`: the error is cleared; a throwing sign-in shows its message (or the fallback);
        otherwise the session decides: none means no navigation, an owned wedding or a
        collaborator row means home, and anything else the setup page. The lookups return
        data or null and never throw. */
    method OnSubmit(signInFailure: Option<Thrown>, session: Option<Session>,
                    weddings: seq<WeddingRow>, collaborators: seq<CollaboratorRow>)
      modifies this
      ensures signInFailure.Some? ==> error == Some(ErrorText(signInFailure.value, LoginFallback)) && route == old(route)
      ensures signInFailure.None? ==> error == None
      ensures signInFailure.None? && session.None? ==> route == old(route)
      ensures signInFailure.None? && session.Some? ==> route == LoginRoute(session, weddings, collaborators)
    {
      error := None;
      if signInFailure.Some? {
        error := Some(ErrorText(signInFailure.value, LoginFallback));
        return;
      }
      if session.None? {
        return;
      }
      var user := session.value;
      var owned := OwnedWedding(weddings, user.userId);
      if owned.Some? {
        route := Some(HomePath);
        return;
      }
      var collaborator := CollaboratorRowOf(collaborators, user.email);
      if collaborator.Some? {
        route := Some(HomePath);
        return;
      }
      route := Some(SetupPath);
    }
  }

  // ----- app/auth/register/page.tsx -----

  datatype RegisterField = RegisterEmail | RegisterPassword | ConfirmPassword

  /** `formSchema`: a valid email, a password of at least 8, and a confirmation equal to the
      password, whose failure is reported on the confirmation field. */
  function RegisterErrors(emailValid: bool, password: string, confirm: string): (errs: set<RegisterField>)
    ensures RegisterEmail in errs <==> !emailValid
    ensures RegisterPassword in errs <==> |password| < 8
    ensures ConfirmPassword in errs <==> password != confirm
    ensures errs == {} <==> emailValid && |password| >= 8 && password == confirm
  {
    (if emailValid then {} else {RegisterEmail})
    + (if |password| < 8 then {RegisterPassword} else {})
    + (if password != confirm then {ConfirmPassword} else {})
  }

  /** The sign-in and sign-up rules differ: a 6- or 7-character password signs in but cannot
      register. */
  lemma SignUpStricterThanSignIn(password: string)
    requires 6 <= |password| < 8
    ensures LoginPassword !in LoginErrors(true, password)
    ensures RegisterPassword in RegisterErrors(true, password, password)
  {
  }

  const RegisterFallback := "Došlo je do greške prilikom registracije"

  class RegisterPage {
    var error: Option<string>
    var route: Option<string>

    constructor()
      ensures error == None && route == None
    {
      error, route := None, None;
    }

    /** `onSubmit`: success goes to the setup page; any failure shows one fixed message, whatever
        was thrown. */
    method OnSubmit(signUpFailure: Option<Thrown>)
      modifies this
      ensures signUpFailure.None? ==> error == None && route == Some(SetupPath)
      ensures signUpFailure.Some? ==> error == Some(RegisterFallback) && route == old(route)
    {
      error := None;
      if signUpFailure.Some? {
        error := Some(RegisterFallback);
      } else {
        route := Some(SetupPath);
      }
    }
  }

  // ----- app/set-password/page.tsx -----

  const MismatchMessage := "Lozinke se ne poklapaju."
  const TooShortMessage := "Lozinka mora imati najmanje 6 karaktera."
  const SetPasswordFallback := "Došlo je do greške pri postavljanju lozinke."
  const DashboardPath := "/dashboard"

  /** The checks `handleSubmit` makes before calling the auth service: first the match, then the
      length; the message of the first that fails. */
  function PasswordCheck(password: string, confirm: string): (r: Option<string>)
    ensures r.None? <==> password == confirm && |password| >= 6
    ensures r == Some(MismatchMessage) <==> password != confirm
    ensures r == Some(TooShortMessage) <==> password == confirm && |password| < 6
  {
    if password != confirm then Some(MismatchMessage)
    else if |password| < 6 then Some(TooShortMessage)
    else None
  }

  /** The mismatch is reported even when the password is also too short. */
  lemma MismatchReportedFirst(password: string, confirm: string)
    requires password != confirm && |password| < 6
    ensures PasswordCheck(password, confirm) == Some(MismatchMessage)
  {
  }

  /** `updateUser({ password, data: { has_password: true } })` */
  datatype PasswordUpdate = PasswordUpdate(password: string, hasPassword: bool)

  class SetPasswordPage {
    var password: string
    var confirmPassword: string
    var error: Option<string>
    var loading: bool
    var route: Option<string>
    /** Every update sent to the auth service, in order. */
    var updates: seq<PasswordUpdate>

    /** The page mounts loading; the session check sends a visitor without a session to the
        login page and otherwise stops loading. */
    constructor(session: Option<Session>)
      ensures password == "" && confirmPassword == "" && error == None && updates == []
      ensures session.None? ==> loading && route == Some("/auth/login")
      ensures session.Some? ==> !loading && route == None
    {
      password, confirmPassword, error, updates := "", "", None, [];
      if session.None? {
        loading, route := true, Some("/auth/login");
      } else {
        loading, route := false, None;
      }
    }

    /** `handleSubmit`: the error is cleared; a failed check shows its message and sends nothing;
        otherwise one update is sent, success goes to "/dashboard", a failure shows the fixed
        message, and loading ends either way. */
    method HandleSubmit(updateFailure: bool)
      modifies this`error, this`loading, this`route, this`updates
      ensures PasswordCheck(password, confirmPassword).Some? ==>
        && error == PasswordCheck(password, confirmPassword)
        && updates == old(updates) && loading == old(loading) && route == old(route)
      ensures PasswordCheck(password, confirmPassword).None? ==>
        && updates == old(updates) + [PasswordUpdate(password, true)]
        && !loading
        && (updateFailure ==> error == Some(SetPasswordFallback) && route == old(route))
        && (!updateFailure ==> error == None && route == Some(DashboardPath))
    {
      error := None;
      if password != confirmPassword {
        error := Some(MismatchMessage);
        return;
      }
      if |password| < 6 {
        error := Some(TooShortMessage);
        return;
      }
      loading := true;
      updates := updates + [PasswordUpdate(password, true)];
      if updateFailure {
        error := Some(SetPasswordFallback);
      } else {
        route := Some(DashboardPath);
      }
      loading := false;
    }
  }
}
