/** The sign-in / sign-up form: the role written at sign-up, the messages it
    shows and where a successful login navigates. */
module AuthForm {
  import opened Wrappers
  import Auth
  import Routes

  /** The two role buttons above the form; "user" is selected at first. */
  datatype Toggle = UserToggle | ProviderToggle

  function ToggleName(t: Toggle): string {
    match t
    case UserToggle => "user"
    case ProviderToggle => "provider"
  }

  /** Login or sign-up; the form starts in login mode. */
  datatype Mode = LoginMode | SignupMode

  /** The role stored in the new account's metadata: the administrator
      address always signs up as "admin", anyone else as the selected role. */
  function SignupUserType(email: string, toggle: Toggle): (t: string)
    ensures email == Auth.AdminEmail <==> t == "admin"
    ensures email != Auth.AdminEmail ==> t == ToggleName(toggle)
    ensures t in {"user", "provider", "admin"}
  {
    if email == Auth.AdminEmail then "admin" else ToggleName(toggle)
  }

  /** What a submission leaves on screen: a message under the fields, or a
      navigation. */
  datatype FormOutcome = ShowMessage(text: string) | NavigateTo(path: string)

  const VerificationMessage: string := "Please check your email for verification link"

  /** A sign-up never navigates: it shows the backend's error or asks for
      the e-mail to be verified. */
  function SignupOutcome(signUpError: Option<string>): (o: FormOutcome)
    ensures o.ShowMessage?
    ensures signUpError.Some? ==> o.text == signUpError.value
    ensures signUpError.None? ==> o.text == VerificationMessage
  {
    match signUpError
    case Some(m) => ShowMessage(m)
    case None => ShowMessage(VerificationMessage)
  }

  /** The key the login switch is on: the stored metadata role if present and
      non-empty, otherwise "admin" for the administrator address and "user"
      for anyone else. Unlike the context's role, metadata comes first. */
  function LoginKey(email: string, metadataUserType: Option<string>): (k: string)
    ensures k != ""
    ensures metadataUserType.Some? && metadataUserType.value != "" ==> k == metadataUserType.value
    ensures metadataUserType.None? || metadataUserType.value == "" ==>
              k == (if email == Auth.AdminEmail then "admin" else "user")
  {
    if metadataUserType.Some? && metadataUserType.value != "" then metadataUserType.value
    else if email == Auth.AdminEmail then "admin"
    else "user"
  }

  /** The login switch: admin, provider, everything else to the services. */
  function LoginTarget(key: string): (p: string)
    ensures key == "admin" ==> p == "/admin"
    ensures key == "provider" ==> p == "/business"
    ensures key != "admin" && key != "provider" ==> p == "/services"
  {
    if key == "admin" then "/admin"
    else if key == "provider" then "/business"
    else "/services"
  }

  /** The login switch is the route table's home path for every non-empty
      key. */
  lemma LoginTargetIsDefaultRoute(key: string)
    requires key != ""
    ensures LoginTarget(key) == Routes.DefaultRoute(Some(key))
  {
  }

  /** A login: the backend's error, or the navigation to the home path of
      the account's role. */
  function LoginOutcome(email: string, signInError: Option<string>, metadataUserType: Option<string>): (o: FormOutcome)
    ensures signInError.Some? ==> o == ShowMessage(signInError.value)
    ensures signInError.None? ==> o == NavigateTo(Routes.DefaultRoute(Some(LoginKey(email, metadataUserType))))
  {
    match signInError
    case Some(m) => ShowMessage(m)
    case None => NavigateTo(LoginTarget(LoginKey(email, metadataUserType)))
  }

  /** What one submission of the form leaves on screen, in either mode. The
      role a sign-up stores is `SignupUserType`. */
  function Submit(mode: Mode, email: string, backendError: Option<string>,
                  metadataUserType: Option<string>): (o: FormOutcome)
    ensures backendError.Some? ==> o == ShowMessage(backendError.value)
    ensures mode == SignupMode ==> o.ShowMessage?
    ensures o.NavigateTo? <==> mode == LoginMode && backendError.None?
  {
    match mode
    case SignupMode => SignupOutcome(backendError)
    case LoginMode => LoginOutcome(email, backendError, metadataUserType)
  }

  /** For an account created through this form, logging in navigates to the
      home path of the role the context resolves, and that path renders the
      role's home page without a further redirect. */
  lemma SignedUpAccountsLandHome(email: string, toggle: Toggle)
    ensures var md := Some(SignupUserType(email, toggle));
            var role := Some(Auth.GetUserType(email, md));
            && Routes.ClosedRole(role)
            && LoginOutcome(email, None, md) == NavigateTo(Routes.DefaultRoute(role))
            && Routes.Chase(true, role, Routes.DefaultRoute(role), 0) == Some(Routes.HomePage(role))
  {
  }

  /** The form and the context disagree when metadata and address point to
      different roles: the administrator address with "provider" metadata is
      sent to the provider's home, which the context's "admin" role may not
      see, so the route table sends it on to the admin page. */
  lemma PrecedenceDiffers()
    ensures LoginKey(Auth.AdminEmail, Some("provider")) == "provider"
    ensures Auth.GetUserType(Auth.AdminEmail, Some("provider")) == "admin"
    ensures Routes.Route(true, Some("admin"), LoginTarget("provider")) == Routes.Redirect("/admin")
  {
  }
}
