/** The sign-in / sign-up page: its mode, its form, and what submitting the
    form or choosing Google sign-in does to the authentication provider and
    where it leads. A thrown error becomes `ShowError` with the error's
    message; reaching `navigate('/dashboard')` becomes `Navigate`. */
module AuthPage {
  import opened Wrappers
  import opened Text
  import opened AuthContext

  datatype Mode = LoginMode | SignupMode

  /** How a submission ends: a move to another page or an error toast. */
  datatype SubmitResult = Navigate(path: string) | ShowError(message: string)

  const DashboardPath := "/dashboard"
  const NameRequired := "Please enter your name"

  /** The starting mode from the `mode` query parameter: sign-up only for
      exactly 'signup', login for anything else or nothing. */
  function InitialMode(modeParam: Option<string>): (m: Mode)
    ensures m == SignupMode <==> modeParam == Some("signup")
  {
    if modeParam == Some("signup") then SignupMode else LoginMode
  }

  /** The toggle link: switches to the other mode. */
  function Toggled(m: Mode): (t: Mode)
    ensures t != m
  {
    if m == LoginMode then SignupMode else LoginMode
  }

  /** What a login attempt with these credentials ends with, as the page
      shows it. */
  function LoginResult(users: seq<UserRow>, email: string, password: string): (r: SubmitResult)
    ensures r == Navigate(DashboardPath) <==>
              FindByEmail(users, email).Some? && users[FindByEmail(users, email).value].password == password
    ensures r == ShowError(ErrorMessage(UserNotFound)) <==> FindByEmail(users, email).None?
    ensures r == ShowError(ErrorMessage(InvalidPassword)) <==>
              FindByEmail(users, email).Some? && users[FindByEmail(users, email).value].password != password
  {
    match FindByEmail(users, email)
    case None => ShowError(ErrorMessage(UserNotFound))
    case Some(i) =>
      if users[i].password != password then ShowError(ErrorMessage(InvalidPassword))
      else Navigate(DashboardPath)
  }

  class AuthForm {
    const auth: AuthProvider
    var mode: Mode
    var isLoading: bool
    var name: string
    var email: string
    var password: string

    ghost predicate Valid()
      reads this, auth
    {
      auth.Valid()
    }

    constructor (provider: AuthProvider, modeParam: Option<string>)
      requires provider.Valid()
      ensures Valid() && auth == provider && mode == InitialMode(modeParam)
      ensures !isLoading && name == "" && email == "" && password == ""
    {
      auth := provider;
      mode := InitialMode(modeParam);
      isLoading := false;
      name, email, password := "", "", "";
    }

    /** Typing in the three fields. */
    method EditFields(newName: string, newEmail: string, newPassword: string)
      requires Valid()
      modifies this
      ensures Valid() && name == newName && email == newEmail && password == newPassword
      ensures mode == old(mode) && isLoading == old(isLoading)
    {
      name, email, password := newName, newEmail, newPassword;
    }

    /** The toggle link under the form; the fields are kept. */
    method Toggle()
      requires Valid()
      modifies this
      ensures Valid() && mode == Toggled(old(mode))
      ensures name == old(name) && email == old(email) && password == old(password)
      ensures isLoading == old(isLoading)
    {
      mode := Toggled(mode);
    }

    /** `handleSubmit`. In sign-up mode a blank name is refused before the
        provider is called; otherwise the name is passed on untrimmed. In
        login mode the provider's login decides. Loading always ends.
        `newId` is the fresh identifier a sign-up would use. */
    method Submit(newId: string) returns (result: SubmitResult)
      requires Valid()
      modifies this, auth
      ensures Valid() && !isLoading && mode == old(mode)
      ensures name == old(name) && email == old(email) && password == old(password)
      ensures mode == SignupMode && IsBlank(name) ==>
                && result == ShowError(NameRequired)
                && auth.users == old(auth.users) && auth.user == old(auth.user)
                && auth.isLoading == old(auth.isLoading)
      ensures mode == SignupMode && !IsBlank(name) ==>
                && !auth.isLoading
                && (result == Navigate(DashboardPath) <==> FindByEmail(old(auth.users), email).None?)
                && (result.ShowError? ==>
                      && result.message == ErrorMessage(UserExists)
                      && auth.users == old(auth.users) && auth.user == old(auth.user))
                && (result.Navigate? ==>
                      auth.users == old(auth.users) + [UserRow(newId, name, email, password, None)]
                      && auth.user == Some(User(newId, name, email, None)))
      ensures mode == LoginMode ==>
                && auth.users == old(auth.users)
                && result == LoginResult(auth.users, email, password)
                && (result.Navigate? ==>
                      && auth.user == Some(SessionOf(auth.users[FindByEmail(auth.users, email).value]))
                      && !auth.isLoading)
                && (result.ShowError? ==> auth.user == old(auth.user) && auth.isLoading)
    {
      isLoading := true;
      if mode == SignupMode {
        TrimEmptyIffBlank(name);
        if Trim(name) == [] {
          result := ShowError(NameRequired);
        } else {
          var outcome := auth.Signup(name, email, password, newId);
          result := if outcome.Done? then Navigate(DashboardPath) else ShowError(ErrorMessage(outcome.error));
        }
      } else {
        var outcome := auth.Login(email, password);
        result := if outcome.Done? then Navigate(DashboardPath) else ShowError(ErrorMessage(outcome.error));
      }
      isLoading := false;
    }

    /** `handleGoogleLogin`: always signs in as the demo Google identity and
        moves to the dashboard. */
    method GoogleLogin(newId: string) returns (result: SubmitResult)
      requires Valid()
      modifies this, auth
      ensures Valid() && !isLoading && mode == old(mode)
      ensures name == old(name) && email == old(email) && password == old(password)
      ensures result == Navigate(DashboardPath)
      ensures auth.users == old(auth.users) && !auth.isLoading
      ensures auth.user == Some(User(newId, GoogleUserName, GoogleUserEmail, Some(GoogleUserAvatar)))
    {
      isLoading := true;
      auth.LoginWithGoogle(newId);
      result := Navigate(DashboardPath);
      isLoading := false;
    }
  }
}
