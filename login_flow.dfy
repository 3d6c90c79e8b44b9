/** The view-state machine of the Login screen, as pure transitions.

    The screen's state is the record LoginState, one field per view property
    of the Login view. Every handler is a function from the state before it
    runs (and the outcomes the identity provider reports to it) to a Step: the
    state after it and the provider calls it issued, in order. The provider
    itself is not modelled: its answers are parameters.
 */
module LoginFlow {

  /** The two tabs of the segmented picker. */
  datatype Tab = Login | SignUp

  /** The state of the Login view. `logStatus` is the persisted
      "logged in" flag; the others live as long as the view. */
  datatype LoginState = LoginState(
    activeTab: Tab,
    isLoading: bool,
    showEmailVerification: bool,
    emailAddress: string,
    password: string,
    reEnterPassword: string,
    alertMessage: string,
    showAlert: bool,
    showResetAlert: bool,
    resetEmailAddress: string,
    logStatus: bool)

  /** A call issued to the identity provider. */
  datatype Call =
    | SignIn(email: string, password: string)
    | CreateUser(email: string, password: string)
    | SendEmailVerification
    | SendPasswordReset(email: string)
    | ReloadUser
    | DeleteUser
    | SignOut

  /** What sign-in or account creation reports: the signed-in user's
      verification status, or the error's description. */
  datatype AuthResult = SignedIn(isEmailVerified: bool) | AuthFailed(description: string)

  /** What a provider call without a result reports. */
  datatype CallResult = Succeeded | CallFailed(description: string)

  /** The provider's current user as the verification timer sees it. */
  datatype CurrentUser = NoUser | User(isEmailVerified: bool)

  /** The state after a handler and the provider calls it issued. */
  datatype Step = Step(state: LoginState, calls: seq<Call>)

  const MismatchMessage: string := "Mismatching Password"
  const EmptyResetEmailMessage: string := "Please enter an email address."
  const ResetSentMessage: string :=
    "Please check your email inbox, and follow steps provided to reset your password."

  /** The raw value of each tab: the caption the picker shows and the
      identity it keys its entries by. */
  function TabTitle(t: Tab): (title: string)
    ensures title != ""
    ensures t == Login <==> title == "Login"
  {
    match t
    case Login => "Login"
    case SignUp => "Sign Up"
  }

  /** The state a freshly created Login view starts in; only the persisted
      flag comes from outside. */
  function Initial(storedLogStatus: bool): (s: LoginState)
    ensures s.activeTab == Login && !s.isLoading && !s.showEmailVerification
    ensures s.emailAddress == "" && s.password == "" && s.reEnterPassword == ""
    ensures s.alertMessage == "" && !s.showAlert && !s.showResetAlert && s.resetEmailAddress == ""
    ensures s.logStatus == storedLogStatus
    ensures SubmitDisabled(s)
  {
    LoginState(Login, false, false, "", "", "", "", false, false, "", storedLogStatus)
  }

  /** The form fields and the tab are those of `s`. */
  predicate SameForm(r: LoginState, s: LoginState)
  {
    && r.activeTab == s.activeTab
    && r.emailAddress == s.emailAddress
    && r.password == s.password
    && r.reEnterPassword == s.reEnterPassword
  }

  /** The submit button's `disabled` flag: some field the active tab needs
      is empty. Whether the two passwords agree plays no part. */
  function SubmitDisabled(s: LoginState): (disabled: bool)
    ensures !disabled ==> s.emailAddress != "" && s.password != ""
    ensures !disabled && s.activeTab == SignUp ==> s.reEnterPassword != ""
    ensures s.emailAddress != "" && s.password != "" && s.activeTab == Login ==> !disabled
    ensures s.emailAddress != "" && s.password != "" && s.reEnterPassword != "" ==> !disabled
  {
    if s.activeTab == Login then
      s.emailAddress == "" || s.password == ""
    else
      s.emailAddress == "" || s.password == "" || s.reEnterPassword == ""
  }

  /** The shared alert sink: shows `message`, stops the loading indicator
      and forgets the reset address. No credential field is touched. */
  function PresentAlert(s: LoginState, message: string): (r: LoginState)
    ensures r.alertMessage == message && r.showAlert
    ensures !r.isLoading && r.resetEmailAddress == ""
    ensures SameForm(r, s)
    ensures r.showEmailVerification == s.showEmailVerification
    ensures r.showResetAlert == s.showResetAlert && r.logStatus == s.logStatus
  {
    s.(alertMessage := message, showAlert := true, isLoading := false, resetEmailAddress := "")
  }

  /** The picker selects `newTab`; when that changes the tab, both password
      fields are cleared. The email address and everything else stay. */
  function ChangeTab(s: LoginState, newTab: Tab): (r: LoginState)
    ensures r.activeTab == newTab
    ensures newTab == s.activeTab ==> r == s
    ensures newTab != s.activeTab ==> r.password == "" && r.reEnterPassword == ""
    ensures newTab != s.activeTab ==> SubmitDisabled(r)
    ensures r.emailAddress == s.emailAddress
    ensures r.isLoading == s.isLoading && r.showEmailVerification == s.showEmailVerification
    ensures r.alertMessage == s.alertMessage && r.showAlert == s.showAlert
    ensures r.showResetAlert == s.showResetAlert && r.resetEmailAddress == s.resetEmailAddress
    ensures r.logStatus == s.logStatus
  {
    if newTab == s.activeTab then s
    else s.(activeTab := newTab, password := "", reEnterPassword := "")
  }

  /** The two typed passwords are the same string. Strings here are
      sequences of code points, so this is code-point equality; Swift's
      string equality is Unicode canonical equivalence, which also equates
      differently composed forms of the same text. */
  predicate PasswordsMatch(s: LoginState)
  {
    s.password == s.reEnterPassword
  }

  /** A sign-up whose two passwords differ. */
  predicate Mismatched(s: LoginState)
  {
    s.activeTab == SignUp && !PasswordsMatch(s)
  }

  /** The account call the submit button issues for the active tab. */
  function AccountCall(s: LoginState): (c: Call)
    ensures s.activeTab == Login <==> c.SignIn?
    ensures c.SignIn? || c.CreateUser?
    ensures c.email == s.emailAddress && c.password == s.password
  {
    if s.activeTab == Login then SignIn(s.emailAddress, s.password)
    else CreateUser(s.emailAddress, s.password)
  }

  /** The account call succeeded and the screen goes on to send a
      verification email: an unverified sign-in, or any account creation. */
  predicate NeedsVerification(s: LoginState, auth: AuthResult)
  {
    !Mismatched(s) && auth.SignedIn? && (s.activeTab == SignUp || !auth.isEmailVerified)
  }

  /** The second half of a submit: the verification email is sent once;
      on success the verification sheet opens with the indicator still on. */
  function SendVerification(t: LoginState, c: seq<Call>, send: CallResult): (r: Step)
    ensures r.calls == c + [SendEmailVerification]
    ensures send.Succeeded? ==> r.state == t.(showEmailVerification := true)
    ensures send.CallFailed? ==> r.state == PresentAlert(t, send.description)
  {
    match send
    case Succeeded => Step(t.(showEmailVerification := true), c + [SendEmailVerification])
    case CallFailed(d) => Step(PresentAlert(t, d), c + [SendEmailVerification])
  }

  /** The submit button (login or create account). `auth` is what the
      account call reports, `send` what sending the verification email
      reports; each is consulted only on the path that issues that call. */
  function Submit(s: LoginState, auth: AuthResult, send: CallResult): (r: Step)
    // Credentials and the tab are never changed, on any path.
    ensures SameForm(r.state, s) && r.state.showResetAlert == s.showResetAlert
    // Mismatched passwords: nothing is sent, the mismatch is alerted.
    ensures Mismatched(s) ==> r.calls == [] && r.state == PresentAlert(s, MismatchMessage)
    // Otherwise the account call for the tab comes first, with the typed credentials.
    ensures !Mismatched(s) ==> |r.calls| >= 1 && r.calls[0] == AccountCall(s)
    // A failed account call is alerted with the provider's text.
    ensures !Mismatched(s) && auth.AuthFailed? ==>
              r.calls == [AccountCall(s)] && r.state == PresentAlert(s, auth.description)
    // A verified sign-in logs in: no email, no sheet, the indicator stays on.
    ensures s.activeTab == Login && auth == SignedIn(true) ==>
              r.calls == [AccountCall(s)] && r.state == s.(isLoading := true, logStatus := true)
    // Otherwise exactly one verification email follows the account call.
    ensures NeedsVerification(s, auth) ==> r.calls == [AccountCall(s), SendEmailVerification]
    ensures NeedsVerification(s, auth) && send.Succeeded? ==>
              r.state == s.(isLoading := true, showEmailVerification := true)
    ensures NeedsVerification(s, auth) && send.CallFailed? ==>
              r.state == PresentAlert(s, send.description)
    ensures !NeedsVerification(s, auth) ==> SendEmailVerification !in r.calls
    // Only a verified sign-in sets the flag.
    ensures r.state.logStatus <==> s.logStatus || (s.activeTab == Login && auth == SignedIn(true))
  {
    var t := s.(isLoading := true);
    if s.activeTab == Login then
      var c := [SignIn(s.emailAddress, s.password)];
      match auth
      case AuthFailed(d) => Step(PresentAlert(t, d), c)
      case SignedIn(verified) =>
        if verified then Step(t.(logStatus := true), c)
        else SendVerification(t, c, send)
    else if PasswordsMatch(s) then
      var c := [CreateUser(s.emailAddress, s.password)];
      match auth
      case AuthFailed(d) => Step(PresentAlert(t, d), c)
      case SignedIn(_) => SendVerification(t, c, send)
    else
      Step(PresentAlert(t, MismatchMessage), [])
  }

  /** The reset alert's "Send Reset Link" button. `reset` is what the
      password-reset call reports. Every path ends in an alert, with the
      indicator off and the reset address cleared. */
  function SendResetLink(s: LoginState, reset: CallResult): (r: Step)
    ensures r.state == PresentAlert(s, r.state.alertMessage)
    ensures !r.state.isLoading && r.state.resetEmailAddress == "" && r.state.showAlert
    ensures s.resetEmailAddress == "" ==>
              r.calls == [] && r.state.alertMessage == EmptyResetEmailMessage
    ensures s.resetEmailAddress != "" ==> r.calls == [SendPasswordReset(s.resetEmailAddress)]
    ensures s.resetEmailAddress != "" && reset.Succeeded? ==>
              r.state.alertMessage == ResetSentMessage
    ensures s.resetEmailAddress != "" && reset.CallFailed? ==>
              r.state.alertMessage == reset.description
  {
    if s.resetEmailAddress == "" then
      Step(PresentAlert(s, EmptyResetEmailMessage), [])
    else
      var t := s.(isLoading := true);
      var c := [SendPasswordReset(s.resetEmailAddress)];
      match reset
      case Succeeded =>
        Step(PresentAlert(t, ResetSentMessage).(resetEmailAddress := "", isLoading := false), c)
      case CallFailed(d) => Step(PresentAlert(t, d), c)
  }

  /** The reset alert's Cancel button: only the typed reset address goes. */
  function CancelReset(s: LoginState): (r: LoginState)
    ensures r.resetEmailAddress == "" && r.showResetAlert == s.showResetAlert
    ensures SameForm(r, s) && r.isLoading == s.isLoading
    ensures r.showEmailVerification == s.showEmailVerification
    ensures r.alertMessage == s.alertMessage && r.showAlert == s.showAlert
    ensures r.logStatus == s.logStatus
  {
    s.(resetEmailAddress := "")
  }

  /** The "Forgot Password?" button opens the reset alert. */
  function ForgotPassword(s: LoginState): (r: LoginState)
    ensures r.showResetAlert && r.resetEmailAddress == s.resetEmailAddress
    ensures SameForm(r, s) && r.isLoading == s.isLoading
    ensures r.showEmailVerification == s.showEmailVerification
    ensures r.alertMessage == s.alertMessage && r.showAlert == s.showAlert
    ensures r.logStatus == s.logStatus
  {
    s.(showResetAlert := true)
  }

  /** The verification sheet's Cancel button: the sheet closes and the
      indicator stops whatever becomes of the deletion of the current user,
      which is requested only when there is one. */
  function CancelVerification(s: LoginState, hasCurrentUser: bool): (r: Step)
    ensures !r.state.showEmailVerification && !r.state.isLoading
    ensures r.calls == if hasCurrentUser then [DeleteUser] else []
    ensures r.state == s.(showEmailVerification := false, isLoading := false)
    ensures r.state.logStatus == s.logStatus && SameForm(r.state, s)
  {
    Step(s.(showEmailVerification := false, isLoading := false),
         if hasCurrentUser then [DeleteUser] else [])
  }

  /** One tick of the 2-second verification timer. A current user is
      reloaded; if its (cached) status reads verified, the sheet closes and
      the flag is set. Any other tick changes nothing. */
  function PollTick(s: LoginState, user: CurrentUser): (r: Step)
    ensures r.calls == if user.User? then [ReloadUser] else []
    ensures user != User(true) ==> r.state == s
    ensures user == User(true) ==>
              r.state.logStatus && !r.state.showEmailVerification
              && r.state == s.(showEmailVerification := false, logStatus := true)
  {
    match user
    case NoUser => Step(s, [])
    case User(verified) =>
      if verified then Step(s.(showEmailVerification := false, logStatus := true), [ReloadUser])
      else Step(s, [ReloadUser])
  }

  /** The Home screen's Logout button: sign-out is requested (its failure
      is ignored) and the flag cleared. The root view then shows a new Login
      view, so the Login state starts afresh. */
  function Logout(s: LoginState): (r: Step)
    ensures r.calls == [SignOut]
    ensures !r.state.logStatus && r.state == Initial(false)
  {
    Step(Initial(false), [SignOut])
  }
}
