/** The Login view as an object whose handlers assign its view properties
    in sequence, as the screen does. Each handler's new state and the
    provider calls it issues are exactly those of the matching transition
    in LoginFlow, where their properties are stated and proved. */
module LoginView {
  import opened LoginFlow

  class LoginScreen {
    var activeTab: Tab
    var isLoading: bool
    var showEmailVerification: bool
    var emailAddress: string
    var password: string
    var reEnterPassword: string
    var alertMessage: string
    var showAlert: bool
    var showResetAlert: bool
    var resetEmailAddress: string
    /** The persisted "logged in" flag. */
    var logStatus: bool
    /** Every provider call issued so far, oldest first. */
    ghost var calls: seq<Call>

    /** The view properties as one value. */
    function Snapshot(): LoginState
      reads this
    {
      LoginState(activeTab, isLoading, showEmailVerification, emailAddress, password,
                 reEnterPassword, alertMessage, showAlert, showResetAlert,
                 resetEmailAddress, logStatus)
    }

    /** A new view; the flag is read from persistent storage. */
    constructor (storedLogStatus: bool)
      ensures Snapshot() == Initial(storedLogStatus) && calls == []
    {
      activeTab := Tab.Login;
      isLoading := false;
      showEmailVerification := false;
      emailAddress := "";
      password := "";
      reEnterPassword := "";
      alertMessage := "";
      showAlert := false;
      showResetAlert := false;
      resetEmailAddress := "";
      logStatus := storedLogStatus;
      calls := [];
    }

    method PresentAlert(message: string)
      modifies this
      ensures Snapshot() == LoginFlow.PresentAlert(old(Snapshot()), message)
      ensures calls == old(calls)
    {
      alertMessage := message;
      showAlert := true;
      isLoading := false;
      resetEmailAddress := "";
    }

    /** The picker's selection followed by its change handler. */
    method SelectTab(newTab: Tab)
      modifies this
      ensures Snapshot() == ChangeTab(old(Snapshot()), newTab)
      ensures calls == old(calls)
    {
      var oldTab := activeTab;
      activeTab := newTab;
      if newTab != oldTab {
        password := "";
        reEnterPassword := "";
      }
    }

    method LoginAndSignUp(auth: AuthResult, send: CallResult)
      modifies this
      ensures Snapshot() == Submit(old(Snapshot()), auth, send).state
      ensures calls == old(calls) + Submit(old(Snapshot()), auth, send).calls
    {
      isLoading := true;
      if activeTab == Tab.Login {
        calls := calls + [SignIn(emailAddress, password)];
        match auth
        case AuthFailed(d) =>
          PresentAlert(d);
        case SignedIn(verified) =>
          if verified {
            logStatus := true;
          } else {
            calls := calls + [SendEmailVerification];
            match send
            case Succeeded => showEmailVerification := true;
            case CallFailed(d) => PresentAlert(d);
          }
      } else {
        if PasswordsMatch(Snapshot()) {
          calls := calls + [CreateUser(emailAddress, password)];
          match auth
          case AuthFailed(d) =>
            PresentAlert(d);
          case SignedIn(_) =>
            calls := calls + [SendEmailVerification];
            match send
            case Succeeded => showEmailVerification := true;
            case CallFailed(d) => PresentAlert(d);
        } else {
          PresentAlert(MismatchMessage);
        }
      }
    }

    method SendResetLink(reset: CallResult)
      modifies this
      ensures Snapshot() == LoginFlow.SendResetLink(old(Snapshot()), reset).state
      ensures calls == old(calls) + LoginFlow.SendResetLink(old(Snapshot()), reset).calls
    {
      if resetEmailAddress == "" {
        PresentAlert(EmptyResetEmailMessage);
        return;
      }
      isLoading := true;
      calls := calls + [SendPasswordReset(resetEmailAddress)];
      match reset
      case Succeeded =>
        PresentAlert(ResetSentMessage);
        resetEmailAddress := "";
        isLoading := false;
      case CallFailed(d) =>
        PresentAlert(d);
    }

    method CancelReset()
      modifies this
      ensures Snapshot() == LoginFlow.CancelReset(old(Snapshot()))
      ensures calls == old(calls)
    {
      resetEmailAddress := "";
    }

    method ForgotPassword()
      modifies this
      ensures Snapshot() == LoginFlow.ForgotPassword(old(Snapshot()))
      ensures calls == old(calls)
    {
      showResetAlert := true;
    }

    method CancelVerification(hasCurrentUser: bool)
      modifies this
      ensures Snapshot() == LoginFlow.CancelVerification(old(Snapshot()), hasCurrentUser).state
      ensures calls == old(calls) + LoginFlow.CancelVerification(old(Snapshot()), hasCurrentUser).calls
    {
      showEmailVerification := false;
      if hasCurrentUser {
        calls := calls + [DeleteUser];
      }
      isLoading := false;
    }

    method PollTick(user: CurrentUser)
      modifies this
      ensures Snapshot() == LoginFlow.PollTick(old(Snapshot()), user).state
      ensures calls == old(calls) + LoginFlow.PollTick(old(Snapshot()), user).calls
    {
      match user
      case NoUser =>
      case User(verified) =>
        calls := calls + [ReloadUser];
        if verified {
          showEmailVerification := false;
          logStatus := true;
        }
    }

    /** Logout on the Home screen, followed by the root view replacing Home
        with a new Login view. */
    method Logout()
      modifies this
      ensures Snapshot() == LoginFlow.Logout(old(Snapshot())).state
      ensures calls == old(calls) + LoginFlow.Logout(old(Snapshot())).calls
    {
      calls := calls + [SignOut];
      logStatus := false;
      activeTab := Tab.Login;
      isLoading := false;
      showEmailVerification := false;
      emailAddress := "";
      password := "";
      reEnterPassword := "";
      alertMessage := "";
      showAlert := false;
      showResetAlert := false;
      resetEmailAddress := "";
    }
  }
}
