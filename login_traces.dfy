/** Sequences of user and timer events on the Login screen, and what holds
    of every such sequence: the flag rises only on a report of a verified
    account, the sheet opens only after a verification email, that email
    always follows an account call, no reset is requested for an empty
    address, unverified timer ticks change nothing, and the timer stops
    when the sheet closes. */
module LoginTraces {
  import opened LoginFlow

  /** One handler invocation, with the provider's answers to it. */
  datatype Event =
    | TabPicked(tab: Tab)
    | SubmitTapped(auth: AuthResult, send: CallResult)
    | ForgotPasswordTapped
    | ResetLinkRequested(reset: CallResult)
    | ResetCancelled
    | VerificationCancelled(hasCurrentUser: bool)
    | TimerFired(user: CurrentUser)
    | LogoutTapped

  /** The provider said that the account's email is verified. */
  predicate ReportsVerified(e: Event)
  {
    (e.SubmitTapped? && e.auth == SignedIn(true)) || e == TimerFired(User(true))
  }

  predicate IsAccountCall(c: Call)
  {
    c.SignIn? || c.CreateUser?
  }

  /** Every verification email in `cs` comes right after an account call. */
  predicate VerificationAfterAccount(cs: seq<Call>)
  {
    forall i :: 0 <= i < |cs| && cs[i] == SendEmailVerification ==> 0 < i && IsAccountCall(cs[i - 1])
  }

  /** `cs` does not open with a verification email. */
  predicate OpensWithoutVerification(cs: seq<Call>)
  {
    cs == [] || cs[0] != SendEmailVerification
  }

  /** No password reset in `cs` is addressed to the empty string. */
  predicate NoEmptyReset(cs: seq<Call>)
  {
    forall i :: 0 <= i < |cs| ==> cs[i] != SendPasswordReset("")
  }

  /** The effect of one event. The timer and the Cancel button belong to
      the verification sheet's view, so they act only while the sheet is
      shown; otherwise they do nothing and issue no call. */
  function Apply(s: LoginState, e: Event): (r: Step)
    ensures (e.TimerFired? || e.VerificationCancelled?) && !s.showEmailVerification ==>
              r == Step(s, [])
    ensures !s.logStatus && r.state.logStatus ==> ReportsVerified(e)
    ensures !s.showEmailVerification && r.state.showEmailVerification ==>
              SendEmailVerification in r.calls
    ensures VerificationAfterAccount(r.calls) && OpensWithoutVerification(r.calls)
    ensures NoEmptyReset(r.calls)
  {
    match e
    case TabPicked(t) => Step(ChangeTab(s, t), [])
    case SubmitTapped(auth, send) => Submit(s, auth, send)
    case ForgotPasswordTapped => Step(ForgotPassword(s), [])
    case ResetLinkRequested(reset) => SendResetLink(s, reset)
    case ResetCancelled => Step(CancelReset(s), [])
    case VerificationCancelled(hasUser) =>
      if s.showEmailVerification then CancelVerification(s, hasUser) else Step(s, [])
    case TimerFired(user) =>
      if s.showEmailVerification then PollTick(s, user) else Step(s, [])
    case LogoutTapped => Logout(s)
  }

  /** The effect of a sequence of events: the last state and every call
      issued, in order. */
  function Run(s: LoginState, es: seq<Event>): Step
    decreases |es|
  {
    if es == [] then Step(s, [])
    else
      var first := Apply(s, es[0]);
      var rest := Run(first.state, es[1..]);
      Step(rest.state, first.calls + rest.calls)
  }

  lemma VerificationAfterAccountConcat(a: seq<Call>, b: seq<Call>)
    requires VerificationAfterAccount(a) && VerificationAfterAccount(b)
    requires OpensWithoutVerification(a) && OpensWithoutVerification(b)
    ensures VerificationAfterAccount(a + b) && OpensWithoutVerification(a + b)
  {
  }

  lemma NoEmptyResetConcat(a: seq<Call>, b: seq<Call>)
    requires NoEmptyReset(a) && NoEmptyReset(b)
    ensures NoEmptyReset(a + b)
  {
  }

  /** The persisted flag goes from false to true only in a sequence that
      contains a provider report of a verified account. */
  lemma {:induction false} LogStatusRaisedOnlyByVerifiedReport(s: LoginState, es: seq<Event>)
    requires !s.logStatus && Run(s, es).state.logStatus
    ensures exists i :: 0 <= i < |es| && ReportsVerified(es[i])
    decreases |es|
  {
    if es != [] {
      var first := Apply(s, es[0]);
      if !first.state.logStatus {
        LogStatusRaisedOnlyByVerifiedReport(first.state, es[1..]);
        var i :| 0 <= i < |es[1..]| && ReportsVerified(es[1..][i]);
        assert ReportsVerified(es[i + 1]);
      }
    }
  }

  /** The verification sheet opens only in a sequence whose calls include
      a verification email. */
  lemma {:induction false} SheetOpensOnlyAfterVerificationEmail(s: LoginState, es: seq<Event>)
    requires !s.showEmailVerification && Run(s, es).state.showEmailVerification
    ensures SendEmailVerification in Run(s, es).calls
    decreases |es|
  {
    if es != [] {
      var first := Apply(s, es[0]);
      if !first.state.showEmailVerification {
        SheetOpensOnlyAfterVerificationEmail(first.state, es[1..]);
      }
    }
  }

  /** In the calls of any sequence, each verification email comes right
      after the sign-in or account creation that asked for it. */
  lemma {:induction false} VerificationEmailFollowsAccountCall(s: LoginState, es: seq<Event>)
    ensures VerificationAfterAccount(Run(s, es).calls)
    ensures OpensWithoutVerification(Run(s, es).calls)
    decreases |es|
  {
    if es != [] {
      var first := Apply(s, es[0]);
      VerificationEmailFollowsAccountCall(first.state, es[1..]);
      VerificationAfterAccountConcat(first.calls, Run(first.state, es[1..]).calls);
    }
  }

  /** No sequence requests a password reset for an empty address. */
  lemma {:induction false} ResetNeverSentToEmptyAddress(s: LoginState, es: seq<Event>)
    ensures NoEmptyReset(Run(s, es).calls)
    decreases |es|
  {
    if es != [] {
      var first := Apply(s, es[0]);
      ResetNeverSentToEmptyAddress(first.state, es[1..]);
      NoEmptyResetConcat(first.calls, Run(first.state, es[1..]).calls);
    }
  }

  /** Timer ticks that do not see a verified user leave the state as it
      was; each issues at most one reload. */
  lemma {:induction false} UnverifiedTicksChangeNothing(s: LoginState, es: seq<Event>)
    requires forall i :: 0 <= i < |es| ==> es[i].TimerFired? && es[i].user != User(true)
    ensures Run(s, es).state == s
    ensures |Run(s, es).calls| <= |es|
    ensures forall c :: c in Run(s, es).calls ==> c == ReloadUser
    decreases |es|
  {
    if es != [] {
      UnverifiedTicksChangeNothing(s, es[1..]);
    }
  }

  /** No handler but the tab picker and logout changes the tab or the
      credentials: in particular a failed submit does not clear them. */
  lemma {:induction false} CredentialsKeptWithoutTabChangeOrLogout(s: LoginState, es: seq<Event>)
    requires forall i :: 0 <= i < |es| ==> !es[i].TabPicked? && !es[i].LogoutTapped?
    ensures SameForm(Run(s, es).state, s)
    decreases |es|
  {
    if es != [] {
      var first := Apply(s, es[0]);
      CredentialsKeptWithoutTabChangeOrLogout(first.state, es[1..]);
    }
  }

  /** Once the sheet is closed, timer events change nothing and issue no
      reload: the timer stops with the sheet. */
  lemma {:induction false} NoPollsAfterSheetCloses(s: LoginState, es: seq<Event>)
    requires !s.showEmailVerification
    requires forall i :: 0 <= i < |es| ==> es[i].TimerFired?
    ensures Run(s, es) == Step(s, [])
    decreases |es|
  {
    if es != [] {
      NoPollsAfterSheetCloses(s, es[1..]);
    }
  }

  /** Ticks reading unverified, unverified, verified: the first two change
      nothing, the third logs in and closes the sheet, and a later tick,
      whatever it would read, issues no further reload. */
  lemma PollScenario(s: LoginState, later: CurrentUser)
    requires s.showEmailVerification && !s.logStatus
    ensures Run(s, [TimerFired(User(false)), TimerFired(User(false))]).state == s
    ensures var r := Run(s, [TimerFired(User(false)), TimerFired(User(false)), TimerFired(User(true))]);
            r.state.logStatus && !r.state.showEmailVerification
            && r.calls == [ReloadUser, ReloadUser, ReloadUser]
    ensures var r := Run(s, [TimerFired(User(false)), TimerFired(User(false)), TimerFired(User(true)),
                             TimerFired(later)]);
            r.state.logStatus && !r.state.showEmailVerification
            && r.calls == [ReloadUser, ReloadUser, ReloadUser]
  {
    var f, v, w := TimerFired(User(false)), TimerFired(User(true)), TimerFired(later);
    var done := s.(showEmailVerification := false, logStatus := true);
    assert [f, f, v, w][1..] == [f, v, w];
    assert [f, v, w][1..] == [v, w];
    assert [v, w][1..] == [w];
    assert [f, f, v][1..] == [f, v];
    assert [f, v][1..] == [v];
    assert [f, f][1..] == [f];
    NoPollsAfterSheetCloses(done, [w]);
    assert Run(s, [v, w]) == Step(done, [ReloadUser]);
  }
}
