# EmailAuthenticator Login screen: a verified model of its state machine

The app's Login screen lets a user sign in or create an account with email and
password, request a password-reset email, and wait on a verification sheet
until the account's email is confirmed. A persisted `log_status` flag then
makes the root view show Home instead of Login. This project models that
screen's view-state machine: its view properties, and the handlers that
assign them in response to taps, timer ticks and identity-provider answers.

The model has three modules.

- `LoginFlow` (`login_flow.dfy`) holds the data. `LoginState` has one field per
  view property. `Call` is a provider call. `AuthResult`, `CallResult` and
  `CurrentUser` are what the provider reports. It has one pure transition per
  handler, returning a `Step`: the new state plus the provider calls issued.
  Each transition's `ensures` states what the handler promises.
- `LoginView` (`login_view.dfy`) holds the class `LoginScreen`, the `Login` view
  as an object. It has the same fields
  and a ghost log of provider calls. Its methods assign the fields in the
  source's order. Each method ensures that the new state and the extended log
  are exactly those of the matching `LoginFlow` transition.
- `LoginTraces` (`login_traces.dfy`) covers sequences of events. `Apply`
  handles one event and `Run` folds it over a sequence. Lemmas proved by
  induction state what holds for every sequence:
  - the flag rises only on a provider report of a verified account;
  - the verification sheet opens only after a verification email;
  - every verification email comes right after a sign-in or account creation;
  - no password reset is requested for an empty address;
  - unverified timer ticks change nothing, and once the sheet closes the
    timer issues no further reload;
  - no handler but the tab picker and logout touches the credentials.

Every provider call appends an entry to the call log. Sign-in, account
creation, the verification email and the password reset also take their
outcome as a parameter. Reload, delete and sign-out are only logged, because
their outcomes are ignored by the code. Reading `currentUser` is a local
lookup. It is not logged, and the model receives its result as a parameter:
`hasCurrentUser` for Cancel, and `CurrentUser` with the cached verification
status for the timer tick.

The model follows the code in these details:

- A failed submit does not clear the password fields.
- A mismatched sign-up does set `isLoading` to true before its alert clears it.
- Every alert, including a failed submit's, clears `resetEmailAddress`.
- The verification tick has no "still active" guard.
- After a verified login nothing clears `isLoading`. The view is replaced by
  Home at that point, so this has no visible effect.

## Model

| member | source | states |
|---|---|---|
| `LoginFlow.TabTitle` | EmailAuthenticator/View/Login.swift:236-239 | the raw value of each tab is non-empty, and only the Login tab's is "Login" |
| `LoginFlow.Initial` | EmailAuthenticator/View/Login.swift:14-28 | a new view starts on the Login tab with every string empty and every flag off, except the persisted flag, which is the stored value; submit starts disabled |
| `LoginFlow.SubmitDisabled` | EmailAuthenticator/View/Login.swift:242-248 | submit is enabled exactly when email and password are non-empty, plus the re-entered password on the SignUp tab; password equality plays no part |
| `LoginFlow.PresentAlert` | EmailAuthenticator/View/Login.swift:226-233 | sets the alert text to the message, shows the alert, stops loading and clears the reset address; the credentials, tab, sheet, reset alert and flag are unchanged |
| `LoginFlow.ChangeTab` | EmailAuthenticator/View/Login.swift:118-121 | selecting the current tab changes nothing; selecting the other tab clears both password fields (which disables submit) and keeps the email and every other field |
| `LoginFlow.AccountCall` | EmailAuthenticator/View/Login.swift:194-210 | the account call is sign-in on the Login tab and account creation on the SignUp tab, with the typed email and password |
| `LoginFlow.SendVerification` | EmailAuthenticator/View/Login.swift:202-214 | exactly one verification email is appended; on success the sheet opens and nothing else changes; on failure the error text is alerted |
| `LoginFlow.Submit` | EmailAuthenticator/View/Login.swift:190-223 | mismatched sign-up: no call, "Mismatching Password" alerted; otherwise the tab's account call comes first; an account failure alerts its text; a verified sign-in sets the flag with no email and no sheet; otherwise one verification email, and a sheet or an alert; credentials never change; the flag is set iff it was set or the sign-in was verified |
| `LoginFlow.SendResetLink` | EmailAuthenticator/View/Login.swift:171-188 | every path is an alert that leaves loading off and the reset address empty; an empty address alerts and issues no call; otherwise exactly one reset call to that address, then the confirmation text or the error text |
| `LoginFlow.CancelReset` | EmailAuthenticator/View/Login.swift:112-114 | only the reset address is cleared |
| `LoginFlow.ForgotPassword` | EmailAuthenticator/View/Login.swift:62-64 | only the reset alert is shown |
| `LoginFlow.CancelVerification` | EmailAuthenticator/View/Login.swift:147-155 | the sheet closes and loading stops, with nothing else changed; a delete is issued only when there is a current user, and its outcome cannot affect the state |
| `LoginFlow.PollTick` | EmailAuthenticator/View/Login.swift:159-168 | a tick with a current user issues one reload; a verified status closes the sheet and sets the flag; no user or an unverified one changes nothing |
| `LoginFlow.Logout` | EmailAuthenticator/View/Home.swift:15-18 | one sign-out call; the flag is cleared and Login restarts from its initial state |
| `LoginView.LoginScreen.constructor` | EmailAuthenticator/View/Login.swift:14-28 | the fields are `Initial` of the stored flag and the call log is empty |
| `LoginView.LoginScreen.PresentAlert` | EmailAuthenticator/View/Login.swift:226-233 | the new fields are `LoginFlow.PresentAlert` of the old ones; no call is logged |
| `LoginView.LoginScreen.SelectTab` | EmailAuthenticator/View/Login.swift:118-121 | the new fields are `ChangeTab` of the old ones; no call is logged |
| `LoginView.LoginScreen.LoginAndSignUp` | EmailAuthenticator/View/Login.swift:190-223 | the new fields and the calls appended are those of `Submit` |
| `LoginView.LoginScreen.SendResetLink` | EmailAuthenticator/View/Login.swift:171-188 | the new fields and the calls appended are those of `LoginFlow.SendResetLink` |
| `LoginView.LoginScreen.CancelReset` | EmailAuthenticator/View/Login.swift:112-114 | the new fields are `LoginFlow.CancelReset` of the old ones |
| `LoginView.LoginScreen.ForgotPassword` | EmailAuthenticator/View/Login.swift:62-64 | the new fields are `LoginFlow.ForgotPassword` of the old ones |
| `LoginView.LoginScreen.CancelVerification` | EmailAuthenticator/View/Login.swift:147-155 | the new fields and the calls appended are those of `LoginFlow.CancelVerification` |
| `LoginView.LoginScreen.PollTick` | EmailAuthenticator/View/Login.swift:159-168 | the new fields and the calls appended are those of `LoginFlow.PollTick` |
| `LoginView.LoginScreen.Logout` | EmailAuthenticator/View/Home.swift:15-18 | the new fields and the calls appended are those of `LoginFlow.Logout` |
| `LoginTraces.Apply` | EmailAuthenticator/View/Login.swift:31-168 | one event never raises the flag without a verified report and never opens the sheet without a verification email; its calls never send a verification email except right after an account call, and never request a reset for an empty address; the timer and the sheet's Cancel do nothing and issue no call while the sheet is not shown |
| `LoginTraces.LogStatusRaisedOnlyByVerifiedReport` | EmailAuthenticator/View/Login.swift:159-201 | in any event sequence that takes the flag from false to true, some event carries a provider report of a verified account |
| `LoginTraces.SheetOpensOnlyAfterVerificationEmail` | EmailAuthenticator/View/Login.swift:202-214 | in any event sequence that opens the verification sheet, a verification email was sent |
| `LoginTraces.VerificationEmailFollowsAccountCall` | EmailAuthenticator/View/Login.swift:196-214 | in the call log of any event sequence, each verification email directly follows a sign-in or account creation |
| `LoginTraces.ResetNeverSentToEmptyAddress` | EmailAuthenticator/View/Login.swift:174-180 | no event sequence issues a password reset for the empty address |
| `LoginTraces.UnverifiedTicksChangeNothing` | EmailAuthenticator/View/Login.swift:159-168 | any run of timer ticks without a verified user leaves the state as it was and issues only reloads, at most one per tick |
| `LoginTraces.CredentialsKeptWithoutTabChangeOrLogout` | EmailAuthenticator/View/Login.swift:190-233 | without a tab change or a logout, no event sequence changes the tab, the email or either password, including failed submits |
| `LoginTraces.NoPollsAfterSheetCloses` | EmailAuthenticator/View/Login.swift:98-168 | while the sheet is closed, any run of timer events leaves the state as it was and issues no call |
| `LoginTraces.PollScenario` | EmailAuthenticator/View/Login.swift:98-168 | with the sheet open, ticks reading unverified, unverified, verified: the first two change nothing, the third sets the flag and closes the sheet; a fourth tick, whatever it reads, changes nothing and adds no reload, so there are three reloads in all |

## Left out

- Provider calls are opaque foreign calls. This covers Firebase sign-in,
  account creation, verification and reset emails, reload, delete, sign-out
  and `FirebaseApp.configure` (EmailAuthenticatorApp.swift:14). Their outcomes
  are parameters and their invocations are call-log entries.
- Concurrency is not modelled: `Task`, `async`/`await`, `MainActor.run` and
  the `Timer.publish` stream. Each handler is one atomic step, so the model
  covers no interleaving, such as a tick racing with Cancel.
- The timer tick reads the cached verification status while `reload()` runs
  unawaited. The model passes that status as the tick's `CurrentUser`
  parameter.
- The console `print` after a verified login is I/O and is left out.
- The SwiftUI body is not modelled: layout, the verification view's visuals
  and animation, `showLoadingIndicator`, `customTextField` and the previews.
  Nor are the enabled/disabled states of controls (`.disabled(isLoading)`,
  `.disabled(buttonStatus)`) or the modality of sheets and alerts. Event
  sequences in `LoginTraces` may therefore contain events the UI would not
  offer at that moment. The one exception is the verification sheet: its timer
  and its Cancel button act only while `showEmailVerification` holds.
- SwiftUI clears `showAlert` and `showResetAlert` when an alert's button is
  tapped. That is framework behaviour outside the handlers, and the model
  does not do it.
- Typing into the text fields (SwiftUI bindings) is not an event in
  `LoginTraces`.
- The unused `username` property is left out.
- `LoginFlow.Submit`: the password check compares the two strings code point
  by code point (`PasswordsMatch`). Swift's `==` compares by Unicode canonical
  equivalence, so differently composed forms of the same text are equal there.
  Dafny strings carry no normalisation. On such inputs the model reports
  "Mismatching Password" and issues no call, where the app creates the account.
- `LoginView.LoginScreen.LoginAndSignUp`: it uses the same code-point password
  comparison as `LoginFlow.Submit`, for the same reason.
- `@AppStorage` persistence is the plain field `logStatus`. The root view's
  switch between Home and Login on that flag (ContentView.swift:15-20) is
  reflected only in `Logout` restarting Login from its initial state.
