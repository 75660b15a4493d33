/**
 * The session-expired screen that asks the user for their password again
 * (and, for accounts with two-factor authentication, a one-time code) and
 * hands back the account with a fresh access token.
 *
 * The login call is replaced by the reply the server gives to it, supplied
 * by the caller; haptics, the `refreshedAccount` callback and `dismiss()`
 * are recorded in an event log, in the order they happen.
 */
module TokenRefresh {
  import opened Wrappers

  datatype ViewState = Initial | Refreshing | Success | IncorrectLogin

  datatype FocusedField = Password | OneTimeCode

  /** An instance URL; `host` is what Foundation's `host()` gives for it. */
  datatype Url = Url(absoluteString: string, host: Option<string>)

  datatype SavedAccount = SavedAccount(id: int, instanceLink: Url, accessToken: string, username: string)

  datatype LoginRequest = LoginRequest(instanceURL: Url, username: string, password: string, totpToken: Option<string>)

  /** The structured payload of an error response from the instance. */
  datatype ApiError = ApiError(isIncorrectLogin: bool, requires2FA: bool)

  /** How the login call ends. */
  datatype LoginReply =
    | Jwt(token: string)                  // the response's `jwt`
    | ResponseError(apiError: ApiError)   // `APIClientError.response(apiError, _)` was thrown
    | OtherError                          // anything else was thrown (transport, decoding, ...)

  datatype Haptic = SuccessHaptic | ErrorHaptic

  /** What the screen does that is visible outside its own fields. */
  datatype Event =
    | ViewStateSet(state: ViewState)
    | LoginRequested(request: LoginRequest)
    | HapticFired(haptic: Haptic)
    | AccountRefreshed(account: SavedAccount)
    | Dismissed

  /** The screen's mutable state: its `@State` and `@FocusState` fields and the event log. */
  datatype Screen = Screen(
    password: string,
    twoFactorCode: string,
    viewState: ViewState,
    showing2FAAlert: bool,
    selectedField: Option<FocusedField>,
    events: seq<Event>)

  const InitialScreen := Screen("", "", Initial, false, None, [])

  // ---------------------------------------------------------------------
  // What the view shows for a state

  datatype Header = WarningTriangle | ProgressSpinner | Checkmark

  const LoggingInText := "Logging In..."
  const LoginSuccessfulText := "Login Succesful"
  const SessionExpiredPrompt := "Your current session has expired, you will need to log in to continue.\n\nPlease enter the password for\n"
  const IncorrectPasswordText := "The password you entered was incorrect"

  /** Controls that could start a second login (password field, Logout) are off while a call is in flight or has succeeded. */
  function ShouldDisableControls(state: ViewState): (disabled: bool)
    ensures disabled <==> state in {Refreshing, Success}
    ensures !disabled <==> state in {Initial, IncorrectLogin}
  {
    match state
    case Refreshing | Success => true
    case Initial | IncorrectLogin => false
  }

  /** The image above the text: a warning exactly when the user is asked for input. */
  function HeaderFor(state: ViewState): (h: Header)
    ensures h == WarningTriangle <==> !ShouldDisableControls(state)
    ensures h == ProgressSpinner <==> state == Refreshing
    ensures h == Checkmark <==> state == Success
  {
    match state
    case Initial | IncorrectLogin => WarningTriangle
    case Refreshing => ProgressSpinner
    case Success => Checkmark
  }

  function HostOf(link: Url): (host: string) {
    match link.host
    case Some(h) => h
    case None => ""
  }

  /** `username@host` of the account, as the prompt names it. */
  function AccountHandle(account: SavedAccount): (handle: string) {
    account.username + "@" + HostOf(account.instanceLink)
  }

  /** The explanatory text under the header. */
  function InformationText(state: ViewState, account: SavedAccount): (text: string)
    ensures text == LoggingInText <==> state == Refreshing
    ensures text == LoginSuccessfulText <==> state == Success
    ensures state in {Initial, IncorrectLogin} ==>
      |AccountHandle(account)| < |text| && text[|text| - |AccountHandle(account)|..] == AccountHandle(account)
  {
    match state
    case Initial | IncorrectLogin => SessionExpiredPrompt + AccountHandle(account)
    case Refreshing => LoggingInText
    case Success => LoginSuccessfulText
  }

  /** The red notice under the password field. */
  function IncorrectPasswordNotice(state: ViewState): (notice: Option<string>)
    ensures notice.Some? <==> state == IncorrectLogin
    ensures notice.Some? ==> notice.value == IncorrectPasswordText
  {
    if state == IncorrectLogin then Some(IncorrectPasswordText) else None
  }

  /** `initial` and `incorrectLogin` look the same apart from the red notice. */
  lemma PromptStatesShareHeaderAndText(account: SavedAccount)
    ensures HeaderFor(Initial) == HeaderFor(IncorrectLogin)
    ensures InformationText(Initial, account) == InformationText(IncorrectLogin, account)
    ensures IncorrectPasswordNotice(Initial) != IncorrectPasswordNotice(IncorrectLogin)
  {
  }

  // ---------------------------------------------------------------------
  // Requests and refreshed accounts

  predicate SameIdentity(a: SavedAccount, b: SavedAccount) {
    a.id == b.id && a.instanceLink == b.instanceLink && a.username == b.username
  }

  /** The account handed back after a successful login: same identity, new token. */
  function RefreshedAccount(account: SavedAccount, newToken: string): (r: SavedAccount)
    ensures SameIdentity(r, account) && r.accessToken == newToken
    ensures newToken == account.accessToken ==> r == account
  {
    SavedAccount(account.id, account.instanceLink, newToken, account.username)
  }

  /** The login request: always scoped to the account's instance and username. */
  function LoginRequestFor(account: SavedAccount, password: string, totpToken: Option<string>): (r: LoginRequest)
    ensures r.instanceURL == account.instanceLink && r.username == account.username
    ensures r.password == password && r.totpToken == totpToken
  {
    LoginRequest(account.instanceLink, account.username, password, totpToken)
  }

  predicate IsIncorrectLogin(reply: LoginReply) {
    reply.ResponseError? && reply.apiError.isIncorrectLogin
  }

  predicate IsTwoFactorRequired(reply: LoginReply) {
    reply.ResponseError? && reply.apiError.requires2FA
  }

  // ---------------------------------------------------------------------
  // The handlers, as functions of the screen state

  /** `updateViewState`. */
  function WithViewState(s: Screen, state: ViewState): (r: Screen) {
    s.(viewState := state, events := s.events + [ViewStateSet(state)])
  }

  /** The request `refreshToken` sends: the `password` field, whatever it was asked to use. */
  function WithLoginRequest(account: SavedAccount, s: Screen, totpToken: Option<string>): (r: Screen) {
    s.(events := s.events + [LoginRequested(LoginRequestFor(account, s.password, totpToken))])
  }

  /** What `didReceive` does: success haptic, the callback with the refreshed account, then `dismiss()`. */
  function ReceivedEvents(account: SavedAccount, token: string): (events: seq<Event>) {
    [HapticFired(SuccessHaptic), AccountRefreshed(RefreshedAccount(account, token)), Dismissed]
  }

  function WithReceivedToken(account: SavedAccount, s: Screen, token: string): (r: Screen) {
    s.(events := s.events + ReceivedEvents(account, token))
  }

  /** The events a successful login appends after the request. */
  function SuccessEvents(account: SavedAccount, token: string): (events: seq<Event>) {
    [ViewStateSet(Success)] + ReceivedEvents(account, token)
  }

  /**
   * What the password field's `onSubmit` records: `refreshing`, then the
   * request with the `password` field and no TOTP token, then by reply:
   * success; or the error haptic followed by `incorrectLogin` (checked
   * first), by nothing (two-factor required), or by `initial`.
   */
  function PasswordEvents(account: SavedAccount, password: string, reply: LoginReply): (events: seq<Event>) {
    [ViewStateSet(Refreshing), LoginRequested(LoginRequestFor(account, password, None))] +
    if reply.Jwt? then SuccessEvents(account, reply.token)
    else if IsIncorrectLogin(reply) then [HapticFired(ErrorHaptic), ViewStateSet(IncorrectLogin)]
    else if IsTwoFactorRequired(reply) then [HapticFired(ErrorHaptic)]
    else [HapticFired(ErrorHaptic), ViewStateSet(Initial)]
  }

  /**
   * What the one-time-code field's `onSubmit` records: `refreshing`, the
   * request with the code as TOTP token, then success or `initial`.
   */
  function OneTimeCodeEvents(account: SavedAccount, password: string, code: string, reply: LoginReply): (events: seq<Event>) {
    [ViewStateSet(Refreshing), LoginRequested(LoginRequestFor(account, password, Some(code)))] +
    if reply.Jwt? then SuccessEvents(account, reply.token) else [ViewStateSet(Initial)]
  }

  /**
   * The password field's `onSubmit`. A failure is classified incorrect
   * login first, then two-factor required, then anything else.
   */
  function PasswordSubmitted(account: SavedAccount, s: Screen, reply: LoginReply): (r: Screen)
    ensures r.password == s.password && r.twoFactorCode == s.twoFactorCode
    ensures r.events == s.events + PasswordEvents(account, s.password, reply)
    ensures reply.Jwt? ==>
      r.viewState == Success && r.showing2FAAlert == s.showing2FAAlert && r.selectedField == s.selectedField
    ensures IsIncorrectLogin(reply) ==>
      r.viewState == IncorrectLogin && r.selectedField == Some(Password) && r.showing2FAAlert == s.showing2FAAlert
    ensures IsTwoFactorRequired(reply) && !IsIncorrectLogin(reply) ==>
      r.viewState == Refreshing && r.showing2FAAlert && r.selectedField == Some(OneTimeCode)
    ensures !reply.Jwt? && !IsIncorrectLogin(reply) && !IsTwoFactorRequired(reply) ==>
      r.viewState == Initial && r.showing2FAAlert == s.showing2FAAlert && r.selectedField == s.selectedField
  {
    var requested := WithLoginRequest(account, WithViewState(s, Refreshing), None);
    if reply.Jwt? then
      WithReceivedToken(account, WithViewState(requested, Success), reply.token)
    else
      var failed := requested.(events := requested.events + [HapticFired(ErrorHaptic)]);
      if IsIncorrectLogin(reply) then
        WithViewState(failed, IncorrectLogin).(selectedField := Some(Password))
      else if IsTwoFactorRequired(reply) then
        failed.(showing2FAAlert := true, selectedField := Some(OneTimeCode))
      else
        WithViewState(failed, Initial)
  }

  /**
   * `refreshTokenUsing2FA`, the one-time-code field's `onSubmit`: any
   * failure goes back to `initial`, with no haptic and no focus change.
   */
  function OneTimeCodeSubmitted(account: SavedAccount, s: Screen, reply: LoginReply): (r: Screen)
    ensures r.password == s.password && r.twoFactorCode == s.twoFactorCode
    ensures r.showing2FAAlert == s.showing2FAAlert && r.selectedField == s.selectedField
    ensures r.events == s.events + OneTimeCodeEvents(account, s.password, s.twoFactorCode, reply)
    ensures r.viewState == if reply.Jwt? then Success else Initial
  {
    var requested := WithLoginRequest(account, WithViewState(s, Refreshing), Some(s.twoFactorCode));
    if reply.Jwt? then WithReceivedToken(account, WithViewState(requested, Success), reply.token)
    else WithViewState(requested, Initial)
  }

  /** The one-time-code path never lands in `incorrectLogin` and never fires the error haptic. */
  lemma OneTimeCodeFailsQuietly(account: SavedAccount, s: Screen, reply: LoginReply)
    ensures OneTimeCodeSubmitted(account, s, reply).viewState != IncorrectLogin
    ensures HapticFired(ErrorHaptic) !in OneTimeCodeEvents(account, s.password, s.twoFactorCode, reply)
  {
  }

  /** The Logout button: `dismiss()`. */
  function LoggedOut(s: Screen): (r: Screen)
    ensures r.events == s.events + [Dismissed]
    ensures r.(events := s.events) == s
  {
    s.(events := s.events + [Dismissed])
  }

  // ---------------------------------------------------------------------
  // The view, with its fields updated in place

  class TokenRefreshView {
    const account: SavedAccount
    var password: string
    var twoFactorCode: string
    var viewState: ViewState
    var showing2FAAlert: bool
    var selectedField: Option<FocusedField>
    var events: seq<Event>

    function Snapshot(): Screen
      reads this
    {
      Screen(password, twoFactorCode, viewState, showing2FAAlert, selectedField, events)
    }

    constructor (account: SavedAccount)
      ensures this.account == account && Snapshot() == InitialScreen
    {
      this.account := account;
      password, twoFactorCode := "", "";
      viewState := Initial;
      showing2FAAlert := false;
      selectedField := None;
      events := [];
    }

    /** The `$password` binding of the password field. */
    method EditPassword(text: string)
      modifies this
      ensures Snapshot() == old(Snapshot()).(password := text)
    {
      password := text;
    }

    /** The `$twoFactorCode` binding of the one-time-code field. */
    method EditTwoFactorCode(text: string)
      modifies this
      ensures Snapshot() == old(Snapshot()).(twoFactorCode := text)
    {
      twoFactorCode := text;
    }

    method UpdateViewState(newValue: ViewState)
      modifies this
      ensures Snapshot() == WithViewState(old(Snapshot()), newValue)
    {
      viewState := newValue;
      events := events + [ViewStateSet(newValue)];
    }

    /**
     * `refreshToken(with:twoFactorToken:)`. `newPassword` is not used: the
     * request carries the `password` field. `reply` is how the call ends.
     */
    method RefreshToken(newPassword: string, twoFactorToken: Option<string>, reply: LoginReply) returns (outcome: LoginReply)
      modifies this
      ensures outcome == reply
      ensures Snapshot() == WithLoginRequest(account, old(Snapshot()), twoFactorToken)
    {
      events := events + [LoginRequested(LoginRequestFor(account, password, twoFactorToken))];
      outcome := reply;
    }

    method DidReceive(newToken: string)
      modifies this
      ensures Snapshot() == WithReceivedToken(account, old(Snapshot()), newToken)
    {
      events := events + [HapticFired(SuccessHaptic)];
      events := events + [AccountRefreshed(RefreshedAccount(account, newToken))];
      events := events + [Dismissed];
    }

    method SubmitPassword(reply: LoginReply)
      modifies this
      ensures Snapshot() == PasswordSubmitted(account, old(Snapshot()), reply)
    {
      UpdateViewState(Refreshing);
      var outcome := RefreshToken(password, None, reply);
      if outcome.Jwt? {
        UpdateViewState(Success);
        DidReceive(outcome.token);
      } else {
        events := events + [HapticFired(ErrorHaptic)];
        if outcome.ResponseError? && outcome.apiError.isIncorrectLogin {
          UpdateViewState(IncorrectLogin);
          selectedField := Some(Password);
          return;
        }
        if outcome.ResponseError? && outcome.apiError.requires2FA {
          showing2FAAlert := true;
          selectedField := Some(OneTimeCode);
          return;
        }
        UpdateViewState(Initial);
      }
    }

    method SubmitOneTimeCode(reply: LoginReply)
      modifies this
      ensures Snapshot() == OneTimeCodeSubmitted(account, old(Snapshot()), reply)
    {
      UpdateViewState(Refreshing);
      var outcome := RefreshToken(password, Some(twoFactorCode), reply);
      if outcome.Jwt? {
        UpdateViewState(Success);
        DidReceive(outcome.token);
      } else {
        UpdateViewState(Initial);
      }
    }

    method Logout()
      modifies this
      ensures Snapshot() == LoggedOut(old(Snapshot()))
    {
      events := events + [Dismissed];
    }
  }
}
