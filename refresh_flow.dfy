/**
 * The token-refresh screen driven by its user, one input at a time.
 * A disabled control ignores input (the password field and Logout while
 * `shouldDisableControls`), the one-time-code field exists only while
 * `showing2FAAlert`, and nothing reaches the screen once it is dismissed.
 * Each submission runs, reply included, as one step before the next input,
 * so a login still in flight (or `didReceive`'s delay) is not a state here.
 * Over such runs from the initial screen the event log stays well formed:
 * at most one refreshed account is handed back, and it keeps the account's
 * identity.
 */
module RefreshFlow {
  import opened Wrappers
  import opened TokenRefresh

  /** One user input, with the server's reply where the input sends a login request. */
  datatype Step =
    | TypePassword(text: string)
    | TypeOneTimeCode(text: string)
    | PasswordReturnPressed(reply: LoginReply)
    | CodeReturnPressed(reply: LoginReply)
    | TapLogout

  predicate Presented(s: Screen) {
    Dismissed !in s.events
  }

  /** Whether the control the step uses is on screen and enabled. */
  predicate Enabled(s: Screen, step: Step) {
    Presented(s) &&
    match step
    case TypePassword(_) | PasswordReturnPressed(_) | TapLogout => !ShouldDisableControls(s.viewState)
    case TypeOneTimeCode(_) | CodeReturnPressed(_) => s.showing2FAAlert
  }

  function Apply(account: SavedAccount, s: Screen, step: Step): (r: Screen)
    ensures |s.events| <= |r.events| && r.events[..|s.events|] == s.events
    ensures !Enabled(s, step) ==> r == s
  {
    if !Enabled(s, step) then s
    else
      match step
      case TypePassword(text) => s.(password := text)
      case TypeOneTimeCode(text) => s.(twoFactorCode := text)
      case PasswordReturnPressed(reply) => PasswordSubmitted(account, s, reply)
      case CodeReturnPressed(reply) => OneTimeCodeSubmitted(account, s, reply)
      case TapLogout => LoggedOut(s)
  }

  /** The screen after the steps, in order; the log only grows. */
  function Run(account: SavedAccount, s: Screen, steps: seq<Step>): (r: Screen)
    ensures |s.events| <= |r.events| && r.events[..|s.events|] == s.events
    decreases |steps|
  {
    if steps == [] then s
    else
      var next := Apply(account, s, steps[0]);
      Run(account, next, steps[1..])
  }

  // ---------------------------------------------------------------------
  // The event log's invariant

  /** The state most recently set in the log, if any. */
  function LastStateSet(events: seq<Event>): (r: Option<ViewState>)
    ensures r.Some? ==> ViewStateSet(r.value) in events
    ensures r.None? <==> forall i | 0 <= i < |events| :: !events[i].ViewStateSet?
    decreases |events|
  {
    if events == [] then None
    else if events[|events| - 1].ViewStateSet? then Some(events[|events| - 1].state)
    else
      var earlier := LastStateSet(events[..|events| - 1]);
      assert forall i | 0 <= i < |events| - 1 :: events[..|events| - 1][i] == events[i];
      earlier
  }

  /** The state the log says the screen is in: `initial` until something is set. */
  function StateOf(events: seq<Event>): ViewState {
    match LastStateSet(events)
    case Some(state) => state
    case None => Initial
  }

  predicate ScopedTo(account: SavedAccount, request: LoginRequest) {
    request.instanceURL == account.instanceLink && request.username == account.username
  }

  /**
   * Every login request comes right after the state was set to `refreshing`
   * and is scoped to the account; every refreshed account keeps the
   * account's identity and is followed by `dismiss()`; nothing follows a
   * dismissal.
   */
  predicate WellFormed(account: SavedAccount, events: seq<Event>) {
    (forall i | 0 <= i < |events| && events[i].LoginRequested? ::
       0 < i && events[i - 1] == ViewStateSet(Refreshing) && ScopedTo(account, events[i].request)) &&
    (forall i | 0 <= i < |events| && events[i].AccountRefreshed? ::
       SameIdentity(events[i].account, account) && i + 1 < |events| && events[i + 1] == Dismissed) &&
    (forall i | 0 <= i < |events| && events[i] == Dismissed :: i == |events| - 1)
  }

  predicate Consistent(account: SavedAccount, s: Screen) {
    WellFormed(account, s.events) && s.viewState == StateOf(s.events)
  }

  lemma {:induction false} LastStateSetConcat(a: seq<Event>, b: seq<Event>)
    ensures LastStateSet(a + b) == if LastStateSet(b).Some? then LastStateSet(b) else LastStateSet(a)
    decreases |b|
  {
    if b == [] {
      assert a + b == a;
    } else {
      var b' := b[..|b| - 1];
      assert (a + b)[..|a + b| - 1] == a + b';
      if !b[|b| - 1].ViewStateSet? {
        LastStateSetConcat(a, b');
      }
    }
  }

  /** A log that hands back an account has been dismissed. */
  lemma RefreshIsFollowedByDismissal(account: SavedAccount, a: seq<Event>)
    requires WellFormed(account, a)
    ensures (exists i | 0 <= i < |a| :: a[i].AccountRefreshed?) ==> Dismissed in a
  {
    if exists i | 0 <= i < |a| :: a[i].AccountRefreshed? {
      var i :| 0 <= i < |a| && a[i].AccountRefreshed?;
      assert a[i + 1] == Dismissed;
    }
  }

  /** Appending a well-formed block that does not start with a request to a log not yet dismissed. */
  lemma WellFormedConcat(account: SavedAccount, a: seq<Event>, b: seq<Event>)
    requires WellFormed(account, a) && Dismissed !in a
    requires WellFormed(account, b) && (|b| > 0 ==> !b[0].LoginRequested?)
    ensures WellFormed(account, a + b)
  {
    var e := a + b;
    RefreshIsFollowedByDismissal(account, a);
    forall i | 0 <= i < |e| && e[i].LoginRequested?
      ensures 0 < i && e[i - 1] == ViewStateSet(Refreshing) && ScopedTo(account, e[i].request)
    {
      if i >= |a| {
        assert e[i] == b[i - |a|];
        if i - |a| > 0 {
          assert e[i - 1] == b[i - |a| - 1];
        }
      } else {
        assert e[i] == a[i];
        assert e[i - 1] == a[i - 1];
      }
    }
    forall i | 0 <= i < |e| && e[i].AccountRefreshed?
      ensures SameIdentity(e[i].account, account) && i + 1 < |e| && e[i + 1] == Dismissed
    {
      if i >= |a| {
        assert e[i] == b[i - |a|] && e[i + 1] == b[i + 1 - |a|];
      }
    }
    forall i | 0 <= i < |e| && e[i] == Dismissed
      ensures i == |e| - 1
    {
      if i >= |a| {
        assert b[i - |a|] == e[i];
      }
    }
  }

  lemma PasswordEventsWellFormed(account: SavedAccount, password: string, reply: LoginReply)
    ensures WellFormed(account, PasswordEvents(account, password, reply))
  {
  }

  lemma PasswordEventsState(account: SavedAccount, s: Screen, reply: LoginReply)
    ensures PasswordSubmitted(account, s, reply).viewState == StateOf(PasswordEvents(account, s.password, reply))
  {
    var request := LoginRequested(LoginRequestFor(account, s.password, None));
    var events := PasswordEvents(account, s.password, reply);
    if reply.Jwt? {
      var upToSuccess := [ViewStateSet(Refreshing), request, ViewStateSet(Success)];
      assert events == upToSuccess + ReceivedEvents(account, reply.token);
      LastStateSetConcat(upToSuccess, ReceivedEvents(account, reply.token));
    } else if !IsIncorrectLogin(reply) && IsTwoFactorRequired(reply) {
      assert events == [ViewStateSet(Refreshing)] + [request, HapticFired(ErrorHaptic)];
      LastStateSetConcat([ViewStateSet(Refreshing)], [request, HapticFired(ErrorHaptic)]);
    }
  }

  lemma OneTimeCodeEventsWellFormed(account: SavedAccount, password: string, code: string, reply: LoginReply)
    ensures WellFormed(account, OneTimeCodeEvents(account, password, code, reply))
  {
  }

  lemma OneTimeCodeEventsState(account: SavedAccount, s: Screen, reply: LoginReply)
    ensures OneTimeCodeSubmitted(account, s, reply).viewState ==
      StateOf(OneTimeCodeEvents(account, s.password, s.twoFactorCode, reply))
  {
    if reply.Jwt? {
      var request := LoginRequested(LoginRequestFor(account, s.password, Some(s.twoFactorCode)));
      var upToSuccess := [ViewStateSet(Refreshing), request, ViewStateSet(Success)];
      assert OneTimeCodeEvents(account, s.password, s.twoFactorCode, reply) == upToSuccess + ReceivedEvents(account, reply.token);
      LastStateSetConcat(upToSuccess, ReceivedEvents(account, reply.token));
    }
  }

  /** Every input keeps the log well formed and in step with the view state. */
  lemma ApplyPreservesConsistency(account: SavedAccount, s: Screen, step: Step)
    requires Consistent(account, s)
    ensures Consistent(account, Apply(account, s, step))
  {
    if Enabled(s, step) {
      match step
      case TypePassword(_) =>
      case TypeOneTimeCode(_) =>
      case PasswordReturnPressed(reply) =>
        var suffix := PasswordEvents(account, s.password, reply);
        PasswordEventsWellFormed(account, s.password, reply);
        PasswordEventsState(account, s, reply);
        WellFormedConcat(account, s.events, suffix);
        LastStateSetConcat(s.events, suffix);
      case CodeReturnPressed(reply) =>
        var suffix := OneTimeCodeEvents(account, s.password, s.twoFactorCode, reply);
        OneTimeCodeEventsWellFormed(account, s.password, s.twoFactorCode, reply);
        OneTimeCodeEventsState(account, s, reply);
        WellFormedConcat(account, s.events, suffix);
        LastStateSetConcat(s.events, suffix);
      case TapLogout =>
        WellFormedConcat(account, s.events, [Dismissed]);
        LastStateSetConcat(s.events, [Dismissed]);
    }
  }

  lemma {:induction false} RunPreservesConsistency(account: SavedAccount, s: Screen, steps: seq<Step>)
    requires Consistent(account, s)
    ensures Consistent(account, Run(account, s, steps))
    decreases |steps|
  {
    if steps != [] {
      ApplyPreservesConsistency(account, s, steps[0]);
      RunPreservesConsistency(account, Apply(account, s, steps[0]), steps[1..]);
    }
  }

  /**
   * For any inputs and replies, in runs where each submission completes
   * before the next input, `refreshedAccount` is called at most once, with
   * the account's id, instance and username, and every login request goes
   * to the account's instance for its username after the screen has shown
   * `refreshing`.
   */
  lemma FlowGuarantees(account: SavedAccount, steps: seq<Step>)
    ensures var events := Run(account, InitialScreen, steps).events;
      (forall i, j | 0 <= i < |events| && 0 <= j < |events| &&
         events[i].AccountRefreshed? && events[j].AccountRefreshed? :: i == j) &&
      (forall i | 0 <= i < |events| && events[i].AccountRefreshed? ::
         SameIdentity(events[i].account, account)) &&
      (forall i | 0 <= i < |events| && events[i].LoginRequested? ::
         0 < i && events[i - 1] == ViewStateSet(Refreshing) && ScopedTo(account, events[i].request))
  {
    RunPreservesConsistency(account, InitialScreen, steps);
    var events := Run(account, InitialScreen, steps).events;
    forall i, j | 0 <= i < |events| && 0 <= j < |events| && events[i].AccountRefreshed? && events[j].AccountRefreshed?
      ensures i == j
    {
      assert events[i + 1] == Dismissed && events[j + 1] == Dismissed;
    }
  }

  /**
   * After a two-factor-required reply the view stays `refreshing`: the
   * one-time-code field is shown and focused while the password field and
   * Logout stay disabled.
   */
  lemma AwaitingOneTimeCode(account: SavedAccount, s: Screen, reply: LoginReply)
    requires IsTwoFactorRequired(reply) && !IsIncorrectLogin(reply)
    ensures var r := PasswordSubmitted(account, s, reply);
      r.viewState == Refreshing && r.selectedField == Some(OneTimeCode) &&
      (Presented(s) ==> Enabled(r, CodeReturnPressed(reply)) && !Enabled(r, TapLogout) && !Enabled(r, PasswordReturnPressed(reply)))
  {
    var r := PasswordSubmitted(account, s, reply);
    if Presented(s) {
      assert Dismissed !in PasswordEvents(account, s.password, reply);
    }
  }

  /** A correct password: the screen goes `refreshing`, then `success`, and hands back the refreshed account. */
  lemma CorrectPasswordScenario(account: SavedAccount, password: string, token: string)
    ensures Run(account, InitialScreen, [TypePassword(password), PasswordReturnPressed(Jwt(token))]).events ==
      [ViewStateSet(Refreshing), LoginRequested(LoginRequest(account.instanceLink, account.username, password, None)),
       ViewStateSet(Success), HapticFired(SuccessHaptic), AccountRefreshed(RefreshedAccount(account, token)), Dismissed]
  {
    var steps := [TypePassword(password), PasswordReturnPressed(Jwt(token))];
    var typed := InitialScreen.(password := password);
    assert Apply(account, InitialScreen, steps[0]) == typed;
    var done := PasswordSubmitted(account, typed, Jwt(token));
    assert Enabled(typed, steps[1]);
    assert Apply(account, typed, steps[1]) == done;
    assert steps[1..] == [PasswordReturnPressed(Jwt(token))] && steps[1..][1..] == [];
    assert Run(account, InitialScreen, steps) == Run(account, typed, steps[1..]);
    assert Run(account, typed, steps[1..]) == Run(account, done, []);

  }

  /** A wrong password: `refreshing`, then `incorrectLogin` with the password field focused; no account is handed back. */
  lemma WrongPasswordScenario(account: SavedAccount, password: string, error: ApiError)
    requires error.isIncorrectLogin
    ensures var r := Run(account, InitialScreen, [TypePassword(password), PasswordReturnPressed(ResponseError(error))]);
      r.events ==
        [ViewStateSet(Refreshing), LoginRequested(LoginRequest(account.instanceLink, account.username, password, None)),
         HapticFired(ErrorHaptic), ViewStateSet(IncorrectLogin)] &&
      r.viewState == IncorrectLogin && r.selectedField == Some(Password)
  {
    var steps := [TypePassword(password), PasswordReturnPressed(ResponseError(error))];
    var typed := InitialScreen.(password := password);
    assert Apply(account, InitialScreen, steps[0]) == typed;
    var done := PasswordSubmitted(account, typed, ResponseError(error));
    assert Enabled(typed, steps[1]);
    assert Apply(account, typed, steps[1]) == done;
    assert steps[1..] == [PasswordReturnPressed(ResponseError(error))] && steps[1..][1..] == [];
    assert Run(account, InitialScreen, steps) == Run(account, typed, steps[1..]);
    assert Run(account, typed, steps[1..]) == Run(account, done, []);

  }
}
