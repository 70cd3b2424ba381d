/** The OAuth landing page of `src/pages/AuthCallback.js`: from the `token`
    and `error` query parameters, the outcome of its verify call and whether
    the page runs inside the extension, `handleAuthCallback` decides a
    sequence of effects. `Run` gives what those effects do to the session
    state of the auth provider, and `Callback` adds the answer to the check
    that `login` starts without awaiting it. */
module AuthCallback {
  import opened Js
  import opened Protocol
  import opened Browser
  import opened Api
  import opened AuthContext

  const AuthFailedMessage := "Authentication failed"
  const NoTokenMessage := "No authentication token received"
  const ExtensionSuccessMessage := "Authentication successful! You can now use the extension."
  const WelcomeMessage := "Welcome to Linkify!"
  const CompaniesPath := "/companies"

  /** The calls `handleAuthCallback` makes, in order. */
  datatype Effect =
    | Login(token: string)                                          // login(token)
    | SetToken(token: string)                                       // apiService.setAuthToken(token)
    | Verify                                                        // await apiService.verifyAuth()
    | Notify(token: string, user: User, accountDomain: Option<string>)  // notifyExtensionAuth(...)
    | ErrorToast(message: string)
    | SuccessToast(message: string)
    | Navigate(path: string)

  /** No two effects navigate. */
  predicate AtMostOneNavigation(effects: seq<Effect>)
  {
    forall i, j :: 0 <= i < j < |effects| ==> !(effects[i].Navigate? && effects[j].Navigate?)
  }

  /** The `catch` block: an error toast, and `/login` outside the extension. */
  function Failure(isInExtension: bool): seq<Effect>
  {
    [ErrorToast(AuthFailedMessage)] + (if isInExtension then [] else [Navigate(LoginPath)])
  }

  /** Whether the verify call answers `valid: false`. */
  predicate Invalid(verify: VerifyOutcome)
  {
    verify.Verified? && !verify.valid
  }

  /** Whether the verify call answers valid with a user object. */
  predicate VerifiedUser(verify: VerifyOutcome)
  {
    verify.Verified? && verify.valid && verify.user.Some?
  }

  /** `handleAuthCallback`. A truthy `error` wins over any token; a truthy
      token is logged in, attached and verified; a valid answer notifies the
      extension (inside it) or greets and goes to `/companies` (outside);
      `valid: false` ends silently; a rejected verify, or a valid answer
      without a user (reading `userData.email` throws), ends in the `catch`
      block; no token at all goes to `/login`. */
  function CallbackEffects(token: Option<string>, error: Option<string>, verify: VerifyOutcome, isInExtension: bool): (effects: seq<Effect>)
    ensures Truthy(error) ==> effects == [ErrorToast(AuthFailedMessage), Navigate(LoginPath)]
    ensures !Truthy(error) && !Truthy(token) ==> effects == [ErrorToast(NoTokenMessage), Navigate(LoginPath)]
    ensures !Truthy(error) && Truthy(token) ==>
      |effects| >= 3 && effects[..3] == [Login(token.value), SetToken(token.value), Verify]
    ensures Invalid(verify) && !Truthy(error) && Truthy(token) ==>
      effects == [Login(token.value), SetToken(token.value), Verify]
  {
    if Truthy(error) then [ErrorToast(AuthFailedMessage), Navigate(LoginPath)]
    else if Truthy(token) then
      var t := token.value;
      var calls := [Login(t), SetToken(t), Verify];
      match verify
      case VerifyFailed(_) => calls + Failure(isInExtension)
      case Verified(valid, user) =>
        if !valid then calls
        else if user.None? then calls + Failure(isInExtension)
        else if isInExtension then
          var u := user.value;
          calls + [Notify(t, u, AccountDomain(u.email, u.accountDomain)), SuccessToast(ExtensionSuccessMessage)]
        else calls + [SuccessToast(WelcomeMessage), Navigate(CompaniesPath)]
    else [ErrorToast(NoTokenMessage), Navigate(LoginPath)]
  }

  /** `login` is called, once and first, exactly when there is a truthy
      token and no truthy error. */
  lemma CallbackLogsIn(token: Option<string>, error: Option<string>, verify: VerifyOutcome, isInExtension: bool)
    ensures var effects := CallbackEffects(token, error, verify, isInExtension);
      ((|effects| > 0 && effects[0].Login?) <==> (!Truthy(error) && Truthy(token))) &&
      (forall i :: 0 < i < |effects| ==> !effects[i].Login?)
  {
  }

  /** The extension is notified only from inside it, after a valid verify
      with a user, with the callback's token, that user and the account
      domain derived from the user. */
  lemma CallbackNotifyArguments(token: Option<string>, error: Option<string>, verify: VerifyOutcome, isInExtension: bool)
    ensures var effects := CallbackEffects(token, error, verify, isInExtension);
      forall e :: e in effects && e.Notify? ==>
        isInExtension && VerifiedUser(verify) && e.token == token.value && e.user == verify.user.value &&
        e.accountDomain == AccountDomain(verify.user.value.email, verify.user.value.accountDomain)
  {
  }

  /** The callback navigates at most once: to `/companies` after a valid
      verify with a user outside the extension; to `/login` after a bad
      parameter, or outside the extension after a failure; and nowhere when
      the verify answers `valid: false` or, inside the extension, after a
      verify call. */
  lemma CallbackNavigation(token: Option<string>, error: Option<string>, verify: VerifyOutcome, isInExtension: bool)
    ensures var effects := CallbackEffects(token, error, verify, isInExtension);
      AtMostOneNavigation(effects) &&
      (Navigate(CompaniesPath) in effects <==>
        (!Truthy(error) && Truthy(token) && !isInExtension && VerifiedUser(verify))) &&
      (Navigate(LoginPath) in effects <==>
        (Truthy(error) || !Truthy(token) || (!isInExtension && !Invalid(verify) && !VerifiedUser(verify)))) &&
      ((forall e :: e in effects ==> !e.Navigate?) <==>
        (!Truthy(error) && Truthy(token) && (Invalid(verify) || isInExtension)))
  {
    var effects := CallbackEffects(token, error, verify, isInExtension);
    if !Truthy(error) && Truthy(token) {
      var t := token.value;
      var calls := [Login(t), SetToken(t), Verify];
      if VerifiedUser(verify) {
        var u := verify.user.value;
        if isInExtension {
          assert effects == calls + [Notify(t, u, AccountDomain(u.email, u.accountDomain)), SuccessToast(ExtensionSuccessMessage)];
        } else {
          assert effects == calls + [SuccessToast(WelcomeMessage), Navigate(CompaniesPath)];
          assert effects[4] == Navigate(CompaniesPath);
        }
      } else if !Invalid(verify) {
        assert effects == calls + Failure(isInExtension);
        if !isInExtension {
          assert effects[4] == Navigate(LoginPath);
        }
      }
    } else {
      assert effects[1] == Navigate(LoginPath);
    }
  }

  /** What the effects do to the session state, given how the callback's own
      verify call settles (a rejection runs the response interceptor).
      `login` returns at its check's `await`, so its own verify request is
      sent before the callback attaches the token and sends its verify.
      Toasts and navigation leave the session alone. */
  function Run(s: AuthState, effects: seq<Effect>, verify: VerifyOutcome): AuthState
    decreases |effects|
  {
    if effects == [] then s
    else Run(Step(s, effects[0], verify), effects[1..], verify)
  }

  /** One effect. */
  function Step(s: AuthState, e: Effect, verify: VerifyOutcome): AuthState
  {
    match e
    case Login(t) => LoginBegun(s, t)
    case SetToken(t) => s.(env := AttachToken(s.env, Some(t)))
    case Verify => VerifyAnswered(s.(env := SendRequest(s.env, AuthVerify)), verify)
    case Notify(t, u, d) => s.(env := Notified(s.env, Some(t), u, d, s.isInExtension))
    case _ => s
  }

  /** The callback's verify answer reaching the client: a rejection runs the
      response interceptor, any other answer changes nothing there. */
  function VerifyAnswered(s: AuthState, verify: VerifyOutcome): AuthState
  {
    if verify.VerifyFailed? then s.(env := RejectResponse(s.env, verify.error)) else s
  }

  /** The whole callback: the effects, then the answer to the check `login`
      started, which `loginCheck` gives. Settling that check earlier, right
      after the callback's own request is sent, gives the same state
      (`EitherAnswerFirst`). */
  function Callback(s: AuthState, token: Option<string>, error: Option<string>, loginCheck: VerifyOutcome, verify: VerifyOutcome): AuthState
  {
    var r := Run(s, CallbackEffects(token, error, verify, s.isInExtension), verify);
    if !Truthy(error) && Truthy(token) then CheckSettled(r, loginCheck) else r
  }

  lemma RunCons(s: AuthState, e: Effect, rest: seq<Effect>, verify: VerifyOutcome)
    ensures Run(s, [e] + rest, verify) == Run(Step(s, e, verify), rest, verify)
  {
    assert ([e] + rest)[1..] == rest;
  }

  lemma {:induction false} RunAppend(s: AuthState, a: seq<Effect>, b: seq<Effect>, verify: VerifyOutcome)
    ensures Run(s, a + b, verify) == Run(Run(s, a, verify), b, verify)
    decreases |a|
  {
    if a != [] {
      assert a + b == [a[0]] + (a[1..] + b);
      RunCons(s, a[0], a[1..] + b, verify);
      RunAppend(Step(s, a[0], verify), a[1..], b, verify);
    } else {
      assert a + b == b;
    }
  }

  /** The state once `login` has returned, the token is attached again and
      the callback's verify request is sent. */
  function CallsSent(s: AuthState, t: string): AuthState
  {
    var begun := LoginBegun(s, t);
    var attached := begun.(env := AttachToken(begun.env, Some(t)));
    attached.(env := SendRequest(attached.env, AuthVerify))
  }

  /** The three calls a truthy token starts. */
  lemma RunCalls(s: AuthState, t: string, verify: VerifyOutcome)
    ensures Run(s, [Login(t), SetToken(t), Verify], verify) == VerifyAnswered(CallsSent(s, t), verify)
  {
    var a := LoginBegun(s, t);
    var b := Step(a, SetToken(t), verify);
    RunCons(s, Login(t), [SetToken(t), Verify], verify);
    RunCons(a, SetToken(t), [Verify], verify);
    RunCons(b, Verify, [], verify);
  }

  /** A parameter problem leaves the session exactly as it was: no login, no request. */
  lemma BadParametersChangeNothing(s: AuthState, token: Option<string>, error: Option<string>, loginCheck: VerifyOutcome, verify: VerifyOutcome)
    requires Truthy(error) || !Truthy(token)
    ensures Callback(s, token, error, loginCheck, verify) == s
  {
    var effects := CallbackEffects(token, error, verify, s.isInExtension);
    RunCons(s, effects[0], [effects[1]], verify);
    RunCons(s, effects[1], [], verify);
  }

  /** The effects after the three calls. */
  predicate TailEffect(e: Effect)
  {
    e.ErrorToast? || e.SuccessToast? || e.Navigate? || e.Notify?
  }

  /** Toasts, navigation and notification send nothing and leave the stored
      token, the header and the user alone. */
  lemma {:induction false} TailOnlyPosts(s: AuthState, tail: seq<Effect>, verify: VerifyOutcome)
    requires forall i :: 0 <= i < |tail| ==> TailEffect(tail[i])
    ensures var r := Run(s, tail, verify);
      r.env.sent == s.env.sent && r.user == s.user && r.env.storage == s.env.storage &&
      r.env.authorization == s.env.authorization &&
      r.isInExtension == s.isInExtension && r.env.hasParent == s.env.hasParent
    decreases |tail|
  {
    if tail != [] {
      var next := Step(s, tail[0], verify);
      assert forall i :: 0 <= i < |tail[1..]| ==> tail[1..][i] == tail[i + 1];
      TailOnlyPosts(next, tail[1..], verify);
    }
  }

  /** Toasts and navigation change nothing at all. */
  lemma {:induction false} TailKeepsState(s: AuthState, tail: seq<Effect>, verify: VerifyOutcome)
    requires forall i :: 0 <= i < |tail| ==> tail[i].ErrorToast? || tail[i].SuccessToast? || tail[i].Navigate?
    ensures Run(s, tail, verify) == s
    decreases |tail|
  {
    if tail != [] {
      assert forall i :: 0 <= i < |tail[1..]| ==> tail[1..][i] == tail[i + 1];
      TailKeepsState(s, tail[1..], verify);
    }
  }

  /** Splits the effects of a truthy token into the three calls and the rest. */
  lemma SplitCalls(s: AuthState, t: string, error: Option<string>, verify: VerifyOutcome)
    requires !Truthy(error) && t != ""
    ensures var effects := CallbackEffects(Some(t), error, verify, s.isInExtension);
      var tail := effects[3..];
      Run(s, effects, verify) == Run(Run(s, [Login(t), SetToken(t), Verify], verify), tail, verify) &&
      (forall i :: 0 <= i < |tail| ==> TailEffect(tail[i])) &&
      (!(s.isInExtension && VerifiedUser(verify)) ==>
        forall i :: 0 <= i < |tail| ==> tail[i].ErrorToast? || tail[i].SuccessToast? || tail[i].Navigate?) &&
      (s.isInExtension && VerifiedUser(verify) ==>
        tail == [Notify(t, verify.user.value, AccountDomain(verify.user.value.email, verify.user.value.accountDomain)),
                 SuccessToast(ExtensionSuccessMessage)])
  {
    var effects := CallbackEffects(Some(t), error, verify, s.isInExtension);
    assert effects == effects[..3] + effects[3..];
    RunAppend(s, effects[..3], effects[3..], verify);
  }

  /** The callback with a truthy token: the three calls, the tail, then
      login's check. */
  lemma {:induction false} CallbackShape(s: AuthState, t: string, error: Option<string>, loginCheck: VerifyOutcome, verify: VerifyOutcome)
    requires !Truthy(error) && t != ""
    ensures var tail := CallbackEffects(Some(t), error, verify, s.isInExtension)[3..];
      Callback(s, Some(t), error, loginCheck, verify) ==
        CheckSettled(Run(VerifyAnswered(CallsSent(s, t), verify), tail, verify), loginCheck)
  {
    SplitCalls(s, t, error, verify);
    RunCalls(s, t, verify);
  }

  // ---------------------------------------------------------------------
  // The order of the two answers

  /** Login's check settling commutes with the callback's verify answer. */
  lemma AnswersCommute(x: AuthState, loginCheck: VerifyOutcome, verify: VerifyOutcome)
    ensures CheckSettled(VerifyAnswered(x, verify), loginCheck) == VerifyAnswered(CheckSettled(x, loginCheck), verify)
  {
    if verify.VerifyFailed? && loginCheck.VerifyFailed? {
      var e1 := verify.error;
      var e2 := loginCheck.error;
      assert ClearSession(RejectResponse(RejectResponse(x.env, e1), e2)) ==
        RejectResponse(ClearSession(RejectResponse(x.env, e2)), e1);
    }
  }

  /** Login's check settling commutes with the toasts, navigation and
      notification after the verify call. */
  lemma {:induction false} SettleCommutesWithTail(x: AuthState, tail: seq<Effect>, loginCheck: VerifyOutcome, verify: VerifyOutcome)
    requires forall i :: 0 <= i < |tail| ==> TailEffect(tail[i])
    ensures CheckSettled(Run(x, tail, verify), loginCheck) == Run(CheckSettled(x, loginCheck), tail, verify)
    decreases |tail|
  {
    if tail != [] {
      assert forall i :: 0 <= i < |tail[1..]| ==> tail[1..][i] == tail[i + 1];
      assert CheckSettled(Step(x, tail[0], verify), loginCheck) == Step(CheckSettled(x, loginCheck), tail[0], verify);
      SettleCommutesWithTail(Step(x, tail[0], verify), tail[1..], loginCheck, verify);
    }
  }

  /** Both verify requests are in flight together. Whether login's check
      answers first (before the callback's own answer) or last, the
      callback ends in the same state. */
  lemma EitherAnswerFirst(s: AuthState, t: string, error: Option<string>, loginCheck: VerifyOutcome, verify: VerifyOutcome)
    requires !Truthy(error) && t != ""
    ensures var tail := CallbackEffects(Some(t), error, verify, s.isInExtension)[3..];
      Callback(s, Some(t), error, loginCheck, verify) ==
        Run(VerifyAnswered(CheckSettled(CallsSent(s, t), loginCheck), verify), tail, verify)
  {
    var tail := CallbackEffects(Some(t), error, verify, s.isInExtension)[3..];
    CallbackShape(s, t, error, loginCheck, verify);
    SplitCalls(s, t, error, verify);
    SettleCommutesWithTail(VerifyAnswered(CallsSent(s, t), verify), tail, loginCheck, verify);
    AnswersCommute(CallsSent(s, t), loginCheck, verify);
  }

  // ---------------------------------------------------------------------
  // What the callback leaves behind

  /** The three calls of a truthy token end with a verify request carrying
      `Bearer <token>`, sent after login's own verify request. */
  lemma CallsVerifyWithToken(s: AuthState, t: string)
    requires t != ""
    ensures var r := CallsSent(s, t);
      |r.env.sent| == |s.env.sent| + 2 && s.env.sent <= r.env.sent &&
      r.env.sent[|s.env.sent|].endpoint == AuthVerify &&
      r.env.sent[|r.env.sent| - 1].endpoint == AuthVerify &&
      AuthorizationHeader in r.env.sent[|r.env.sent| - 1].headers &&
      r.env.sent[|r.env.sent| - 1].headers[AuthorizationHeader] == Bearer(t)
  {
    var begun := LoginBegun(s, t);
    assert CheckPending(s.(env := StoreSession(s.env, Some(t))));
    assert StoredToken(begun.env.storage) == Some(t);
    var attached := begun.(env := AttachToken(begun.env, Some(t)));
    OutgoingAuthorization(attached.env.storage, attached.env.authorization);
  }

  /** Whatever either check answers, the callback's verify request carries
      `Bearer <token>` and is the last request sent; login's own verify
      request came just before it. */
  lemma CallbackVerifiesWithToken(s: AuthState, t: string, error: Option<string>, loginCheck: VerifyOutcome, verify: VerifyOutcome)
    requires !Truthy(error) && t != ""
    ensures var r := Callback(s, Some(t), error, loginCheck, verify);
      |r.env.sent| == |s.env.sent| + 2 && s.env.sent <= r.env.sent &&
      r.env.sent[|s.env.sent|].endpoint == AuthVerify &&
      r.env.sent[|r.env.sent| - 1].endpoint == AuthVerify &&
      AuthorizationHeader in r.env.sent[|r.env.sent| - 1].headers &&
      r.env.sent[|r.env.sent| - 1].headers[AuthorizationHeader] == Bearer(t)
  {
    var tail := CallbackEffects(Some(t), error, verify, s.isInExtension)[3..];
    CallbackShape(s, t, error, loginCheck, verify);
    SplitCalls(s, t, error, verify);
    var calls := VerifyAnswered(CallsSent(s, t), verify);
    CallsVerifyWithToken(s, t);
    assert calls.env.sent == CallsSent(s, t).env.sent;
    TailOnlyPosts(calls, tail, verify);
    var ran := Run(calls, tail, verify);
    assert CheckSettled(ran, loginCheck).env.sent == ran.env.sent;
  }

  /** The three calls post nothing and keep the framing and the parent. */
  lemma CallsKeepWindow(s: AuthState, t: string, verify: VerifyOutcome)
    requires t != ""
    ensures var c := VerifyAnswered(CallsSent(s, t), verify);
      c.env.events == s.env.events && c.isInExtension == s.isInExtension && c.env.hasParent == s.env.hasParent
  {
    assert CheckPending(s.(env := StoreSession(s.env, Some(t))));
  }

  /** The host receives LINKIFY_AUTH_SUCCESS, with the derived account
      domain, exactly when the callback runs framed with a parent and the
      verify answers valid with a user; nothing else is posted. */
  lemma CallbackNotifies(s: AuthState, t: string, error: Option<string>, loginCheck: VerifyOutcome, verify: VerifyOutcome)
    requires !Truthy(error) && t != ""
    ensures var r := Callback(s, Some(t), error, loginCheck, verify);
      Posted(r.env.events) ==
        Posted(s.env.events) +
        (if s.isInExtension && s.env.hasParent && VerifiedUser(verify) then
           [AuthSuccess(Some(t), verify.user.value, AccountDomain(verify.user.value.email, verify.user.value.accountDomain))]
         else [])
  {
    var tail := CallbackEffects(Some(t), error, verify, s.isInExtension)[3..];
    CallbackShape(s, t, error, loginCheck, verify);
    SplitCalls(s, t, error, verify);
    var calls := VerifyAnswered(CallsSent(s, t), verify);
    CallsKeepWindow(s, t, verify);
    var ran := Run(calls, tail, verify);
    assert CheckSettled(ran, loginCheck).env.events == ran.env.events;
    if s.isInExtension && VerifiedUser(verify) {
      var u := verify.user.value;
      var d := AccountDomain(u.email, u.accountDomain);
      var notified := Step(calls, Notify(t, u, d), verify);
      RunCons(calls, Notify(t, u, d), [SuccessToast(ExtensionSuccessMessage)], verify);
      RunCons(notified, SuccessToast(ExtensionSuccessMessage), [], verify);
      if s.env.hasParent {
        PostedAppend(s.env.events, Post(AuthSuccess(Some(t), u, d)));
      }
    } else {
      TailKeepsState(calls, tail, verify);
    }
  }

  /** The session the callback leaves. Login's check decides the user and
      whether the token survives: a valid answer adopts its user, any other
      answer removes the token and deletes the header. Header and storage
      then agree unless the callback's own verify was a 401 while login's
      check was valid, which leaves the header attached with no token
      stored. */
  lemma CallbackSession(s: AuthState, t: string, error: Option<string>, loginCheck: VerifyOutcome, verify: VerifyOutcome)
    requires !Truthy(error) && t != ""
    ensures var r := Callback(s, Some(t), error, loginCheck, verify);
      var validLogin := loginCheck.Verified? && loginCheck.valid;
      var unauthorized := verify.VerifyFailed? && verify.error.status == Some(Unauthorized);
      !r.loading &&
      (validLogin ==> r.user == loginCheck.user && r.env.authorization == Some(Bearer(t))) &&
      (!validLogin ==> r.user == s.user && TokenKey !in r.env.storage && r.env.authorization == None) &&
      (validLogin && !unauthorized ==> StoredToken(r.env.storage) == Some(t)) &&
      (Consistent(r.env) <==> !(validLogin && unauthorized))
  {
    var effects := CallbackEffects(Some(t), error, verify, s.isInExtension);
    CallbackShape(s, t, error, loginCheck, verify);
    SplitCalls(s, t, error, verify);
    var sent := CallsSent(s, t);
    assert CheckPending(s.(env := StoreSession(s.env, Some(t))));
    assert StoredToken(sent.env.storage) == Some(t) && sent.env.authorization == Some(Bearer(t));
    assert sent.user == s.user;
    var calls := VerifyAnswered(sent, verify);
    TailOnlyPosts(calls, effects[3..], verify);
  }
}
