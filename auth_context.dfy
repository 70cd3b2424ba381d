/** The session state machine of `src/contexts/AuthContext.js`: the stored
    token, the attached default `Authorization` header and the current user,
    changed by the startup check, by the two session messages from the
    extension, and by `login` and `logout`.

    Each transition is first written as a function on `AuthState`; the
    `AuthProvider` class performs it step by step against the window and the
    client and is proved to end in the state the function gives. A backend
    call is one step: its outcome is a parameter. */
module AuthContext {
  import opened Js
  import opened Protocol
  import opened Browser
  import opened Api

  /** `email ? email.split('@')[1] : accountDomain || ''`: the second piece
      of the email split at `@` (`undefined` when there is no `@`), or the
      server's account domain, or the empty string. */
  function AccountDomain(email: Option<string>, accountDomain: Option<string>): (d: Option<string>)
    ensures !Truthy(email) ==> d == Some(OrElse(accountDomain, ""))
    ensures Truthy(email) ==> (d.Some? <==> '@' in email.value)
    ensures Truthy(email) && d.Some? ==> '@' !in d.value
  {
    if Truthy(email) then At(Split(email.value, '@'), 1) else Some(OrElse(accountDomain, ""))
  }

  /** For an email `local@rest` whose local part has no `@`, the domain is
      the text after that first `@` up to the next `@` or the end. */
  lemma {:induction false} AccountDomainAfterFirstAt(local: string, rest: string, accountDomain: Option<string>)
    requires '@' !in local
    ensures var d := AccountDomain(Some(local + "@" + rest), accountDomain);
      d.Some? && d.value <= rest && '@' !in d.value &&
      (|d.value| < |rest| ==> rest[|d.value|] == '@')
  {
    SplitAfterPiece(local, '@', rest);
    var parts := Split(rest, '@');
    assert Split(local + "@" + rest, '@')[1] == parts[0];
    JoinFirstPiece(parts, '@');
  }

  /** With exactly one `@`, the domain is everything after it. */
  lemma {:induction false} AccountDomainOfAddress(local: string, domain: string, accountDomain: Option<string>)
    requires '@' !in local && '@' !in domain
    ensures AccountDomain(Some(local + "@" + domain), accountDomain) == Some(domain)
  {
    SplitAfterPiece(local, '@', domain);
    SplitPiece(domain, '@');
  }

  /** A signed-in user with email `a@x.com` has account domain `x.com`. */
  lemma AccountDomainExample()
    ensures AccountDomain(Some("a@x.com"), None) == Some("x.com")
  {
    assert "a@x.com" == "a" + "@" + "x.com";
    AccountDomainOfAddress("a", "x.com", None);
  }

  /** The provider's state together with the environment it changes. */
  datatype AuthState = AuthState(env: Env, user: Option<User>, loading: bool, isInExtension: bool)

  /** The default header agrees with the stored token. */
  predicate Consistent(env: Env)
  {
    env.authorization == AttachedHeader(StoredToken(env.storage))
  }

  /** `localStorage.removeItem('linkify_token')` then `setAuthToken(null)`. */
  function ClearSession(env: Env): Env
  {
    AttachToken(env.(storage := env.storage - {TokenKey}), None)
  }

  /** `localStorage.setItem('linkify_token', token)` then `setAuthToken(token)`. */
  function StoreSession(env: Env, token: Option<string>): Env
  {
    AttachToken(env.(storage := env.storage[TokenKey := StringOf(token)]), token)
  }

  /** Whether `checkAuthStatus()` finds a truthy stored token and so calls
      verify; otherwise it finishes at once. */
  predicate CheckPending(s: AuthState)
  {
    Truthy(StoredToken(s.env.storage))
  }

  /** `checkAuthStatus()` up to its `await`: without a truthy stored token
      only `loading` drops; otherwise the token is attached and the verify
      request sent. */
  function CheckBegun(s: AuthState): AuthState
  {
    var token := StoredToken(s.env.storage);
    if !Truthy(token) then s.(loading := false)
    else s.(env := SendRequest(AttachToken(s.env, token), AuthVerify))
  }

  /** The rest of `checkAuthStatus()` once verify settles: a valid answer
      adopts its user; any other answer removes whatever token is stored by
      then and deletes the header. Nothing computed before the `await` is
      consulted. */
  function CheckSettled(s: AuthState, outcome: VerifyOutcome): AuthState
  {
    match outcome
    case Verified(valid, user) =>
      if valid then s.(user := user, loading := false)
      else s.(env := ClearSession(s.env), loading := false)
    case VerifyFailed(error) =>
      s.(env := ClearSession(RejectResponse(s.env, error)), loading := false)
  }

  /** `checkAuthStatus()` with nothing else happening while verify is in
      flight. */
  function Checked(s: AuthState, outcome: VerifyOutcome): AuthState
  {
    if CheckPending(s) then CheckSettled(CheckBegun(s), outcome) else CheckBegun(s)
  }

  /** The RESTORE_AUTH branch: a truthy `auth.token` is stored and attached
      and `auth.user` adopted, without a verify call. */
  function Restored(s: AuthState, auth: Option<AuthInfo>): AuthState
  {
    if auth.Some? && Truthy(auth.value.token) then
      s.(env := StoreSession(s.env, auth.value.token), user := auth.value.user)
    else s
  }

  /** `notifyExtensionAuth(token, userData, accountDomain)`. */
  function Notified(env: Env, token: Option<string>, user: User, domain: Option<string>, inExtension: bool): Env
  {
    if inExtension && env.hasParent then env.(events := env.events + [Post(AuthSuccess(token, user, domain))])
    else env
  }

  /** The EXTENSION_AUTH_TOKEN branch up to its `await`: the token is stored
      and attached, then the verify request is sent. */
  function TokenSent(s: AuthState, token: Option<string>): AuthState
  {
    s.(env := SendRequest(StoreSession(s.env, token), AuthVerify))
  }

  /** The rest of the EXTENSION_AUTH_TOKEN branch once verify settles. A
      valid answer with a user adopts it and notifies the extension; a valid
      answer without a user sets `user` to that missing value and then fails
      on `userData.email`, which is caught; an invalid answer or a failed
      call changes nothing more (beyond what the response interceptor does
      on a 401). */
  function TokenSettled(s: AuthState, token: Option<string>, outcome: VerifyOutcome, inExtension: bool): AuthState
  {
    match outcome
    case Verified(valid, user) =>
      if !valid then s
      else if user.None? then s.(user := None)
      else
        var u := user.value;
        s.(env := Notified(s.env, token, u, AccountDomain(u.email, u.accountDomain), inExtension), user := user)
    case VerifyFailed(error) => s.(env := RejectResponse(s.env, error))
  }

  /** The EXTENSION_AUTH_TOKEN branch with nothing else happening while
      verify is in flight. */
  function TokenAccepted(s: AuthState, token: Option<string>, outcome: VerifyOutcome, inExtension: bool): AuthState
  {
    TokenSettled(TokenSent(s, token), token, outcome, inExtension)
  }

  /** `handleExtensionMessage(event)`; `outcome` is what verify answers if
      it is called. */
  function Handled(s: AuthState, message: InboundMessage, outcome: VerifyOutcome, inExtension: bool): AuthState
  {
    match message
    case RestoreAuth(auth, _) => Restored(s, auth)
    case ExtensionAuthToken(token) => TokenAccepted(s, token, outcome, inExtension)
    case _ => s
  }

  /** `login(token)`: store, attach, then the startup check. */
  function LoggedIn(s: AuthState, token: string, outcome: VerifyOutcome): AuthState
  {
    Checked(s.(env := StoreSession(s.env, Some(token))), outcome)
  }

  /** `login(token)` up to where it returns: the check it starts is left at
      its `await`, since `login` does not wait for it. */
  function LoginBegun(s: AuthState, token: string): AuthState
  {
    CheckBegun(s.(env := StoreSession(s.env, Some(token))))
  }

  /** `logout()`: the logout call, whose failure is only logged, then the
      session is cleared and `user` reset in every case. */
  function LoggedOut(s: AuthState, failure: Option<HttpError>): AuthState
  {
    var sent := SendRequest(s.env, AuthLogout);
    var answered := if failure.Some? then RejectResponse(sent, failure.value) else sent;
    s.(env := ClearSession(answered), user := None)
  }

  /** The mount effect up to the end of its synchronous part: the startup
      check runs to its `await` (sending verify if a token is stored); then
      `isInExtension` is set to the framing and, in a frame only, the session
      listener is registered and LINKIFY_READY posted, in that order. The
      check settles later, through `CheckSettled`, possibly after messages
      the listener has already handled. */
  function MountBegun(s: AuthState): AuthState
  {
    var begun := CheckBegun(s);
    var framed := s.env.framed;
    begun.(
      isInExtension := framed,
      env := if framed then begun.env.(events := begun.env.events + [Listen(SessionListener), Post(Ready)])
             else begun.env)
  }

  /** The mount effect with the startup check settling before any message
      arrives. */
  function Mounted(s: AuthState, outcome: VerifyOutcome): AuthState
  {
    if CheckPending(s) then CheckSettled(MountBegun(s), outcome) else MountBegun(s)
  }

  /** The effect's cleanup: the listener is removed only in a frame. */
  function Unmounted(s: AuthState): AuthState
  {
    if s.env.framed then s.(env := s.env.(events := s.env.events + [Unlisten(SessionListener)]))
    else s
  }

  // ---------------------------------------------------------------------
  // The startup check

  /** Without a stored token: no verify call, `user` unchanged, loading ends. */
  lemma CheckWithoutToken(s: AuthState, outcome: VerifyOutcome)
    requires !Truthy(StoredToken(s.env.storage))
    ensures Checked(s, outcome) == s.(loading := false)
  {
  }

  /** A valid verify adopts the returned user and keeps the token; the one
      verify request carries that token. */
  lemma CheckValid(s: AuthState, user: Option<User>)
    requires Truthy(StoredToken(s.env.storage))
    ensures var r := Checked(s, Verified(true, user));
      r.user == user && !r.loading && r.env.storage == s.env.storage &&
      r.env.authorization == Some(Bearer(s.env.storage[TokenKey])) &&
      |r.env.sent| == |s.env.sent| + 1 && r.env.sent[..|s.env.sent|] == s.env.sent &&
      r.env.sent[|s.env.sent|].endpoint == AuthVerify &&
      r.env.sent[|s.env.sent|].headers[AuthorizationHeader] == Bearer(s.env.storage[TokenKey])
  {
  }

  /** An invalid verify, or one that throws, removes the token and the
      header; loading ends; `user` keeps whatever value it had. */
  lemma CheckRejected(s: AuthState, outcome: VerifyOutcome)
    requires Truthy(StoredToken(s.env.storage))
    requires outcome.VerifyFailed? || !outcome.valid
    ensures var r := Checked(s, outcome);
      TokenKey !in r.env.storage && r.env.authorization == None && r.user == s.user && !r.loading
  {
  }

  /** On every path the check ends with `loading` false, posts nothing and
      sends at most the one verify request. */
  lemma CheckEnds(s: AuthState, outcome: VerifyOutcome)
    ensures var r := Checked(s, outcome);
      !r.loading && r.env.events == s.env.events && r.isInExtension == s.isInExtension &&
      s.env.sent <= r.env.sent && |r.env.sent| <= |s.env.sent| + 1
  {
  }

  /** A stored `abc` and a valid answer for `a@x.com` end authenticated,
      with account domain `x.com`. */
  lemma CheckScenario(s: AuthState, user: User)
    requires StoredToken(s.env.storage) == Some("abc")
    requires user.email == Some("a@x.com")
    ensures var r := Checked(s, Verified(true, Some(user)));
      r.user == Some(user) && AccountDomain(r.user.value.email, r.user.value.accountDomain) == Some("x.com")
  {
    AccountDomainExample();
  }

  // ---------------------------------------------------------------------
  // RESTORE_AUTH

  /** A truthy `auth.token` is stored and attached and `auth.user` adopted;
      no request is sent and nothing is posted. */
  lemma RestoreAdopts(s: AuthState, auth: AuthInfo)
    requires Truthy(auth.token)
    ensures var r := Restored(s, Some(auth));
      r.env.storage == s.env.storage[TokenKey := auth.token.value] &&
      r.env.authorization == Some(Bearer(auth.token.value)) &&
      r.user == auth.user && r.env.sent == s.env.sent && r.env.events == s.env.events &&
      r.loading == s.loading
  {
  }

  /** Without `auth` or without a truthy token nothing changes. */
  lemma RestoreIgnored(s: AuthState, auth: Option<AuthInfo>)
    requires auth.None? || !Truthy(auth.value.token)
    ensures Restored(s, auth) == s
  {
  }

  /** `n` deliveries of the same RESTORE_AUTH message. */
  function RestoredTimes(s: AuthState, auth: Option<AuthInfo>, n: nat): AuthState
  {
    if n == 0 then s else Restored(RestoredTimes(s, auth, n - 1), auth)
  }

  /** Re-delivery is idempotent: delivering the message `n >= 1` times ends
      in the state of one delivery, and never sends or posts anything. */
  lemma {:induction false} RestoreIdempotent(s: AuthState, auth: Option<AuthInfo>, n: nat)
    requires n >= 1
    ensures RestoredTimes(s, auth, n) == Restored(s, auth)
    ensures RestoredTimes(s, auth, n).env.sent == s.env.sent
    ensures RestoredTimes(s, auth, n).env.events == s.env.events
  {
    if n > 1 {
      RestoreIdempotent(s, auth, n - 1);
    }
  }

  /** A RESTORE_AUTH carrying `t1` for `u@acme.com` is adopted with no verify call. */
  lemma RestoreScenario(s: AuthState, user: User)
    requires user.email == Some("u@acme.com")
    ensures var r := Handled(s, RestoreAuth(Some(AuthInfo(Some("t1"), Some(user))), None), Verified(false, None), true);
      r.user == Some(user) && StoredToken(r.env.storage) == Some("t1") && r.env.sent == s.env.sent
  {
  }

  // ---------------------------------------------------------------------
  // EXTENSION_AUTH_TOKEN

  /** The token is persisted and attached before verify: the verify request
      carries it whatever the answer, and the token stays stored afterwards
      unless the call fails with a 401. */
  lemma TokenPersistedBeforeVerify(s: AuthState, token: string, outcome: VerifyOutcome, inExtension: bool)
    requires token != ""
    ensures var r := TokenAccepted(s, Some(token), outcome, inExtension);
      |r.env.sent| == |s.env.sent| + 1 && r.env.sent[..|s.env.sent|] == s.env.sent &&
      r.env.sent[|s.env.sent|] ==
        Request(AuthVerify, DefaultHeaders(Some(Bearer(token)))[AuthorizationHeader := Bearer(token)]) &&
      r.env.authorization == Some(Bearer(token)) &&
      (if outcome.VerifyFailed? && outcome.error.status == Some(Unauthorized)
       then TokenKey !in r.env.storage && r.env.location == LoginPath
       else StoredToken(r.env.storage) == Some(token))
  {
    var stored := StoreSession(s.env, Some(token));
    assert StoredToken(stored.storage) == Some(token) && stored.authorization == Some(Bearer(token));
    var sent := TokenSent(s, Some(token));
    assert sent.env.sent == s.env.sent + [Request(AuthVerify, RequestHeaders(stored.storage, DefaultHeaders(stored.authorization)))];
    if outcome.VerifyFailed? {
      RejectResponseFrame(sent.env, outcome.error);
    }
  }

  /** Only a valid verify changes `user`, and the extension is told (once)
      exactly when the answer is valid with a user, the handler was given
      `inExtension` and the window has a parent. */
  lemma TokenNotifiesOnlyWhenValid(s: AuthState, token: Option<string>, outcome: VerifyOutcome, inExtension: bool)
    ensures var r := TokenAccepted(s, token, outcome, inExtension);
      (r.user != s.user ==> outcome.Verified? && outcome.valid) &&
      (outcome.Verified? && outcome.valid ==> r.user == outcome.user) &&
      r.env.events == s.env.events +
        (if outcome.Verified? && outcome.valid && outcome.user.Some? && inExtension && s.env.hasParent
         then [Post(AuthSuccess(token, outcome.user.value,
                 AccountDomain(outcome.user.value.email, outcome.user.value.accountDomain)))]
         else [])
  {
  }

  /** LINKIFY_AUTH_SUCCESS is posted only when `isInExtension && window.parent`. */
  lemma NotifyGuard(env: Env, token: Option<string>, user: User, domain: Option<string>, inExtension: bool)
    ensures var r := Notified(env, token, user, domain, inExtension);
      Posted(r.events) == Posted(env.events) + (if inExtension && env.hasParent then [AuthSuccess(token, user, domain)] else []) &&
      r.(events := env.events) == env
  {
    PostedAppend(env.events, Post(AuthSuccess(token, user, domain)));
  }

  /** Unlike RESTORE_AUTH, delivering the same EXTENSION_AUTH_TOKEN twice
      verifies twice, and, when the handler runs with `isInExtension` true
      and the answer is valid, posts LINKIFY_AUTH_SUCCESS twice. */
  lemma TokenRedeliveryRepeats(s: AuthState, token: Option<string>, user: User)
    requires s.env.hasParent
    ensures var once := TokenAccepted(s, token, Verified(true, Some(user)), true);
      var twice := TokenAccepted(once, token, Verified(true, Some(user)), true);
      |twice.env.sent| == |s.env.sent| + 2 &&
      |Posted(twice.env.events)| == |Posted(s.env.events)| + 2
  {
    var d := AccountDomain(user.email, user.accountDomain);
    var once := TokenAccepted(s, token, Verified(true, Some(user)), true);
    PostedAppend(s.env.events, Post(AuthSuccess(token, user, d)));
    PostedAppend(once.env.events, Post(AuthSuccess(token, user, d)));
  }

  /** The listener as registered runs with `isInExtension` false. For it, a
      second delivery of the same EXTENSION_AUTH_TOKEN with the same answer
      ends in the same session as the first, posts nothing, and differs only
      by one more verify request. */
  lemma TokenRedeliveryOutsideExtension(s: AuthState, token: Option<string>, outcome: VerifyOutcome)
    ensures var once := TokenAccepted(s, token, outcome, false);
      var twice := TokenAccepted(once, token, outcome, false);
      twice.user == once.user && twice.loading == once.loading &&
      twice.env.storage == once.env.storage && twice.env.authorization == once.env.authorization &&
      twice.env.location == once.env.location &&
      twice.env.events == once.env.events && once.env.events == s.env.events &&
      |twice.env.sent| == |once.env.sent| + 1 && once.env.sent <= twice.env.sent
  {
    var once := TokenAccepted(s, token, outcome, false);
    TokenOutsideExtension(s, token, outcome);
    TokenOutsideExtension(once, token, outcome);
    assert once.env.storage[TokenKey := StringOf(token)] == s.env.storage[TokenKey := StringOf(token)];
  }

  /** EXTENSION_AUTH_TOKEN, handled with `isInExtension` false, written out
      field by field. */
  lemma TokenOutsideExtension(s: AuthState, token: Option<string>, outcome: VerifyOutcome)
    ensures var r := TokenAccepted(s, token, outcome, false);
      var stored := s.env.storage[TokenKey := StringOf(token)];
      var unauthorized := outcome.VerifyFailed? && outcome.error.status == Some(Unauthorized);
      r.user == (if outcome.Verified? && outcome.valid then outcome.user else s.user) &&
      r.loading == s.loading &&
      r.env.storage == (if unauthorized then stored - {TokenKey} else stored) &&
      r.env.authorization == AttachedHeader(token) &&
      r.env.location == (if unauthorized then LoginPath else s.env.location) &&
      r.env.events == s.env.events &&
      |r.env.sent| == |s.env.sent| + 1 && s.env.sent <= r.env.sent
  {
    var sent := TokenSent(s, token);
    assert sent.env.storage == s.env.storage[TokenKey := StringOf(token)];
    match outcome
    case Verified(valid, user) =>
    case VerifyFailed(error) =>
      RejectResponseFrame(sent.env, error);
  }

  /** What the response interceptor changes: storage and location only. */
  lemma RejectResponseFrame(env: Env, error: HttpError)
    ensures var r := RejectResponse(env, error);
      r.events == env.events && r.sent == env.sent && r.authorization == env.authorization &&
      r.storage == (if error.status == Some(Unauthorized) then env.storage - {TokenKey} else env.storage) &&
      r.location == (if error.status == Some(Unauthorized) then LoginPath else env.location)
  {
  }

  /** The dispatcher: any message other than the two session messages leaves
      the state alone. */
  lemma OtherMessagesIgnored(s: AuthState, message: InboundMessage, outcome: VerifyOutcome, inExtension: bool)
    requires !message.RestoreAuth? && !message.ExtensionAuthToken?
    ensures Handled(s, message, outcome, inExtension) == s
  {
  }

  // ---------------------------------------------------------------------
  // login, logout, mount

  /** `login(token)` with a non-empty token and a valid answer ends
      authenticated with that token stored and attached. */
  lemma LoginValid(s: AuthState, token: string, user: Option<User>)
    requires token != ""
    ensures var r := LoggedIn(s, token, Verified(true, user));
      r.user == user && StoredToken(r.env.storage) == Some(token) &&
      r.env.authorization == Some(Bearer(token)) && !r.loading && Consistent(r.env)
  {
  }

  /** Whatever its check answers, `login(token)` leaves the window events,
      the framing and `isInExtension` alone, sends at most the one verify
      request, and leaves either `token` or nothing stored. */
  lemma LoginKeepsWindow(s: AuthState, token: string, outcome: VerifyOutcome)
    requires token != ""
    ensures var r := LoggedIn(s, token, outcome);
      r.env.events == s.env.events && r.isInExtension == s.isInExtension &&
      r.env.hasParent == s.env.hasParent && r.env.framed == s.env.framed &&
      s.env.sent <= r.env.sent && |r.env.sent| == |s.env.sent| + 1 &&
      (StoredToken(r.env.storage) == None || StoredToken(r.env.storage) == Some(token))
  {
    var stored := s.(env := StoreSession(s.env, Some(token)));
    assert CheckPending(stored);
    CheckEnds(stored, outcome);
  }

  /** For a non-empty token, `login` always leaves its check pending, and
      settling it gives `LoggedIn`. */
  lemma LoginSplits(s: AuthState, token: string, outcome: VerifyOutcome)
    requires token != ""
    ensures CheckPending(s.(env := StoreSession(s.env, Some(token))))
    ensures LoggedIn(s, token, outcome) == CheckSettled(LoginBegun(s, token), outcome)
  {
  }

  /** `logout()` always ends with the token removed, the header cleared and
      no user, whether or not the backend call fails. */
  lemma LogoutClears(s: AuthState, failure: Option<HttpError>)
    ensures var r := LoggedOut(s, failure);
      TokenKey !in r.env.storage && r.env.authorization == None && r.user == None &&
      Consistent(r.env) && |r.env.sent| == |s.env.sent| + 1 && r.env.sent[|s.env.sent|].endpoint == AuthLogout
  {
  }

  /** In a frame, the listener is registered first and READY posted next;
      outside a frame the mount effect neither listens nor posts. */
  lemma MountOrder(s: AuthState, outcome: VerifyOutcome)
    ensures var r := Mounted(s, outcome);
      r.isInExtension == s.env.framed &&
      r.env.events == s.env.events + (if s.env.framed then [Listen(SessionListener), Post(Ready)] else [])
  {
  }

  /** The window events of a framed mount and unmount: the listener is on
      between them and off afterwards, and READY is the one message posted. */
  lemma {:induction false} FramedLifecycleEvents(e: seq<WindowEvent>)
    requires !Listening(e, SessionListener)
    ensures var m := e + [Listen(SessionListener), Post(Ready)];
      Listening(m, SessionListener) && !Listening(m + [Unlisten(SessionListener)], SessionListener) &&
      Posted(m + [Unlisten(SessionListener)]) == Posted(e) + [Ready]
  {
    var e1 := e + [Listen(SessionListener)];
    var m := e1 + [Post(Ready)];
    assert m == e + [Listen(SessionListener), Post(Ready)];
    ListeningAppend(e, Listen(SessionListener), SessionListener);
    ListeningAppend(e1, Post(Ready), SessionListener);
    ListeningAppend(m, Unlisten(SessionListener), SessionListener);
    PostedAppend(e, Listen(SessionListener));
    PostedAppend(e1, Post(Ready));
    PostedAppend(m, Unlisten(SessionListener));
  }

  /** Mounting and then unmounting leaves the session listener registered
      exactly as before, and in a frame READY has been posted exactly once. */
  lemma {:induction false} MountThenUnmount(s: AuthState, outcome: VerifyOutcome)
    requires !Listening(s.env.events, SessionListener)
    ensures var m := Mounted(s, outcome);
      Listening(m.env.events, SessionListener) == s.env.framed &&
      !Listening(Unmounted(m).env.events, SessionListener) &&
      Posted(Unmounted(m).env.events) == Posted(s.env.events) + (if s.env.framed then [Ready] else [])
  {
    var m := Mounted(s, outcome);
    MountOrder(s, outcome);
    assert m.env.framed == s.env.framed;
    if s.env.framed {
      FramedLifecycleEvents(s.env.events);
      assert Unmounted(m).env.events == m.env.events + [Unlisten(SessionListener)];
    } else {
      assert Unmounted(m).env.events == s.env.events;
    }
  }

  // ---------------------------------------------------------------------
  // Header and storage agree

  /** The startup check, RESTORE_AUTH, login and logout keep the default
      header in agreement with the stored token. */
  lemma {:induction false} TransitionsKeepConsistent(s: AuthState, outcome: VerifyOutcome, auth: Option<AuthInfo>, token: string, failure: Option<HttpError>)
    requires Consistent(s.env)
    ensures Consistent(Checked(s, outcome).env)
    ensures Consistent(Restored(s, auth).env)
    ensures Consistent(LoggedIn(s, token, outcome).env)
    ensures Consistent(LoggedOut(s, failure).env)
  {
    CheckKeepsConsistent(s, outcome);
    var stored := s.(env := StoreSession(s.env, Some(token)));
    assert Consistent(stored.env);
    CheckKeepsConsistent(stored, outcome);
  }

  /** The startup check keeps header and storage in agreement. */
  lemma CheckKeepsConsistent(s: AuthState, outcome: VerifyOutcome)
    requires Consistent(s.env)
    ensures Consistent(Checked(s, outcome).env)
  {
    if CheckPending(s) {
      var begun := CheckBegun(s);
      assert Consistent(begun.env);
    }
  }

  /** EXTENSION_AUTH_TOKEN keeps them in agreement for a present token and an
      answer that is not a 401; a 401 removes the token but leaves the header. */
  lemma TokenKeepsConsistent(s: AuthState, token: string, outcome: VerifyOutcome, inExtension: bool)
    requires !(outcome.VerifyFailed? && outcome.error.status == Some(Unauthorized))
    ensures Consistent(TokenAccepted(s, Some(token), outcome, inExtension).env)
  {
  }

  /** An EXTENSION_AUTH_TOKEN without a `token` stores the text `undefined`
      but deletes the header, so the verify request goes out as
      `Bearer undefined`, and unless a 401 removes that text, header and
      storage disagree afterwards. */
  lemma MissingTokenStoresUndefined(s: AuthState, outcome: VerifyOutcome, inExtension: bool)
    ensures var sent := TokenSent(s, None);
      StoredToken(sent.env.storage) == Some("undefined") && sent.env.authorization == None &&
      !Consistent(sent.env) &&
      |sent.env.sent| == |s.env.sent| + 1 &&
      sent.env.sent[|s.env.sent|].headers[AuthorizationHeader] == Bearer("undefined")
    ensures !(outcome.VerifyFailed? && outcome.error.status == Some(Unauthorized)) ==>
      !Consistent(TokenAccepted(s, None, outcome, inExtension).env)
  {
    var stored := StoreSession(s.env, None);
    assert StoredToken(stored.storage) == Some("undefined");
    OutgoingAuthorization(stored.storage, stored.authorization);
  }

  /** The base case of the agreement: a fresh client has no default header,
      whatever is stored, and the mount effect brings header and storage into
      agreement, both while the check is in flight and once it settles. */
  lemma MountEstablishesConsistent(s: AuthState, outcome: VerifyOutcome)
    requires s.env.authorization == None
    ensures Consistent(MountBegun(s).env)
    ensures Consistent(Mounted(s, outcome).env)
  {
  }

  /** An invalid verify during `login` with someone already signed in clears
      the stored token and header but leaves `user` set. */
  lemma InvalidVerifyKeepsUser(s: AuthState, token: string, user: User)
    requires token != "" && s.user == Some(user)
    ensures var r := LoggedIn(s, token, Verified(false, None));
      r.user == Some(user) && TokenKey !in r.env.storage && r.env.authorization == None
  {
  }

  // ---------------------------------------------------------------------
  // Interleavings at the `await`s

  /** A RESTORE_AUTH that answers READY while the startup check is still in
      flight is undone by a stale answer: when that answer is invalid or
      fails, the restored token is removed and the header deleted, but the
      restored user stays. Had the check settled first, the restored token
      would survive. */
  lemma StaleCheckDropsRestoredToken(s: AuthState, t: string, user: User, outcome: VerifyOutcome)
    requires CheckPending(s) && s.env.framed && t != ""
    requires outcome.VerifyFailed? || !outcome.valid
    ensures var mounted := MountBegun(s);
      var restored := Handled(mounted, RestoreAuth(Some(AuthInfo(Some(t), Some(user))), None), outcome, mounted.isInExtension);
      var late := CheckSettled(restored, outcome);
      Post(Ready) in mounted.env.events &&
      StoredToken(restored.env.storage) == Some(t) &&
      late.user == Some(user) && TokenKey !in late.env.storage && late.env.authorization == None &&
      StoredToken(Restored(Mounted(s, outcome), Some(AuthInfo(Some(t), Some(user)))).env.storage) == Some(t)
  {
    var mounted := MountBegun(s);
    assert mounted.env.events[|mounted.env.events| - 1] == Post(Ready);
  }

  /** A logout while an EXTENSION_AUTH_TOKEN verify is in flight does not
      stop its answer: a valid answer with a user, arriving after the logout,
      signs that user in again with no token stored and no header. */
  lemma LogoutDuringTokenVerify(s: AuthState, t: string, user: User, failure: Option<HttpError>, inExtension: bool)
    requires t != ""
    ensures var sent := TokenSent(s, Some(t));
      var out := LoggedOut(sent, failure);
      var late := TokenSettled(out, Some(t), Verified(true, Some(user)), inExtension);
      out.user == None &&
      late.user == Some(user) && TokenKey !in late.env.storage && late.env.authorization == None
  {
  }

  /** The provider component: `user`, `loading` and `isInExtension` state over
      the shared client and its window. */
  class AuthProvider {
    const api: ApiService
    var user: Option<User>
    var loading: bool
    var isInExtension: bool

    function State(): AuthState
      reads this, api, api.window
    {
      AuthState(api.Snapshot(), user, loading, isInExtension)
    }

    /** `useState(null)`, `useState(true)`, `useState(false)`. */
    constructor (api: ApiService)
      ensures this.api == api
      ensures user == None && loading && !isInExtension
    {
      this.api := api;
      user := None;
      loading := true;
      isInExtension := false;
    }

    /** Removes the token and then the default header. */
    method ClearStoredSession()
      modifies api, api.window
      ensures State() == old(State()).(env := ClearSession(old(State()).env))
    {
      api.window.RemoveItem(TokenKey);
      api.SetAuthToken(None);
    }

    /** Stores the token and then attaches it. */
    method StoreToken(token: Option<string>)
      modifies api, api.window
      ensures State() == old(State()).(env := StoreSession(old(State()).env, token))
    {
      api.window.SetItem(TokenKey, StringOf(token));
      api.SetAuthToken(token);
    }

    /** `checkAuthStatus()` up to its `await`; `pending` says whether verify
        was called and an answer is awaited. */
    method BeginCheck() returns (pending: bool)
      modifies this, api
      ensures pending == CheckPending(old(State()))
      ensures State() == CheckBegun(old(State()))
    {
      var token := StoredToken(api.window.storage);
      if !Truthy(token) {
        loading := false;
        return false;
      }
      api.SetAuthToken(token);
      api.Send(AuthVerify);
      return true;
    }

    /** The continuation of `checkAuthStatus()` when verify settles. */
    method SettleCheck(outcome: VerifyOutcome)
      modifies this, api, api.window
      ensures State() == CheckSettled(old(State()), outcome)
    {
      match outcome {
        case Verified(valid, u) =>
          if valid {
            user := u;
          } else {
            ClearStoredSession();
          }
        case VerifyFailed(error) =>
          var _ := api.Reject(error);
          ClearStoredSession();
      }
      loading := false;
    }

    method CheckAuthStatus(outcome: VerifyOutcome)
      modifies this, api, api.window
      ensures State() == Checked(old(State()), outcome)
    {
      var pending := BeginCheck();
      if pending {
        SettleCheck(outcome);
      }
    }

    method NotifyExtensionAuth(token: Option<string>, userData: User, accountDomain: Option<string>, inExtension: bool)
      modifies api.window
      ensures State() == old(State()).(env := Notified(old(State()).env, token, userData, accountDomain, inExtension))
    {
      if inExtension && api.window.hasParent {
        api.window.Log(Post(AuthSuccess(token, userData, accountDomain)));
      }
    }

    /** The EXTENSION_AUTH_TOKEN branch up to its `await`. */
    method ReceiveToken(token: Option<string>)
      modifies api, api.window
      ensures State() == TokenSent(old(State()), token)
    {
      StoreToken(token);
      api.Send(AuthVerify);
    }

    /** The continuation of the EXTENSION_AUTH_TOKEN branch when verify settles. */
    method SettleToken(token: Option<string>, outcome: VerifyOutcome, inExtension: bool)
      modifies this, api.window
      ensures State() == TokenSettled(old(State()), token, outcome, inExtension)
    {
      match outcome {
        case Verified(valid, u) =>
          if valid {
            user := u;
            if u.Some? {
              var domain := AccountDomain(u.value.email, u.value.accountDomain);
              NotifyExtensionAuth(token, u.value, domain, inExtension);
            }
          }
        case VerifyFailed(error) =>
          var _ := api.Reject(error);
      }
    }

    /** The session listener; `inExtension` is the `isInExtension` value the
        listener closed over. */
    method HandleExtensionMessage(message: InboundMessage, outcome: VerifyOutcome, inExtension: bool)
      modifies this, api, api.window
      ensures State() == Handled(old(State()), message, outcome, inExtension)
    {
      match message {
        case RestoreAuth(auth, _) =>
          if auth.Some? && Truthy(auth.value.token) {
            StoreToken(auth.value.token);
            user := auth.value.user;
          }
        case ExtensionAuthToken(token) =>
          ReceiveToken(token);
          SettleToken(token, outcome, inExtension);
        case _ =>
      }
    }

    method Login(token: string, outcome: VerifyOutcome)
      modifies this, api, api.window
      ensures State() == LoggedIn(old(State()), token, outcome)
    {
      StoreToken(Some(token));
      CheckAuthStatus(outcome);
    }

    /** `failure` is how the logout call fails, if it does. */
    method Logout(failure: Option<HttpError>)
      modifies this, api, api.window
      ensures State() == LoggedOut(old(State()), failure)
    {
      api.Send(AuthLogout);
      if failure.Some? {
        var _ := api.Reject(failure.value);
      }
      ClearStoredSession();
      user := None;
    }

    /** The synchronous part of the mount effect; `pending` says whether the
        startup check awaits a verify answer (delivered by `SettleCheck`). */
    method BeginMount() returns (pending: bool)
      modifies this, api, api.window
      ensures pending == CheckPending(old(State()))
      ensures State() == MountBegun(old(State()))
    {
      pending := BeginCheck();
      var inIframe := api.window.framed;
      isInExtension := inIframe;
      if inIframe {
        api.window.Log(Listen(SessionListener));
        api.window.Log(Post(Ready));
      }
    }

    /** The mount effect; `outcome` answers the startup check's verify call. */
    method Mount(outcome: VerifyOutcome)
      modifies this, api, api.window
      ensures State() == Mounted(old(State()), outcome)
    {
      var pending := BeginMount();
      if pending {
        SettleCheck(outcome);
      }
    }

    method Unmount()
      modifies api.window
      ensures State() == Unmounted(old(State()))
    {
      if api.window.framed {
        api.window.Log(Unlisten(SessionListener));
      }
    }
  }
}
