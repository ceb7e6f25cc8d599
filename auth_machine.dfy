/**
 * The authentication controller of `src/contexts/AuthContext.tsx` as a
 * specification: every `setAuthData` call the provider makes is a `Write`,
 * and every operation (the event handler, the bootstrap, login, signup,
 * logout) is the sequence of writes it publishes. The UI observes the state
 * after each write.
 */
module AuthMachine {
  import opened Wrappers
  import opened Types
  import opened Backend
  import opened AuthUtils

  /** The kinds of event the identity backend pushes to `onAuthStateChange`. */
  datatype AuthEvent = SignedIn | SignedOut | UserUpdated | InitialSession | OtherEvent(name: string)

  /** The logged-out state every reset publishes. */
  function LoggedOut(): (s: AuthData)
    ensures s.user.None? && !s.isAdmin && !s.isLoading
  {
    AuthData(None, false, false)
  }

  /** The four shapes of `setAuthData` call in the provider. */
  datatype Write =
    | Reset                                          // setAuthData({user: null, isAdmin: false, isLoading: false})
    | PublishUser(id: string, email: string)         // first phase of updateAuthState
    | PublishAdmin(id: string, email: string, isAdmin: bool)  // second phase of updateAuthState
    | SetLoading(on: bool)                           // setAuthData(prev => ({...prev, isLoading: on}))

  /** The state after one write; no write can make a non-user an admin. */
  function Apply(s: AuthData, w: Write): (t: AuthData)
    ensures s.AdminImpliesUser() ==> t.AdminImpliesUser()
    ensures w.SetLoading? ==> t.user == s.user && t.isAdmin == s.isAdmin
    ensures w.PublishUser? ==> t.isAdmin == s.isAdmin && t.user.Some? && t.user.value.id == w.id
  {
    match w
    case Reset => LoggedOut()
    case PublishUser(id, email) => s.(user := Some(User(id, email)), isLoading := true)
    case PublishAdmin(id, email, admin) => AuthData(Some(User(id, email)), admin, false)
    case SetLoading(on) => s.(isLoading := on)
  }

  /** The state after a sequence of writes, applied in order. */
  function ApplyAll(s: AuthData, ws: seq<Write>): AuthData
    decreases |ws|
  {
    if ws == [] then s else Apply(ApplyAll(s, ws[..|ws| - 1]), ws[|ws| - 1])
  }

  lemma ApplyAllSingle(s: AuthData, a: Write)
    ensures ApplyAll(s, [a]) == Apply(s, a)
  {
    assert [a][..0] == [];
  }

  lemma ApplyAllPair(s: AuthData, a: Write, b: Write)
    ensures ApplyAll(s, [a, b]) == Apply(Apply(s, a), b)
  {
    assert [a, b][..1] == [a];
    ApplyAllSingle(s, a);
  }

  lemma {:induction false} ApplyAllAppend(s: AuthData, ws: seq<Write>, vs: seq<Write>)
    ensures ApplyAll(s, ws + vs) == ApplyAll(ApplyAll(s, ws), vs)
    decreases |vs|
  {
    if vs == [] {
      assert ws + vs == ws;
    } else {
      var n := |vs| - 1;
      assert (ws + vs)[..|ws + vs| - 1] == ws + vs[..n];
      ApplyAllAppend(s, ws, vs[..n]);
    }
  }

  /**
   * Whatever order the asynchronous continuations of the provider run in,
   * they publish some sequence of these writes; from a state where only a
   * user can be an admin, every state they publish keeps that so.
   */
  lemma {:induction false} WritesKeepInvariant(s: AuthData, ws: seq<Write>)
    requires s.AdminImpliesUser()
    ensures ApplyAll(s, ws).AdminImpliesUser()
    decreases |ws|
  {
    if ws != [] {
      WritesKeepInvariant(s, ws[..|ws| - 1]);
    }
  }

  /**
   * `updateAuthState(userId, email)` with `lookup` the answer to the admin
   * lookup: a falsy id publishes the logged-out state; otherwise the user is
   * published with loading on, then again with the lookup's verdict and
   * loading off.
   */
  function UpdateWrites(userId: Option<string>, email: Option<string>, lookup: AdminLookup): seq<Write>
  {
    if !Truthy(userId) then [Reset]
    else
      var user := User(userId.value, OrEmpty(email));
      [PublishUser(user.id, user.email), PublishAdmin(user.id, user.email, CheckIsAdmin(lookup))]
  }

  /** The state an update for a present id settles in. */
  function Resolved(id: string, email: Option<string>, lookup: AdminLookup): AuthData
  {
    AuthData(Some(User(id, OrEmpty(email))), CheckIsAdmin(lookup), false)
  }

  /** Without an id, an update ends logged out, whatever the state before. */
  lemma UpdateWithoutIdLogsOut(s: AuthData, userId: Option<string>, email: Option<string>, lookup: AdminLookup)
    requires !Truthy(userId)
    ensures ApplyAll(s, UpdateWrites(userId, email, lookup)) == LoggedOut()
  {
    assert UpdateWrites(userId, email, lookup)[..0] == [];
  }

  /**
   * With an id, an update runs in two phases: it first publishes the user
   * (email defaulting to '') with loading on and the previous admin flag,
   * then the same user with the lookup's verdict and loading off.
   */
  lemma UpdateTwoPhases(s: AuthData, id: string, email: Option<string>, lookup: AdminLookup)
    requires id != ""
    ensures |UpdateWrites(Some(id), email, lookup)| == 2
    ensures ApplyAll(s, UpdateWrites(Some(id), email, lookup)[..1])
         == AuthData(Some(User(id, OrEmpty(email))), s.isAdmin, true)
    ensures ApplyAll(s, UpdateWrites(Some(id), email, lookup)) == Resolved(id, email, lookup)
    ensures Resolved(id, email, lookup).isAdmin <==> Grants(lookup)
  {
    var ws := UpdateWrites(Some(id), email, lookup);
    assert ws[..1][..0] == [] && ws[..1] == [ws[0]];
    assert ws[..1] == ws[..|ws| - 1];
  }

  /** Running the same update twice ends where running it once does. */
  lemma UpdateIdempotent(s: AuthData, userId: Option<string>, email: Option<string>, lookup: AdminLookup)
    ensures ApplyAll(ApplyAll(s, UpdateWrites(userId, email, lookup)), UpdateWrites(userId, email, lookup))
         == ApplyAll(s, UpdateWrites(userId, email, lookup))
  {
    var t := ApplyAll(s, UpdateWrites(userId, email, lookup));
    if Truthy(userId) {
      UpdateTwoPhases(s, userId.value, email, lookup);
      UpdateTwoPhases(t, userId.value, email, lookup);
    } else {
      UpdateWithoutIdLogsOut(s, userId, email, lookup);
      UpdateWithoutIdLogsOut(t, userId, email, lookup);
    }
  }

  /** The update a session user triggers: `updateAuthState(user.id, user.email)`. */
  function SessionUpdate(u: AuthUser, lookup: AdminLookup): seq<Write>
  {
    UpdateWrites(Some(u.id), u.email, lookup)
  }

  /**
   * The `onAuthStateChange` callback: nothing once unmounted; SIGNED_OUT
   * resets; INITIAL_SESSION updates or resets; every other event updates
   * when the session carries a user and otherwise does nothing.
   */
  function HandlerWrites(mounted: bool, ev: AuthEvent, session: Option<AuthUser>, lookup: AdminLookup): seq<Write>
  {
    if !mounted then []
    else
      match ev
      case SignedOut => [Reset]
      case InitialSession => if session.Some? then SessionUpdate(session.value, lookup) else [Reset]
      case SignedIn => if session.Some? then SessionUpdate(session.value, lookup) else []
      case UserUpdated => if session.Some? then SessionUpdate(session.value, lookup) else []
      case OtherEvent(_) => if session.Some? then SessionUpdate(session.value, lookup) else []
  }

  /**
   * SIGNED_OUT resets to logged out unconditionally, and so does an
   * INITIAL_SESSION without a session user.
   */
  lemma SignOutEventsReset(s: AuthData, ev: AuthEvent, session: Option<AuthUser>, lookup: AdminLookup)
    requires ev.SignedOut? || (ev.InitialSession? && session.None?)
    ensures ApplyAll(s, HandlerWrites(true, ev, session, lookup)) == LoggedOut()
  {
    assert HandlerWrites(true, ev, session, lookup)[..0] == [];
  }

  /** Every event but SIGNED_OUT that carries a session user runs the update for it. */
  lemma SessionEventsUpdate(ev: AuthEvent, u: AuthUser, lookup: AdminLookup)
    requires !ev.SignedOut?
    ensures HandlerWrites(true, ev, Some(u), lookup) == UpdateWrites(Some(u.id), u.email, lookup)
  {
  }

  /** SIGNED_IN, USER_UPDATED and unknown events without a session user change nothing. */
  lemma UserlessEventsKeepState(s: AuthData, ev: AuthEvent, lookup: AdminLookup)
    requires ev.SignedIn? || ev.UserUpdated? || ev.OtherEvent?
    ensures ApplyAll(s, HandlerWrites(true, ev, None, lookup)) == s
  {
  }

  /** Once unmounted, every event is ignored. */
  lemma UnmountedIgnoresEvents(s: AuthData, ev: AuthEvent, session: Option<AuthUser>, lookup: AdminLookup)
    ensures ApplyAll(s, HandlerWrites(false, ev, session, lookup)) == s
  {
  }

  /** One delivered event: its kind, its session user and the admin lookup's answer. */
  datatype Delivery = Delivery(ev: AuthEvent, session: Option<AuthUser>, lookup: AdminLookup)

  /** Events delivered one at a time to a mounted provider. */
  function RunEvents(s: AuthData, ds: seq<Delivery>): AuthData
    decreases |ds|
  {
    if ds == [] then s
    else RunEvents(ApplyAll(s, HandlerWrites(true, ds[0].ev, ds[0].session, ds[0].lookup)), ds[1..])
  }

  /** For every sequence of events, only a user is ever an admin. */
  lemma {:induction false} EventsKeepInvariant(s: AuthData, ds: seq<Delivery>)
    requires s.AdminImpliesUser()
    ensures RunEvents(s, ds).AdminImpliesUser()
    decreases |ds|
  {
    if ds != [] {
      var t := ApplyAll(s, HandlerWrites(true, ds[0].ev, ds[0].session, ds[0].lookup));
      WritesKeepInvariant(s, HandlerWrites(true, ds[0].ev, ds[0].session, ds[0].lookup));
      EventsKeepInvariant(t, ds[1..]);
    }
  }

  /** The answer to `getSession()`: the session user, if any, or an error object. */
  datatype SessionResponse = SessionResponse(session: Option<AuthUser>, error: Option<string>)

  /** `loadUser` before its await: loading on, if still mounted. */
  function BootstrapStartWrites(mounted: bool): seq<Write>
  {
    if mounted then [SetLoading(true)] else []
  }

  /**
   * `loadUser` after `getSession()` answered: an error (returned or thrown)
   * resets if mounted; otherwise, if mounted, a session user is updated
   * and no session resets.
   */
  function BootstrapFinishWrites(mounted: bool, response: Await<SessionResponse>, lookup: AdminLookup): seq<Write>
  {
    if response.Threw? || response.value.error.Some? then (if mounted then [Reset] else [])
    else if !mounted then []
    else if response.value.session.Some? then SessionUpdate(response.value.session.value, lookup)
    else [Reset]
  }

  /** Once unmounted, the bootstrap writes nothing. */
  lemma UnmountedBootstrapSilent(response: Await<SessionResponse>, lookup: AdminLookup)
    ensures BootstrapStartWrites(false) == []
    ensures BootstrapFinishWrites(false, response, lookup) == []
  {
  }

  /**
   * A bootstrap that stays mounted and meets a session error, a thrown error
   * or no session ends logged out; one that finds a session user ends in
   * that user's resolved state, unless the user's id is empty, which the
   * update treats as no user and logs out.
   */
  lemma BootstrapOutcome(s: AuthData, response: Await<SessionResponse>, lookup: AdminLookup)
    ensures response.Threw? || response.value.error.Some? || response.value.session.None? ==>
      ApplyAll(s, BootstrapStartWrites(true) + BootstrapFinishWrites(true, response, lookup)) == LoggedOut()
    ensures (response.Resolved? && response.value.error.None? && response.value.session.Some? &&
             response.value.session.value.id != "") ==>
      (ApplyAll(s, BootstrapStartWrites(true) + BootstrapFinishWrites(true, response, lookup))
        == Resolved(response.value.session.value.id, response.value.session.value.email, lookup))
    ensures (response.Resolved? && response.value.error.None? && response.value.session.Some? &&
             response.value.session.value.id == "") ==>
      ApplyAll(s, BootstrapStartWrites(true) + BootstrapFinishWrites(true, response, lookup)) == LoggedOut()
  {
    var finish := BootstrapFinishWrites(true, response, lookup);
    ApplyAllAppend(s, BootstrapStartWrites(true), finish);
    var t := ApplyAll(s, BootstrapStartWrites(true));
    if response.Threw? || response.value.error.Some? || response.value.session.None? {
      assert finish == [Reset];
      assert finish[..0] == [];
    } else if response.value.session.value.id != "" {
      UpdateTwoPhases(t, response.value.session.value.id, response.value.session.value.email, lookup);
    } else {
      UpdateWithoutIdLogsOut(t, Some(""), response.value.session.value.email, lookup);
    }
  }

  /** The answer to `signInWithPassword`: `error` is the returned error object, if any. */
  datatype SignInResponse = SignInResponse(error: Option<string>)

  predicate SignInSucceeded(response: Await<SignInResponse>) {
    response.Resolved? && response.value.error.None?
  }

  /**
   * `login`: loading on, then, on a returned or thrown error, loading off.
   * A success writes nothing more; the SIGNED_IN event publishes the user.
   */
  function LoginWrites(response: Await<SignInResponse>): seq<Write>
  {
    [SetLoading(true)] + if SignInSucceeded(response) then [] else [SetLoading(false)]
  }

  /** `login` returns true exactly when the sign-in succeeded. */
  function LoginResult(response: Await<SignInResponse>): (ok: bool)
    ensures ok <==> SignInSucceeded(response)
  {
    match response
    case Threw(_) => false
    case Resolved(r) => r.error.None?
  }

  /** The answer to `signUp`: the new user and session, or the returned error. */
  datatype SignUpResponse = SignUpResponse(user: Option<AuthUser>, session: Option<AuthUser>, error: Option<string>)

  predicate SignUpSucceeded(response: Await<SignUpResponse>) {
    response.Resolved? && response.value.error.None?
  }

  /** What `signup` returns: `{data: {user, session}, error: null}` or `{data: null, error}`. */
  datatype SignupData = SignupData(user: Option<AuthUser>, session: Option<AuthUser>)
  datatype SignupResult = SignupResult(data: Option<SignupData>, error: Option<string>)

  /** `signup` publishes what `login` does: loading on, and off again only on an error. */
  function SignupWrites(response: Await<SignUpResponse>): seq<Write>
  {
    [SetLoading(true)] + if SignUpSucceeded(response) then [] else [SetLoading(false)]
  }

  /** On success the new user and session are handed back; on failure the error alone. */
  function SignupOutcome(response: Await<SignUpResponse>): (r: SignupResult)
    ensures SignUpSucceeded(response) ==>
      r == SignupResult(Some(SignupData(response.value.user, response.value.session)), None)
    ensures !SignUpSucceeded(response) ==> r.data.None? && r.error.Some?
  {
    match response
    case Threw(reason) => SignupResult(None, Some(reason))
    case Resolved(SignUpResponse(user, session, error)) =>
      if error.Some? then SignupResult(None, error)
      else SignupResult(Some(SignupData(user, session)), None)
  }

  /**
   * Login and signup keep the user and the admin flag. On an error they end
   * with loading off; on success they leave loading on and publish no user.
   */
  lemma CredentialCallsKeepIdentity(s: AuthData, signIn: Await<SignInResponse>, signUp: Await<SignUpResponse>)
    ensures ApplyAll(s, LoginWrites(signIn))
         == s.(isLoading := SignInSucceeded(signIn))
    ensures ApplyAll(s, SignupWrites(signUp))
         == s.(isLoading := SignUpSucceeded(signUp))
  {
    ApplyAllPair(s, SetLoading(true), SetLoading(false));
  }

  /**
   * `logout`: loading on, then, when `signOut()` resolves (even with an
   * error object), the logged-out state; when it throws, loading off with
   * the user and admin flag kept.
   */
  function LogoutWrites(response: Await<Option<string>>): seq<Write>
  {
    [SetLoading(true)] + if response.Resolved? then [Reset] else [SetLoading(false)]
  }

  lemma LogoutOutcome(s: AuthData, response: Await<Option<string>>)
    ensures response.Resolved? ==> ApplyAll(s, LogoutWrites(response)) == LoggedOut()
    ensures response.Threw? ==> ApplyAll(s, LogoutWrites(response)) == s.(isLoading := false)
  {
    ApplyAllPair(s, SetLoading(true), Reset);
    ApplyAllPair(s, SetLoading(true), SetLoading(false));
  }

  /**
   * No guard discards a late admin lookup: when SIGNED_OUT lands between the
   * two phases of an update, the second phase still publishes the user, and
   * with a granting lookup the signed-out visitor ends as an admin.
   */
  lemma LateLookupRestoresUser(s: AuthData, u: AuthUser, lookup: AdminLookup)
    requires u.id != "" && Grants(lookup)
    ensures var update := SessionUpdate(u, lookup);
      ApplyAll(s, [update[0]] + HandlerWrites(true, SignedOut, None, lookup) + [update[1]])
        == AuthData(Some(User(u.id, OrEmpty(u.email))), true, false)
  {
  }
}
