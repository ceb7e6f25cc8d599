/**
 * The `AuthProvider` of `src/contexts/AuthContext.tsx` as an object: the
 * `authData` state is three fields, `mounted` is the flag the effect's
 * cleanup clears, and every `setAuthData` goes through `Publish`. Each
 * method runs one asynchronous operation to completion with the backend's
 * answers as parameters; the bootstrap is split at its await, where the
 * provider may unmount. Every method keeps the invariant that only a user
 * can be an admin, and says which writes it published.
 */
module AuthContext {
  import opened Wrappers
  import opened Types
  import opened Backend
  import opened AuthUtils
  import opened AuthMachine
  import AuthConstants

  class AuthProvider {
    var user: Option<User>
    var isAdmin: bool
    var isLoading: bool
    var mounted: bool

    /** The published `authData`. */
    function Data(): AuthData
      reads this
    {
      AuthData(user, isAdmin, isLoading)
    }

    ghost predicate Valid()
      reads this
    {
      Data().AdminImpliesUser()
    }

    /** Mounting: `useState(initialAuthData)`, then the effect sets `mounted`. */
    constructor ()
      ensures Valid() && mounted
      ensures Data() == AuthConstants.InitialAuthData()
    {
      user, isAdmin, isLoading := None, false, true;
      mounted := true;
    }

    /** One `setAuthData` call. */
    method Publish(w: Write)
      requires Valid()
      modifies this
      ensures Valid() && mounted == old(mounted)
      ensures Data() == Apply(old(Data()), w)
    {
      match w
      case Reset =>
        user, isAdmin, isLoading := None, false, false;
      case PublishUser(id, email) =>
        user, isLoading := Some(User(id, email)), true;
      case PublishAdmin(id, email, admin) =>
        user, isAdmin, isLoading := Some(User(id, email)), admin, false;
      case SetLoading(on) =>
        isLoading := on;
    }

    /** `updateAuthState(userId, email)`, the admin lookup answering `lookup`. */
    method UpdateAuthState(userId: Option<string>, email: Option<string>, lookup: AdminLookup)
      requires Valid()
      modifies this
      ensures Valid() && mounted == old(mounted)
      ensures Data() == ApplyAll(old(Data()), UpdateWrites(userId, email, lookup))
    {
      if !Truthy(userId) {
        Publish(Reset);
        ApplyAllSingle(old(Data()), Reset);
        return;
      }
      var id, address := userId.value, OrEmpty(email);
      Publish(PublishUser(id, address));
      var admin := CheckIsAdmin(lookup);
      Publish(PublishAdmin(id, address, admin));
      ApplyAllPair(old(Data()), PublishUser(id, address), PublishAdmin(id, address, admin));
    }

    /** The `onAuthStateChange` callback for one event, run to completion. */
    method HandleEvent(ev: AuthEvent, session: Option<AuthUser>, lookup: AdminLookup)
      requires Valid()
      modifies this
      ensures Valid() && mounted == old(mounted)
      ensures Data() == ApplyAll(old(Data()), HandlerWrites(old(mounted), ev, session, lookup))
    {
      if !mounted {
        return;
      }
      match ev
      case SignedOut =>
        Publish(Reset);
        ApplyAllSingle(old(Data()), Reset);
      case InitialSession =>
        if session.Some? {
          UpdateAuthState(Some(session.value.id), session.value.email, lookup);
        } else {
          Publish(Reset);
          ApplyAllSingle(old(Data()), Reset);
        }
      case SignedIn =>
        if session.Some? {
          UpdateAuthState(Some(session.value.id), session.value.email, lookup);
        }
      case UserUpdated =>
        if session.Some? {
          UpdateAuthState(Some(session.value.id), session.value.email, lookup);
        }
      case OtherEvent(_) =>
        if session.Some? {
          UpdateAuthState(Some(session.value.id), session.value.email, lookup);
        }
    }

    /** `loadUser` up to its `getSession()` call. */
    method StartLoadUser()
      requires Valid()
      modifies this
      ensures Valid() && mounted == old(mounted)
      ensures Data() == ApplyAll(old(Data()), BootstrapStartWrites(old(mounted)))
    {
      if mounted {
        Publish(SetLoading(true));
        ApplyAllSingle(old(Data()), SetLoading(true));
      }
    }

    /** `loadUser` from the answer of `getSession()` on. */
    method FinishLoadUser(response: Await<AuthMachine.SessionResponse>, lookup: AdminLookup)
      requires Valid()
      modifies this
      ensures Valid() && mounted == old(mounted)
      ensures Data() == ApplyAll(old(Data()), BootstrapFinishWrites(old(mounted), response, lookup))
    {
      if response.Threw? || response.value.error.Some? {
        // the error is thrown and caught
        if mounted {
          Publish(Reset);
          ApplyAllSingle(old(Data()), Reset);
        }
        return;
      }
      if mounted {
        var session := response.value.session;
        if session.Some? {
          UpdateAuthState(Some(session.value.id), session.value.email, lookup);
        } else {
          Publish(Reset);
          ApplyAllSingle(old(Data()), Reset);
        }
      }
    }

    /** The effect's cleanup. */
    method Unmount()
      requires Valid()
      modifies this
      ensures Valid() && !mounted
      ensures Data() == old(Data())
    {
      mounted := false;
    }

    /** `login(email, password)`, the backend answering `response`. */
    method Login(response: Await<SignInResponse>) returns (ok: bool)
      requires Valid()
      modifies this
      ensures Valid() && mounted == old(mounted)
      ensures Data() == ApplyAll(old(Data()), LoginWrites(response))
      ensures ok == LoginResult(response)
    {
      Publish(SetLoading(true));
      if response.Threw? || response.value.error.Some? {
        Publish(SetLoading(false));
        ApplyAllPair(old(Data()), SetLoading(true), SetLoading(false));
        return false;
      }
      ApplyAllSingle(old(Data()), SetLoading(true));
      return true;
    }

    /** `signup(email, password)`, the backend answering `response`. */
    method Signup(response: Await<SignUpResponse>) returns (r: SignupResult)
      requires Valid()
      modifies this
      ensures Valid() && mounted == old(mounted)
      ensures Data() == ApplyAll(old(Data()), SignupWrites(response))
      ensures r == SignupOutcome(response)
    {
      Publish(SetLoading(true));
      if response.Threw? {
        Publish(SetLoading(false));
        ApplyAllPair(old(Data()), SetLoading(true), SetLoading(false));
        return SignupResult(None, Some(response.reason));
      }
      if response.value.error.Some? {
        Publish(SetLoading(false));
        ApplyAllPair(old(Data()), SetLoading(true), SetLoading(false));
        return SignupResult(None, response.value.error);
      }
      ApplyAllSingle(old(Data()), SetLoading(true));
      return SignupResult(Some(SignupData(response.value.user, response.value.session)), None);
    }

    /** `logout()`, `signOut()` answering `response` (its returned error, if any, or a throw). */
    method Logout(response: Await<Option<string>>)
      requires Valid()
      modifies this
      ensures Valid() && mounted == old(mounted)
      ensures Data() == ApplyAll(old(Data()), LogoutWrites(response))
    {
      Publish(SetLoading(true));
      if response.Threw? {
        Publish(SetLoading(false));
        ApplyAllPair(old(Data()), SetLoading(true), SetLoading(false));
        return;
      }
      Publish(Reset);
      ApplyAllPair(old(Data()), SetLoading(true), Reset);
    }
  }
}
