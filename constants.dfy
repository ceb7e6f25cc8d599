/** The initial authentication state and the context's defaults (`src/contexts/constants.ts`). */
module AuthConstants {
  import opened Wrappers
  import opened Types
  import AuthMachine

  /** `initialAuthData`: nobody signed in, not an admin, still resolving. */
  function InitialAuthData(): (s: AuthData)
    ensures s.user.None? && !s.isAdmin && s.isLoading
    ensures s.AdminImpliesUser()
  {
    AuthData(None, false, true)
  }

  /** The context's default `login`, used outside any provider: every attempt fails. */
  function DefaultLogin(email: string, password: string): (ok: bool)
    ensures !ok
  {
    false
  }

  /** The context's default `signup`: `{data: null, error: null}`. */
  function DefaultSignup(email: string, password: string): (r: AuthMachine.SignupResult)
    ensures r.data.None? && r.error.None?
  {
    AuthMachine.SignupResult(None, None)
  }

  /** The context's default `logout` publishes nothing. */
  function DefaultLogoutWrites(): (ws: seq<AuthMachine.Write>)
    ensures forall s :: AuthMachine.ApplyAll(s, ws) == s
  {
    []
  }

  /** The context's default `checkIsAdmin` grants nobody. */
  function DefaultCheckIsAdmin(userId: string): (r: bool)
    ensures !r
  {
    false
  }
}
