/** The auth slice: the signed-in administrator's session. */
module Auth {
  import opened Wrappers
  import Slice

  datatype Role = Admin | User

  datatype UserProfile = UserProfile(id: int, fullName: string, email: string, role: Role)

  datatype State = State(
    isAuthenticated: bool,
    user: Option<UserProfile>,
    status: Slice.Status,
    error: Option<string>)

  /** The message stored when a login fails without a reason. */
  const UnknownLoginError: string := "An unknown login error occurred"

  function Initial(): State
  {
    State(false, None, Slice.Idle, None)
  }

  /** The session invariant: authenticated exactly when a user profile is held. */
  predicate Consistent(s: State)
  {
    s.isAuthenticated <==> s.user.Some?
  }

  datatype Action =
    | ClearAuthError
    | LoginPending
    | LoginFulfilled(profile: UserProfile)
    | LoginRejected(reason: Option<string>)
    | ProfileFulfilled(profile: UserProfile)
    | ProfileRejected
    | LogoutFulfilled

  /** `clearAuthError`: only the error changes, to none. */
  function ClearError(s: State): (r: State)
    ensures r.error == None
    ensures r == s.(error := r.error)
  {
    s.(error := None)
  }

  /** `loginAction.rejected`: the session is dropped and the error is the rejection's payload,
      or the default message when there is none. */
  function LoginFailed(s: State, reason: Option<string>): (r: State)
    ensures !r.isAuthenticated && r.user == None && r.status == Slice.Failed
    ensures reason.Some? ==> r.error == reason
    ensures reason.None? ==> r.error == Some(UnknownLoginError)
  {
    State(false, None, Slice.Failed, Some(reason.GetOr(UnknownLoginError)))
  }

  /** `authSlice.reducer`. Every handler keeps the session invariant; a login's pending leaves
      the session as it was; a profile rejection and a logout drop the session but keep the
      error; and only a login ever writes an error. */
  function Reduce(s: State, a: Action): (r: State)
    ensures Consistent(s) ==> Consistent(r)
    ensures a.LoginPending? ==>
              r.status == Slice.Loading && r.error == None
              && r.isAuthenticated == s.isAuthenticated && r.user == s.user
    ensures a.LoginFulfilled? || a.ProfileFulfilled? ==>
              r.isAuthenticated && r.user == Some(a.profile) && r.status == Slice.Succeeded
              && r.error == s.error
    ensures a.ProfileRejected? ==>
              !r.isAuthenticated && r.user == None && r.status == Slice.Failed && r.error == s.error
    ensures a.LogoutFulfilled? ==>
              !r.isAuthenticated && r.user == None && r.status == Slice.Idle && r.error == s.error
    ensures r.error.Some? && r.error != s.error ==> a.LoginRejected?
  {
    match a
    case ClearAuthError => ClearError(s)
    case LoginPending => s.(status := Slice.Loading, error := None)
    case LoginFulfilled(u) => s.(status := Slice.Succeeded, isAuthenticated := true, user := Some(u))
    case LoginRejected(reason) => LoginFailed(s, reason)
    case ProfileFulfilled(u) => s.(isAuthenticated := true, user := Some(u), status := Slice.Succeeded)
    case ProfileRejected => s.(isAuthenticated := false, user := None, status := Slice.Failed)
    case LogoutFulfilled => s.(isAuthenticated := false, user := None, status := Slice.Idle)
  }

  /** The invariant holds in the initial state and after any sequence of actions. */
  lemma {:induction false} ConsistentAlways(actions: seq<Action>)
    ensures Consistent(Run(Initial(), actions))
  {
    if |actions| > 0 {
      ConsistentAlways(actions[..|actions| - 1]);
    }
  }

  /** The state after dispatching `actions` in order from `s`. */
  function Run(s: State, actions: seq<Action>): State
  {
    if |actions| == 0 then s else Reduce(Run(s, actions[..|actions| - 1]), actions[|actions| - 1])
  }
}
