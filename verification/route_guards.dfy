/** The three route guards wrapped around the admin pages: `PersistLogin` restores a session
    once on load, `ProtectedRoute` waits for the profile check, and `AdminRoute` admits only
    administrators. */
module RouteGuards {
  import opened Wrappers
  import Slice
  import Auth

  /** What a guard renders. */
  datatype Outcome = Children | Redirect(to: string) | Spinner

  // ---------------------------------------------------------------- AdminRoute

  /** `AdminRoute`: administrators get the child routes, any other signed-in user is sent to
      `/unauthorized`, and without a user the guard sends to `/login`. */
  function AdminRoute(user: Option<Auth.UserProfile>): (o: Outcome)
    ensures o == Children <==> user.Some? && user.value.role == Auth.Admin
    ensures o == Redirect("/unauthorized") <==> user.Some? && user.value.role != Auth.Admin
    ensures o == Redirect("/login") <==> user.None?
    ensures o != Spinner
  {
    if user.Some? && user.value.role == Auth.Admin then Children
    else if user.Some? then Redirect("/unauthorized")
    else Redirect("/login")
  }

  // ---------------------------------------------------------------- ProtectedRoute

  /** What `ProtectedRoute` does for one auth state: whether its effect dispatches the profile
      fetch, and what it renders. */
  datatype Protected = Protected(fetchProfile: bool, view: Outcome)

  /** `ProtectedRoute`: the profile is fetched only when unauthenticated and idle; the spinner
      shows while idle or loading whatever the flag says; once settled, an unauthenticated user
      goes to `/login` and an authenticated one gets the children. */
  function ProtectedRoute(isAuthenticated: bool, status: Slice.Status): (p: Protected)
    ensures p.fetchProfile <==> !isAuthenticated && status == Slice.Idle
    ensures p.view == Spinner <==> status == Slice.Idle || status == Slice.Loading
    ensures p.view == Redirect("/login") <==> (status.Succeeded? || status.Failed?) && !isAuthenticated
    ensures p.view == Children <==> (status.Succeeded? || status.Failed?) && isAuthenticated
  {
    var fetch := !isAuthenticated && status == Slice.Idle;
    if status == Slice.Loading || status == Slice.Idle then Protected(fetch, Spinner)
    else if !isAuthenticated then Protected(fetch, Redirect("/login"))
    else Protected(fetch, Children)
  }

  /** Against the auth slice: on a fresh store the guard fetches the profile; once the fetch
      settles it never fetches again, and it shows the children exactly when the profile
      arrived. */
  lemma ProtectedRouteSettles(u: Auth.UserProfile)
    ensures ProtectedRoute(Auth.Initial().isAuthenticated, Auth.Initial().status).fetchProfile
    ensures var s := Auth.Reduce(Auth.Initial(), Auth.ProfileFulfilled(u));
            ProtectedRoute(s.isAuthenticated, s.status) == Protected(false, Children)
    ensures var s := Auth.Reduce(Auth.Initial(), Auth.ProfileRejected);
            ProtectedRoute(s.isAuthenticated, s.status) == Protected(false, Redirect("/login"))
  {
  }

  // ---------------------------------------------------------------- PersistLogin

  /** One run of `PersistLogin`'s verification effect: whether it fetched the profile, and the
      loading flag afterwards. */
  datatype Verification = Verification(fetched: bool, isLoading: bool)

  /** `PersistLogin`'s effect. The profile is fetched only when no user is held; how that fetch
      settles is swallowed, so it cannot change the result; the loading flag is cleared exactly
      when the component is still mounted when the effect finishes, and otherwise left as it
      was. */
  function Verify(isLoading: bool, user: Option<Auth.UserProfile>, outcome: Settled, stillMounted: bool)
    : (v: Verification)
    ensures v.fetched <==> user.None?
    ensures stillMounted ==> !v.isLoading
    ensures !stillMounted ==> v.isLoading == isLoading
  {
    var fetched := user.None?;
    // a rejected fetch is caught and logged; either way the effect goes on
    Verification(fetched, if stillMounted then false else isLoading)
  }

  /** A failed profile fetch is swallowed: the effect ends the same way as after a success.
      `Verify` never reads `outcome`, so this holds by construction; the lemma records that the
      catch in the effect leaves nothing of the failure behind. */
  lemma VerifyIgnoresOutcome(isLoading: bool, user: Option<Auth.UserProfile>, reason: string, stillMounted: bool)
    ensures Verify(isLoading, user, Rejected(reason), stillMounted) == Verify(isLoading, user, Resolved, stillMounted)
  {
  }

  /** `PersistLogin` renders the spinner while loading and the children afterwards. */
  function PersistLoginView(isLoading: bool): (o: Outcome)
    ensures o == Spinner <==> isLoading
    ensures o == Children <==> !isLoading
  {
    if isLoading then Spinner else Children
  }
}
