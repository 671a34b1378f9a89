/** `LoginPage`: the sign-in form and the effect that reacts to the auth slice. */
module LoginPage {
  import opened Wrappers
  import opened Toasts
  import Slice
  import Strings
  import Auth

  datatype Credentials = Credentials(email: string, password: string)

  datatype Field = Email | Password

  /** The schema: an email accepted by `isEmail` (Zod's email check) and a password of at
      least six UTF-16 code units. */
  function Issues(c: Credentials, isEmail: string -> bool): (bad: set<Field>)
    ensures Email in bad <==> !isEmail(c.email)
    ensures Password in bad <==> Strings.Utf16Length(c.password) < 6
    ensures forall f :: f in bad ==> f == Email || f == Password
  {
    (if isEmail(c.email) then {} else {Email})
    + (if Strings.Utf16Length(c.password) < 6 then {Password} else {})
  }

  /** Three emoji make a six-unit password, which the schema accepts, although they are only
      three characters. */
  lemma EmojiPasswordAccepted(email: string, isEmail: string -> bool)
    ensures |"\U{1F600}\U{1F600}\U{1F600}"| == 3
    ensures Password !in Issues(Credentials(email, "\U{1F600}\U{1F600}\U{1F600}"), isEmail)
  {
    var e := "\U{1F600}";
    assert Strings.Utf16Length(e) == 2;
    Strings.Utf16LengthConcat(e, e);
    Strings.Utf16LengthConcat(e + e, e);
    assert e + e + e == "\U{1F600}\U{1F600}\U{1F600}";
  }

  /** `onSubmit`: valid credentials are sent as they are, through `loginAction`; invalid ones
      send nothing. */
  function Submit(c: Credentials, isEmail: string -> bool): (r: Option<Credentials>)
    ensures r.Some? <==> Issues(c, isEmail) == {}
    ensures r.Some? ==> r.value == c
  {
    if Issues(c, isEmail) == {} then Some(c) else None
  }

  /** What the effect does: a move to the dashboard, an error toast, and whether it dispatches
      `clearAuthError`. */
  datatype Effect = Effect(navigateTo: Option<string>, toast: Option<Toast>, clearsError: bool)

  /** The effect on the auth state: an authenticated session moves to the dashboard; a failed
      login with a non-empty error shows that error once and clears it. */
  function OnAuthChange(s: Auth.State): (e: Effect)
    ensures e.navigateTo.Some? <==> s.isAuthenticated
    ensures e.navigateTo.Some? ==> e.navigateTo.value == "/dashboard"
    ensures e.toast.Some? <==> s.status == Slice.Failed && s.error.Some? && s.error.value != ""
    ensures e.toast.Some? ==> e.toast.value == Failure(s.error.value)
    ensures e.clearsError <==> e.toast.Some?
  {
    var shows := s.status == Slice.Failed && s.error.Some? && s.error.value != "";
    Effect(if s.isAuthenticated then Some("/dashboard") else None,
           if shows then Some(Failure(s.error.value)) else None,
           shows)
  }

  /** A rejected login shows its reason, or the slice's default message without one, and the
      session is not entered. */
  lemma RejectionIsShown(s: Auth.State, reason: Option<string>)
    requires reason.None? || reason.value != ""
    ensures var e := OnAuthChange(Auth.Reduce(s, Auth.LoginRejected(reason)));
            e.navigateTo.None? && e.clearsError
            && e.toast == Some(Failure(if reason.Some? then reason.value else Auth.UnknownLoginError))
  {
  }

  /** The error is shown once: after the effect's `clearAuthError` the effect shows nothing. */
  lemma ErrorShownOnce(s: Auth.State)
    requires OnAuthChange(s).clearsError
    ensures OnAuthChange(Auth.Reduce(s, Auth.ClearAuthError)).toast.None?
    ensures OnAuthChange(Auth.Reduce(s, Auth.ClearAuthError)).navigateTo == OnAuthChange(s).navigateTo
  {
  }

  /** A rejection whose reason is the empty string is stored but never shown. */
  lemma EmptyReasonIsSilent(s: Auth.State)
    ensures OnAuthChange(Auth.Reduce(s, Auth.LoginRejected(Some("")))).toast.None?
  {
  }

  /** A fulfilled login moves to the dashboard. */
  lemma LoginLeadsToDashboard(s: Auth.State, u: Auth.UserProfile)
    ensures OnAuthChange(Auth.Reduce(s, Auth.LoginFulfilled(u))).navigateTo == Some("/dashboard")
  {
  }
}
