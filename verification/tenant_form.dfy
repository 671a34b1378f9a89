/** `TenantFormPage`: the form that creates or edits a tenant, with its hand-written phone
    number pattern. */
module TenantForm {
  import opened Wrappers
  import opened Toasts
  import Strings
  import JsValues
  import RouteParams
  import Tenants

  // ---------------------------------------------------------------- the phone pattern

  /** The characters of the class `[3|5|7|8|9]`: the bar is one of them. */
  predicate IsPairChar(c: char)
  {
    c == '3' || c == '|' || c == '5' || c == '7' || c == '8' || c == '9'
  }

  /** `([0-9]{8})$`: exactly eight decimal digits. */
  predicate EightDigits(t: string)
  {
    |t| == 8 && Strings.AllDigits(t)
  }

  /** `^(0[3|5|7|8|9])+([0-9]{8})$`, read the way the regular expression is built: a group
      `0c` with `c` from the class, followed either by the eight final digits or by another
      repetition of the group. */
  predicate MatchesPhone(s: string)
    decreases |s|
  {
    |s| >= 2 && s[0] == '0' && IsPairChar(s[1]) && (EightDigits(s[2..]) || MatchesPhone(s[2..]))
  }

  /** The positions of a string of `n` two-character groups `0c`. */
  predicate Groups(g: string)
  {
    |g| % 2 == 0 && forall i :: 0 <= i < |g| ==> if i % 2 == 0 then g[i] == '0' else IsPairChar(g[i])
  }

  /** The phone numbers described by position: one or more groups, then eight digits. */
  predicate IsPhone(s: string)
  {
    |s| >= 10 && Groups(s[..|s| - 8]) && EightDigits(s[|s| - 8..])
  }

  /** The pattern accepts exactly the strings of one or more `0c` groups followed by eight
      digits. */
  lemma {:induction false} PhonePattern(s: string)
    ensures MatchesPhone(s) <==> IsPhone(s)
    decreases |s|
  {
    if |s| >= 2 && s[0] == '0' && IsPairChar(s[1]) {
      var t := s[2..];
      PhonePattern(t);
      if EightDigits(t) {
        assert s[..|s| - 8] == s[..2];
        assert s[|s| - 8..] == t;
      } else if IsPhone(t) {
        assert s[..|s| - 8] == s[..2] + t[..|t| - 8];
        assert s[|s| - 8..] == t[|t| - 8..];
        GroupsPrepend(s[..2], t[..|t| - 8]);
      }
      if IsPhone(s) && !EightDigits(t) {
        assert |s| > 10;
        assert t[..|t| - 8] == s[..|s| - 8][2..];
        assert t[|t| - 8..] == s[|s| - 8..];
        GroupsTail(s[..|s| - 8]);
      }
    }
  }

  lemma GroupsPrepend(a: string, g: string)
    requires |a| == 2 && a[0] == '0' && IsPairChar(a[1]) && Groups(g)
    ensures Groups(a + g)
  {
    forall i | 0 <= i < |a + g| ensures if i % 2 == 0 then (a + g)[i] == '0' else IsPairChar((a + g)[i]) {
      if i >= 2 { assert (a + g)[i] == g[i - 2]; }
    }
  }

  lemma GroupsTail(g: string)
    requires |g| >= 2 && Groups(g)
    ensures Groups(g[2..])
  {
    forall i | 0 <= i < |g[2..]| ensures if i % 2 == 0 then g[2..][i] == '0' else IsPairChar(g[2..][i]) {
      assert g[2..][i] == g[i + 2];
    }
  }

  /** The bar in the character class is accepted as a phone digit. */
  lemma BarIsAccepted()
    ensures MatchesPhone("0|12345678")
  {
    assert EightDigits("0|12345678"[2..]) by { assert "0|12345678"[2..] == "12345678"; }
  }

  /** A leading `04` is refused. */
  lemma FourIsRefused()
    ensures !MatchesPhone("0412345678")
  {
    assert !IsPairChar("0412345678"[1]);
  }

  // ---------------------------------------------------------------- the schema

  /** The form values; `None` is a field left undefined. */
  datatype Input = Input(
    fullName: string,
    phoneNumber: string,
    email: Option<string>,
    password: Option<string>,
    citizenId: string,
    dateOfBirth: Option<string>,
    permanentAddress: Option<string>)

  datatype Field = FullName | PhoneNumber | Email | Password | CitizenId

  /** `z.string().X.optional().or(z.literal(''))`: undefined and the empty string are accepted,
      any other value must pass `check`. */
  predicate OptionalOrEmpty(v: Option<string>, check: string -> bool)
  {
    v.None? || v.value == "" || check(v.value)
  }

  /** One field's check; `isEmail` stands for Zod's email check. */
  predicate Fails(x: Input, isEmail: string -> bool, f: Field)
  {
    match f
    case FullName => Strings.Utf16Length(x.fullName) < 3
    case PhoneNumber => !MatchesPhone(x.phoneNumber)
    case Email => !OptionalOrEmpty(x.email, isEmail)
    case Password => !OptionalOrEmpty(x.password, (p: string) => Strings.Utf16Length(p) >= 6)
    case CitizenId => Strings.Utf16Length(x.citizenId) < 9
  }

  function AllFields(): set<Field>
  {
    {FullName, PhoneNumber, Email, Password, CitizenId}
  }

  /** The fields failing the schema. */
  function Issues(x: Input, isEmail: string -> bool): (bad: set<Field>)
    ensures forall f :: f in bad <==> Fails(x, isEmail, f)
  {
    assert forall f: Field :: f in AllFields() by {
      forall f: Field ensures f in AllFields() {
        assert f.FullName? || f.PhoneNumber? || f.Email? || f.Password? || f.CitizenId?;
      }
    }
    set f | f in AllFields() && Fails(x, isEmail, f)
  }

  /** A password is accepted exactly when it is left out, empty, or at least six UTF-16 code
      units long; a short non-empty one is refused. */
  lemma PasswordRule(x: Input, isEmail: string -> bool)
    ensures Password !in Issues(x, isEmail) <==>
              x.password.None? || x.password.value == "" || Strings.Utf16Length(x.password.value) >= 6
  {
    assert Password in Issues(x, isEmail) <==> Fails(x, isEmail, Password);
  }

  // ---------------------------------------------------------------- the page

  /** Submit in edit mode updates the record with `id = Number(id)`, otherwise it creates. */
  datatype Submission = Create(data: Input) | Update(data: Input, id: JsValues.JsNumber)

  function Submit(id: Option<string>, data: Input, toNumber: string -> JsValues.JsNumber): (r: Submission)
    ensures r.Update? <==> RouteParams.IsEditMode(id)
    ensures r.data == data
    ensures r.Update? ==> r.id == toNumber(id.value)
  {
    if RouteParams.IsEditMode(id) then Update(data, RouteParams.NumberOf(id, toNumber)) else Create(data)
  }

  /** The password input is rendered only when creating a tenant. */
  predicate ShowsPasswordField(id: Option<string>)
  {
    !RouteParams.IsEditMode(id)
  }

  /** What the edit effect does with the route's id. */
  datatype Load = ResetTo(tenant: Tenants.Tenant) | FetchById(id: JsValues.JsNumber) | NewTenantTitle

  /** The edit effect: with a truthy numeric id, reset the form to the tenant already in the
      store or fetch it; otherwise (creating, or an id that reads as 0 or NaN) only the title
      is set. `inStore` is the store's tenant for the id. */
  function OnLoad(id: Option<string>, inStore: Option<Tenants.Tenant>, toNumber: string -> JsValues.JsNumber): (r: Load)
    ensures r.NewTenantTitle? <==> !RouteParams.IsEditMode(id) || !JsValues.Truthy(toNumber(id.value))
    ensures r.ResetTo? <==> !r.NewTenantTitle? && inStore.Some?
    ensures r.ResetTo? ==> r.tenant == inStore.value
    ensures r.FetchById? ==> r.id == toNumber(id.value)
  {
    if RouteParams.IsEditMode(id) && JsValues.Truthy(RouteParams.NumberOf(id, toNumber)) then
      match inStore
      case Some(t) => ResetTo(t)
      case None => FetchById(RouteParams.NumberOf(id, toNumber))
    else NewTenantTitle
  }

  /** The fetch in edit mode settles: its tenant resets the form; a failure goes back to the
      tenant list. */
  function FetchSettled(fetched: Option<Tenants.Tenant>): (r: Either)
    ensures r.Reset? <==> fetched.Some?
    ensures r.Reset? ==> r.tenant == fetched.value
    ensures r.Navigate? ==> r.to == "/tenants"
  {
    match fetched
    case Some(t) => Reset(t)
    case None => Navigate("/tenants")
  }

  datatype Either = Reset(tenant: Tenants.Tenant) | Navigate(to: string)

  /** After the submission settles: the mode's success message and a move to the tenant list,
      or the rejection's message and no move. */
  function SubmitSettled(s: Submission, outcome: Settled): (r: (Toast, Option<string>))
    ensures r.1.Some? <==> outcome.Resolved?
    ensures r.1.Some? ==> r.1.value == "/tenants"
    ensures outcome.Resolved? ==> r.0 == Success(if s.Update? then "Cập nhật thành công!" else "Thêm khách thuê thành công!")
    ensures outcome.Rejected? ==> r.0 == Failure(outcome.reason)
  {
    match outcome
    case Resolved => (Success(if s.Update? then "Cập nhật thành công!" else "Thêm khách thuê thành công!"), Some("/tenants"))
    case Rejected(reason) => (Failure(reason), None)
  }
}
