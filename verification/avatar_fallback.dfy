/** The avatar fallback text of the user menu and the profile page: the initials of the user's
    full name. */
module AvatarFallback {
  import opened Wrappers
  import Strings
  import Auth

  /** `n[0]` joined as text: the first character, or nothing for an empty field. */
  function FirstChar(s: string): (r: string)
    ensures |r| <= 1
    ensures |s| > 0 ==> r == [s[0]]
    ensures |s| == 0 ==> r == ""
  {
    if |s| == 0 then "" else [s[0]]
  }

  /** `name.split(' ').map(n => n[0]).slice(0, 2).join('').toUpperCase()`. */
  function Initials(name: string): (r: string)
    ensures |r| <= 2
  {
    var fields := Strings.Split(name, ' ');
    var second := if |fields| > 1 then FirstChar(fields[1]) else "";
    Strings.ToUpper(FirstChar(fields[0]) + second)
  }

  /** A one-word name gives its first letter. */
  lemma InitialsOfOneWord(a: string)
    requires |a| > 0 && ' ' !in a
    ensures Initials(a) == [Strings.UpperChar(a[0])]
  {
    Strings.SplitNoSeparator(a, ' ');
  }

  /** A name of two or more words gives the first letters of the first two words; the rest of
      the name plays no part. */
  lemma InitialsOfWords(a: string, b: string, rest: string)
    requires |a| > 0 && |b| > 0 && ' ' !in a && ' ' !in b
    ensures Initials(a + " " + b + rest) == [Strings.UpperChar(a[0]), Strings.UpperChar(b[0])]
  {
    TwoFields(a, b, rest);
  }

  /** An empty first field (a leading space) takes one of the two slots, so only the second
      word's letter is left. */
  lemma LeadingSpaceTakesSlot(b: string, c: string, rest: string)
    requires |b| > 0 && |c| > 0 && ' ' !in b && ' ' !in c
    ensures Initials(" " + b + " " + c + rest) == [Strings.UpperChar(b[0])]
  {
    assert " " + b + " " + c + rest == "" + " " + b + (" " + c + rest);
    TwoFields("", b, " " + c + rest);
  }

  /** The first two fields of `a + " " + b + rest` are `a` and a field starting with `b`. */
  lemma TwoFields(a: string, b: string, rest: string)
    requires ' ' !in a && ' ' !in b
    ensures var fields := Strings.Split(a + " " + b + rest, ' ');
            |fields| >= 2 && fields[0] == a && b <= fields[1]
  {
    assert a + " " + b + rest == a + [' '] + (b + rest);
    Strings.SplitAfterPiece(a, b + rest, ' ');
    FirstFieldStarts(b, rest);
  }

  /** A string without spaces is a prefix of the first field of anything it starts. */
  lemma {:induction false} FirstFieldStarts(b: string, rest: string)
    requires ' ' !in b
    ensures b <= Strings.Split(b + rest, ' ')[0]
  {
    if |b| > 0 {
      assert (b + rest)[1..] == b[1..] + rest;
      assert ' ' !in b[1..] by {
        forall i | 0 <= i < |b[1..]| ensures b[1..][i] != ' ' { assert b[1..][i] == b[i + 1]; }
      }
      FirstFieldStarts(b[1..], rest);
      assert b == [b[0]] + b[1..];
    }
  }

  /** The user menu's fallback: "AD" without a name. */
  function UserNavFallback(name: Option<string>): (r: string)
    ensures name.None? || name == Some("") ==> r == "AD"
    ensures name.Some? && name.value != "" ==> r == Initials(name.value)
    ensures |r| <= 2
  {
    match name
    case None => "AD"
    case Some(n) => if n == "" then "AD" else Initials(n)
  }

  /** The profile page's fallback: "??" for an empty name. */
  function ProfileFallback(name: string): (r: string)
    ensures name == "" ==> r == "??"
    ensures name != "" ==> r == Initials(name)
    ensures |r| <= 2
  {
    if name == "" then "??" else Initials(name)
  }

  datatype ProfileView = UserNotFound | Profile(fallback: string, fullName: string, email: string, role: Auth.Role)

  /** The profile page: only the not-found message without a current user, otherwise the
      user's details with the fallback initials. */
  function ProfilePage(user: Option<Auth.UserProfile>): (v: ProfileView)
    ensures v.UserNotFound? <==> user.None?
    ensures v.Profile? ==> v == Profile(ProfileFallback(user.value.fullName), user.value.fullName,
                                        user.value.email, user.value.role)
  {
    match user
    case None => UserNotFound
    case Some(u) => Profile(ProfileFallback(u.fullName), u.fullName, u.email, u.role)
  }
}
