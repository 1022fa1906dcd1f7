/** The shared navigation bar: where the title leads, the avatar's initials,
    and which buttons show. */
module Navbar {
  import opened Http
  import opened Text
  import opened AuthContext
  import App

  /** `handleHomeClick`: the dashboard for a logged-in user, else the landing page. */
  function HomeTarget(isLoggedIn: bool): (path: string)
    ensures isLoggedIn ==> path == "/dashboard"
    ensures !isLoggedIn ==> path == "/"
  {
    if isLoggedIn then "/dashboard" else "/"
  }

  /** Following the title link lands on a page without a further redirect: the
      dashboard when logged in, the landing page otherwise. */
  lemma HomeClickLands(isLoggedIn: bool)
    ensures App.Visit(HomeTarget(isLoggedIn), isLoggedIn) ==
      Some(if isLoggedIn then App.Dashboard else App.Landing)
  {
    App.RouteTableShape();
    if isLoggedIn {
      App.RedirectsSettleInOneStep(3, true);
    } else {
      App.RedirectsSettleInOneStep(0, false);
    }
  }

  /** `s.split(' ')`: the pieces between single spaces, empty pieces included;
      the empty string gives one empty piece. */
  function SplitSpaces(s: string): (words: seq<string>)
    ensures |words| >= 1
  {
    if s == [] then [""]
    else
      var rest := SplitSpaces(s[1..]);
      if s[0] == ' ' then [""] + rest
      else [[s[0]] + rest[0]] + rest[1..]
  }

  /** `words.map(n => n[0]).join('')`: an empty word's `n[0]` is `undefined`,
      which `join` renders as nothing. */
  function FirstChars(words: seq<string>): string {
    if words == [] then ""
    else (if words[0] == "" then "" else [words[0][0]]) + FirstChars(words[1..])
  }

  /** Reference reading of the initials: every non-space character that follows
      a space or starts the string, in order. */
  function WordStarts(s: string, atStart: bool): string {
    if s == [] then ""
    else if s[0] == ' ' then WordStarts(s[1..], true)
    else (if atStart then [s[0]] else "") + WordStarts(s[1..], false)
  }

  /** Splitting and taking first characters keeps exactly the word starts: runs
      of spaces add nothing. */
  lemma {:induction false} FirstCharsAreWordStarts(s: string)
    ensures FirstChars(SplitSpaces(s)) == WordStarts(s, true)
    ensures FirstChars(SplitSpaces(s)[1..]) == WordStarts(s, false)
  {
    if s != [] {
      var rest := SplitSpaces(s[1..]);
      FirstCharsAreWordStarts(s[1..]);
      if s[0] == ' ' {
        assert SplitSpaces(s)[1..] == rest;
      } else {
        var words := SplitSpaces(s);
        assert words[0] == [s[0]] + rest[0];
        assert words[1..] == rest[1..];
      }
    }
  }

  /** The avatar text: the upper-cased initials of a non-empty name, else "U". */
  function AvatarText(user: Option<User>): (text: string)
    ensures user.None? || user.value.name == "" ==> text == "U"
    ensures user.Some? && user.value.name != "" ==>
      text == ToUpper(WordStarts(user.value.name, true))
  {
    if user.Some? && user.value.name != "" then
      FirstCharsAreWordStarts(user.value.name);
      ToUpper(FirstChars(SplitSpaces(user.value.name)))
    else "U"
  }

  /** A name without spaces shows its upper-cased first character; a name made
      only of spaces is truthy yet has no word starts, so the avatar is empty
      rather than "U". */
  lemma OneWordAndBlankNames(user: User)
    ensures (user.name != [] && forall i :: 0 <= i < |user.name| ==> user.name[i] != ' ') ==>
      AvatarText(Some(user)) == [UpperChar(user.name[0])]
    ensures (user.name != [] && forall i :: 0 <= i < |user.name| ==> user.name[i] == ' ') ==>
      AvatarText(Some(user)) == ""
  {
    var s := user.name;
    if s != [] {
      if forall i :: 0 <= i < |s| ==> s[i] != ' ' {
        NoWordStartsInside(s[1..]);
      } else if forall i :: 0 <= i < |s| ==> s[i] == ' ' {
        OnlySpaces(s, true);
      }
    }
  }

  lemma {:induction false} NoWordStartsInside(s: string)
    requires forall i :: 0 <= i < |s| ==> s[i] != ' '
    ensures WordStarts(s, false) == ""
  {
    if s != [] {
      NoWordStartsInside(s[1..]);
    }
  }

  lemma {:induction false} OnlySpaces(s: string, atStart: bool)
    requires forall i :: 0 <= i < |s| ==> s[i] == ' '
    ensures WordStarts(s, atStart) == ""
  {
    if s != [] {
      OnlySpaces(s[1..], true);
    }
  }

  datatype NavItem = MyChurch | Avatar(text: string) | LogoutButton | Enroll | Login

  /** The items on the right of the bar, left to right. */
  function Items(isLoggedIn: bool, user: Option<User>): (items: seq<NavItem>)
    ensures MyChurch in items <==> isLoggedIn && !(user.Some? && user.value.role == "superuser")
    ensures !isLoggedIn ==> items == [Enroll, Login]
    ensures isLoggedIn ==>
              Avatar(AvatarText(user)) in items && LogoutButton in items && Enroll !in items && Login !in items
  {
    if isLoggedIn then
      (if !(user.Some? && user.value.role == "superuser") then [MyChurch] else [])
      + [Avatar(AvatarText(user)), LogoutButton]
    else [Enroll, Login]
  }
}
