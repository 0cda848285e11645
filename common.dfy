/** Values and helpers shared by every part of the mentoring client:
    optional values, server outcomes, the identity record, the application's
    pages, order-preserving filtering, and the few string operations the
    client performs (ASCII lower-casing, substring search, blank test,
    decimal rendering). */
module Common {

  datatype Option<T> = None | Some(value: T) {
    function GetOr(default: T): T {
      match this
      case Some(v) => v
      case None => default
    }
  }

  /** What a server call produced: the payload of a 2xx reply, or the
      `message` field of an error reply when the server sent one. */
  datatype Outcome<T> = Success(payload: T) | Failure(message: Option<string>)

  /** The text of an error thrown as `error.response?.data?.message || fallback`:
      an absent or empty message falls back. */
  function ErrorText(message: Option<string>, fallback: string): (r: string)
    ensures message.Some? && message.value != "" ==> r == message.value
    ensures (message.None? || message.value == "") ==> r == fallback
  {
    if message.Some? && message.value != "" then message.value else fallback
  }

  datatype Role = Admin | Mentor | Mentee | OtherRole(name: string)

  datatype AccountStatus = Active | Inactive | PendingApproval

  /** The identity record the server returns and the client caches. */
  datatype User = User(id: string, name: string, email: string, role: Role,
                       status: AccountStatus, avatar: Option<string>, verified: bool)

  function RoleOf(user: Option<User>): Option<Role> {
    if user.Some? then Some(user.value.role) else None
  }

  /** The thirteen pages of the application, each at a fixed path. */
  datatype Page = AdminPage | UsersPage | AnnouncementsPage
                | MentorPage | MentorMenteesPage
                | MenteePage | MenteeMentorsPage
                | SessionsPage | CalendarPage | ResourcesPage | ChatPage
                | ProfilePage | VideoCallPage

  function PagePath(p: Page): string {
    match p
    case AdminPage => "/admin"
    case UsersPage => "/users"
    case AnnouncementsPage => "/announcements"
    case MentorPage => "/mentor"
    case MentorMenteesPage => "/mentor/mentees"
    case MenteePage => "/mentee"
    case MenteeMentorsPage => "/mentee/mentors"
    case SessionsPage => "/sessions"
    case CalendarPage => "/calendar"
    case ResourcesPage => "/resources"
    case ChatPage => "/chat"
    case ProfilePage => "/profile"
    case VideoCallPage => "/video-call"
  }

  /** The page whose path is exactly `path`, if any. */
  function PageOf(path: string): (r: Option<Page>)
    ensures r.Some? ==> PagePath(r.value) == path
  {
    match path
    case "/admin" => Some(AdminPage)
    case "/users" => Some(UsersPage)
    case "/announcements" => Some(AnnouncementsPage)
    case "/mentor" => Some(MentorPage)
    case "/mentor/mentees" => Some(MentorMenteesPage)
    case "/mentee" => Some(MenteePage)
    case "/mentee/mentors" => Some(MenteeMentorsPage)
    case "/sessions" => Some(SessionsPage)
    case "/calendar" => Some(CalendarPage)
    case "/resources" => Some(ResourcesPage)
    case "/chat" => Some(ChatPage)
    case "/profile" => Some(ProfilePage)
    case "/video-call" => Some(VideoCallPage)
    case _ => None
  }

  lemma PageOfPath(p: Page)
    ensures PageOf(PagePath(p)) == Some(p)
  {
  }

  /** Past its leading '/', a page path contains a '/' only in the two
      nested pages, at index 7. */
  lemma SlashesOfPage(p: Page, k: int)
    requires 1 <= k < |PagePath(p)|
    ensures PagePath(p)[0] == '/'
    ensures PagePath(p)[k] == '/' ==>
              k == 7 && (p == MentorMenteesPage || p == MenteeMentorsPage)
  {
  }

  // ---------------------------------------------------------------------
  // Order-preserving filter (JavaScript's Array.prototype.filter)

  function Filter<T(!new)>(s: seq<T>, keep: T -> bool): (r: seq<T>)
    ensures |r| <= |s|
    ensures forall x :: x in r <==> x in s && keep(x)
  {
    if s == [] then [] else (if keep(s[0]) then [s[0]] else []) + Filter(s[1..], keep)
  }

  /** Filtering distributes over concatenation: together with the one-element
      case this fixes the order of the result to that of the input. */
  lemma {:induction false} FilterConcat<T(!new)>(a: seq<T>, b: seq<T>, keep: T -> bool)
    ensures Filter(a + b, keep) == Filter(a, keep) + Filter(b, keep)
  {
    if a == [] {
      assert a + b == b;
    } else {
      assert (a + b)[1..] == a[1..] + b;
      FilterConcat(a[1..], b, keep);
    }
  }

  lemma {:induction false} FilterKeepsAll<T(!new)>(s: seq<T>, keep: T -> bool)
    requires forall x :: x in s ==> keep(x)
    ensures Filter(s, keep) == s
  {
    if s != [] {
      FilterKeepsAll(s[1..], keep);
    }
  }

  lemma FilterKeepsAllWhen<T(!new)>(s: seq<T>, keep: T -> bool)
    ensures (forall x :: x in s ==> keep(x)) ==> Filter(s, keep) == s
  {
    if forall x :: x in s ==> keep(x) {
      FilterKeepsAll(s, keep);
    }
  }

  /** `s.filter(x => x !== v)`. */
  function Without<T(==,!new)>(s: seq<T>, v: T): (r: seq<T>)
    ensures v !in r
    ensures forall x :: x != v ==> (x in r <==> x in s)
    ensures v !in s ==> r == s
    ensures v in s ==> |r| < |s|
  {
    if s == [] then [] else (if s[0] == v then [] else [s[0]]) + Without(s[1..], v)
  }

  lemma {:induction false} WithoutConcat<T(!new)>(a: seq<T>, b: seq<T>, v: T)
    ensures Without(a + b, v) == Without(a, v) + Without(b, v)
  {
    if a == [] {
      assert a + b == b;
    } else {
      assert (a + b)[1..] == a[1..] + b;
      WithoutConcat(a[1..], b, v);
    }
  }

  predicate NoDuplicates<T(==)>(s: seq<T>) {
    forall i, j :: 0 <= i < j < |s| ==> s[i] != s[j]
  }

  lemma {:induction false} WithoutNoDuplicates<T(!new)>(s: seq<T>, v: T)
    requires NoDuplicates(s)
    ensures NoDuplicates(Without(s, v))
  {
    if s != [] {
      WithoutNoDuplicates(s[1..], v);
      assert s[0] !in s[1..];
    }
  }

  lemma {:induction false} FilterNoDuplicates<T(!new)>(s: seq<T>, keep: T -> bool)
    requires NoDuplicates(s)
    ensures NoDuplicates(Filter(s, keep))
  {
    if s != [] {
      FilterNoDuplicates(s[1..], keep);
      assert s[0] !in s[1..];
    }
  }

  // ---------------------------------------------------------------------
  // Strings

  /** ASCII lower-casing, standing in for `toLowerCase`. */
  function LowerChar(c: char): char {
    if 'A' <= c <= 'Z' then (c as int + 32) as char else c
  }

  function Lower(s: string): (r: string)
    ensures |r| == |s|
    ensures forall i :: 0 <= i < |s| ==> r[i] == LowerChar(s[i])
  {
    if s == [] then [] else [LowerChar(s[0])] + Lower(s[1..])
  }

  /** `s.includes(t)`. */
  predicate Contains(s: string, t: string) {
    t <= s || (s != [] && Contains(s[1..], t))
  }

  lemma ContainsEmpty(s: string)
    ensures Contains(s, "")
  {
  }

  /** `t` sits in `s` starting at index `i`. */
  predicate OccursAt(s: string, t: string, i: int) {
    0 <= i && i + |t| <= |s| && s[i..i + |t|] == t
  }

  lemma OccursAtTail(s: string, t: string, i: int)
    requires s != [] && 0 <= i
    ensures OccursAt(s[1..], t, i) <==> OccursAt(s, t, i + 1)
  {
    if 0 <= i && i + |t| <= |s[1..]| {
      assert s[1..][i..i + |t|] == s[i + 1..i + 1 + |t|];
    }
  }

  /** `s.includes(t)` holds exactly when `t` occurs in `s` at some index. */
  lemma {:induction false} ContainsAt(s: string, t: string)
    ensures Contains(s, t) <==> exists i :: OccursAt(s, t, i)
  {
    if t <= s {
      assert s[0..|t|] == t;
      assert OccursAt(s, t, 0);
    } else if s == [] {
    } else {
      ContainsAt(s[1..], t);
      if exists i :: OccursAt(s, t, i) {
        var i :| OccursAt(s, t, i);
        assert i != 0;
        OccursAtTail(s, t, i - 1);
      }
      if exists i :: OccursAt(s[1..], t, i) {
        var i :| OccursAt(s[1..], t, i);
        OccursAtTail(s, t, i);
      }
    }
  }

  /** The characters JavaScript's `String.prototype.trim` removes
      (WhiteSpace and LineTerminator code points). */
  predicate IsSpace(c: char) {
    var n := c as int;
    n == 0x20 || (0x09 <= n <= 0x0D) || n == 0xA0 || n == 0x1680
    || (0x2000 <= n <= 0x200A) || n == 0x2028 || n == 0x2029
    || n == 0x202F || n == 0x205F || n == 0x3000 || n == 0xFEFF
  }

  /** `!s.trim()`: the string is empty once surrounding white space is removed. */
  predicate IsBlank(s: string) {
    forall i :: 0 <= i < |s| ==> IsSpace(s[i])
  }

  /** Case-insensitive search of `term` in a name or an e-mail address, as the
      mentee pickers and the mentees page do it. */
  predicate NameOrEmailMatches(name: string, email: string, term: string) {
    Contains(Lower(name), Lower(term)) || Contains(Lower(email), Lower(term))
  }

  function DigitChar(d: nat): char
    requires d < 10
  {
    ['0', '1', '2', '3', '4', '5', '6', '7', '8', '9'][d]
  }

  function DigitValue(c: char): nat {
    if '0' <= c <= '9' then c as int - '0' as int else 0
  }

  /** Decimal rendering of a natural number, as a template literal shows it. */
  function NatToString(n: nat): (r: string)
    decreases n
    ensures |r| >= 1
    ensures forall i :: 0 <= i < |r| ==> '0' <= r[i] <= '9'
  {
    if n < 10 then [DigitChar(n)] else NatToString(n / 10) + [DigitChar(n % 10)]
  }

  function IntToString(i: int): string {
    if i < 0 then "-" + NatToString(-i) else NatToString(i)
  }

  function ParseDecimal(s: string): nat
    decreases |s|
  {
    if s == [] then 0 else 10 * ParseDecimal(s[..|s| - 1]) + DigitValue(s[|s| - 1])
  }

  /** Reading back a rendered number gives the number. */
  lemma {:induction false} NatToStringRoundTrip(n: nat)
    ensures ParseDecimal(NatToString(n)) == n
  {
    var s := NatToString(n);
    if n < 10 {
      assert s[..|s| - 1] == [];
    } else {
      var init := NatToString(n / 10);
      assert s[..|s| - 1] == init;
      NatToStringRoundTrip(n / 10);
    }
  }

  /** `parts.join(sep)`. */
  function Join(parts: seq<string>, sep: string): string {
    if parts == [] then ""
    else if |parts| == 1 then parts[0]
    else parts[0] + sep + Join(parts[1..], sep)
  }
}
