/** The training-session record shared by the session pages and modals, its
    status, the status label, and the colour tone each status is shown in. */
module Sessions {
  import opened Common

  /** The four statuses the server uses; any other text the client may hold
      (the status change passes its argument through unchecked) is kept as
      `OtherStatus`. */
  datatype SessionStatus = Scheduled | InProgress | Completed | Cancelled | OtherStatus(name: string)

  function StatusName(s: SessionStatus): string {
    match s
    case Scheduled => "SCHEDULED"
    case InProgress => "IN_PROGRESS"
    case Completed => "COMPLETED"
    case Cancelled => "CANCELLED"
    case OtherStatus(n) => n
  }

  /** A person named on a session (its mentor or one of its mentees). */
  datatype Participant = Participant(id: string, name: string)

  /** A local calendar day, what `toDateString` distinguishes. */
  datatype Day = Day(year: int, month: int, date: int)

  /** A session as the server returns it. `start` is the instant of `date` in
      milliseconds and `day` the local calendar day it falls on; both are
      facts of the browser's clock and time zone, taken as given. */
  datatype Session = Session(id: string, title: string, description: Option<string>,
                             start: int, day: Day, duration: int, status: SessionStatus,
                             mentor: Participant, mentees: seq<Participant>)

  /** The past-date check of both session modals: `new Date(date) <= now`, where `when` is the instant the
      date text denotes, or `None` for text that denotes no date (then the
      comparison is false and the check passes). */
  predicate NotInFuture(when: Option<int>, now: int) {
    when.Some? && when.value <= now
  }

  /** The ids of the people listed, in order. */
  function ParticipantIds(ps: seq<Participant>): (r: seq<string>)
    ensures |r| == |ps|
    ensures forall i :: 0 <= i < |ps| ==> r[i] == ps[i].id
  {
    if ps == [] then [] else [ps[0].id] + ParticipantIds(ps[1..])
  }

  /** `getSessionsForDate`: the sessions falling on calendar day `d`, in
      their order. */
  function OnDay(ss: seq<Session>, d: Day): (r: seq<Session>)
    ensures |r| <= |ss|
    ensures forall s :: s in r <==> s in ss && s.day == d
  {
    Filter(ss, (s: Session) => s.day == d)
  }

  /** The sessions of a day are taken in order: a list split in two gives
      the day's sessions of the first part, then those of the second. */
  lemma OnDayConcat(a: seq<Session>, b: seq<Session>, d: Day)
    ensures OnDay(a + b, d) == OnDay(a, d) + OnDay(b, d)
  {
    FilterConcat(a, b, (s: Session) => s.day == d);
  }

  /** `status.replace('_', ' ')`: only the first underscore becomes a space. */
  function ReplaceFirstUnderscore(s: string): (r: string)
    ensures |r| == |s|
  {
    if s == [] then []
    else if s[0] == '_' then [' '] + s[1..]
    else [s[0]] + ReplaceFirstUnderscore(s[1..])
  }

  /** Every character but the first underscore is kept, and that underscore
      becomes a space. */
  lemma {:induction false} FirstUnderscoreReplaced(s: string)
    ensures forall i :: 0 <= i < |s| && s[i] != '_' ==> ReplaceFirstUnderscore(s)[i] == s[i]
    ensures forall i :: 0 <= i < |s| && s[i] == '_' ==>
              (ReplaceFirstUnderscore(s)[i] == ' ' <==> forall j :: 0 <= j < i ==> s[j] != '_')
  {
    if s != [] && s[0] != '_' {
      var r := ReplaceFirstUnderscore(s);
      var t := s[1..];
      FirstUnderscoreReplaced(t);
      forall i | 1 <= i < |s|
        ensures r[i] == ReplaceFirstUnderscore(t)[i - 1] && s[i] == t[i - 1]
        ensures (forall j :: 0 <= j < i ==> s[j] != '_') <==> (forall j :: 0 <= j < i - 1 ==> t[j] != '_')
      {
        if forall j :: 0 <= j < i - 1 ==> t[j] != '_' {
          forall j | 0 <= j < i ensures s[j] != '_' {
            if j > 0 { assert s[j] == t[j - 1]; }
          }
        }
        if forall j :: 0 <= j < i ==> s[j] != '_' {
          forall j | 0 <= j < i - 1 ensures t[j] != '_' {
            assert t[j] == s[j + 1];
          }
        }
      }
    }
  }

  /** The label a status badge shows. */
  function StatusLabel(s: SessionStatus): string {
    ReplaceFirstUnderscore(StatusName(s))
  }

  lemma InProgressLabel()
    ensures StatusLabel(InProgress) == "IN PROGRESS"
  {
    FirstUnderscoreOnly("IN", "PROGRESS");
    assert "IN" + "_" + "PROGRESS" == "IN_PROGRESS";
    assert "IN" + " " + "PROGRESS" == "IN PROGRESS";
  }

  /** Only the first underscore becomes a space; the text after it, later
      underscores included, is kept as it is ("NO_SHOW_UP" is shown as
      "NO SHOW_UP"). */
  lemma {:induction false} FirstUnderscoreOnly(a: string, b: string)
    requires '_' !in a
    ensures ReplaceFirstUnderscore(a + "_" + b) == a + " " + b
  {
    var s := a + "_" + b;
    if a == [] {
      assert s == "_" + b && s[0] == '_';
      assert s[1..] == b;
    } else {
      assert s[0] == a[0] && a[0] in a;
      assert s[1..] == a[1..] + "_" + b;
      FirstUnderscoreOnly(a[1..], b);
      assert a + " " + b == [a[0]] + (a[1..] + " " + b);
    }
  }

  /** The colour family every `getStatusColor` in the session views picks. */
  datatype Tone = Blue | Yellow | Green | Red | Gray

  function StatusTone(s: SessionStatus): (t: Tone)
    ensures t == Gray <==> s.OtherStatus?
    ensures s == Scheduled <==> t == Blue
    ensures s == InProgress <==> t == Yellow
    ensures s == Completed <==> t == Green
    ensures s == Cancelled <==> t == Red
  {
    match s
    case Scheduled => Blue
    case InProgress => Yellow
    case Completed => Green
    case Cancelled => Red
    case OtherStatus(_) => Gray
  }

  /** The badge classes of the card and the calendar page. */
  function BadgeClass(t: Tone): string {
    match t
    case Blue => "bg-blue-100 text-blue-800"
    case Yellow => "bg-yellow-100 text-yellow-800"
    case Green => "bg-green-100 text-green-800"
    case Red => "bg-red-100 text-red-800"
    case Gray => "bg-gray-100 text-gray-800"
  }

  /** The bordered badge classes of the edit and details modals. */
  function BorderedClass(t: Tone): string {
    BadgeClass(t) + " border-" + ToneName(t) + "-200"
  }

  function ToneName(t: Tone): string {
    match t
    case Blue => "blue"
    case Yellow => "yellow"
    case Green => "green"
    case Red => "red"
    case Gray => "gray"
  }

  /** Distinct tones get distinct classes, in both forms. */
  lemma ClassesDistinct(t: Tone, u: Tone)
    requires t != u
    ensures BadgeClass(t) != BadgeClass(u)
    ensures BorderedClass(t) != BorderedClass(u)
  {
    BadgeKey(t);
    BadgeKey(u);
    BorderedExtendsBadge(t);
    BorderedExtendsBadge(u);
    assert BorderedClass(t)[5] == BorderedClass(t)[..|BadgeClass(t)|][5];
    assert BorderedClass(u)[5] == BorderedClass(u)[..|BadgeClass(u)|][5];
  }

  /** The sixth character of a badge class tells the tones apart. */
  function KeyChar(t: Tone): char {
    match t
    case Blue => 'u'
    case Yellow => 'l'
    case Green => 'e'
    case Red => 'd'
    case Gray => 'a'
  }

  lemma BadgeKey(t: Tone)
    ensures |BadgeClass(t)| > 5 && BadgeClass(t)[5] == KeyChar(t)
  {
  }

  /** A bordered class starts with the plain badge class. */
  lemma BorderedExtendsBadge(t: Tone)
    ensures BorderedClass(t)[..|BadgeClass(t)|] == BadgeClass(t)
  {
    var b := BadgeClass(t);
    assert BorderedClass(t) == b + (" border-" + ToneName(t) + "-200");
  }
}
