/** The session details modal: the duration shown as hours and minutes, the
    end time, the status icon and colour, and the "Add to Calendar" action. */
module SessionDetails {
  import opened Common
  import opened Sessions

  predicate Renders(isOpen: bool, session: Option<Session>) {
    isOpen && session.Some?
  }

  /** JavaScript's `a % 60`, whose result takes the sign of the dividend. */
  function JsRem60(a: int): (r: int)
    ensures a >= 0 ==> 0 <= r < 60
    ensures a < 0 ==> -60 < r <= 0
    ensures (a - r) % 60 == 0
  {
    if a >= 0 then a % 60 else -((-a) % 60)
  }

  /** `Math.floor(d / 60)` and `d % 60`, the "Xh Ym" line. */
  function HoursMinutes(d: int): (r: (int, int))
    ensures d >= 0 ==> 60 * r.0 + r.1 == d && 0 <= r.1 < 60 && r.0 >= 0
  {
    (d / 60, JsRem60(d))
  }

  /** For a negative duration the two parts do not add back up: the hours
      are floored while the minutes keep the sign. */
  lemma NegativeDurationParts()
    ensures HoursMinutes(-5) == (-1, -5)
    ensures 60 * HoursMinutes(-5).0 + HoursMinutes(-5).1 != -5
  {
  }

  /** The end-time instant: the start plus `d` minutes of milliseconds. */
  function EndTime(start: int, d: int): (r: int)
    ensures d > 0 ==> r > start
    ensures d >= 0 ==> r == start + (60 * HoursMinutes(d).0 + HoursMinutes(d).1) * 60000
  {
    start + d * 60000
  }

  datatype Icon = YellowCircle | CheckMark | CrossMark | CalendarMark

  /** `getStatusIcon`: its own mark for in progress, completed and cancelled;
      the calendar mark for scheduled and anything else. */
  function StatusIcon(s: SessionStatus): (r: Icon)
    ensures r == YellowCircle <==> s == InProgress
    ensures r == CheckMark <==> s == Completed
    ensures r == CrossMark <==> s == Cancelled
    ensures r == CalendarMark <==> s == Scheduled || s.OtherStatus?
  {
    match s
    case InProgress => YellowCircle
    case Completed => CheckMark
    case Cancelled => CrossMark
    case _ => CalendarMark
  }

  function StatusColor(s: SessionStatus): string {
    BorderedClass(StatusTone(s))
  }

  /** The details modal colours statuses exactly as the edit modal does:
      four distinct colours and gray for anything else. */
  lemma StatusColors(s: SessionStatus, t: SessionStatus)
    ensures s.OtherStatus? ==> StatusColor(s) == "bg-gray-100 text-gray-800 border-gray-200"
    ensures !s.OtherStatus? && s != t ==> StatusColor(s) != StatusColor(t)
  {
    if !s.OtherStatus? && s != t {
      ClassesDistinct(StatusTone(s), StatusTone(t));
    }
  }

  /** "Add to Calendar" is offered only for a scheduled session. */
  predicate OffersAddToCalendar(s: Session) {
    s.status == Scheduled
  }
}
