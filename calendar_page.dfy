/** The training calendar: the month's day list with its leading gaps, the
    sessions of a day, and what one day cell shows. */
module CalendarPage {
  import opened Common
  import opened Sessions
  import SessionCard

  /** The shape `getDaysInMonth` builds for month `month` of `year`: `lead`
      gaps (the weekday of the 1st), then the days 1..`n` in order. */
  predicate MonthDays(days: seq<Option<Day>>, year: int, month: int, lead: nat, n: nat) {
    |days| == lead + n
    && (forall i :: 0 <= i < |days| ==> (days[i].None? <==> i < lead))
    && (forall i :: lead <= i < |days| ==> days[i] == Some(Day(year, month, i - lead + 1)))
  }

  /** `getDaysInMonth`, with `lead` the weekday of the 1st and `n` the
      number of days in the month, both calendar facts taken as given. */
  method DaysInMonth(year: int, month: int, lead: nat, n: nat) returns (days: seq<Option<Day>>)
    ensures MonthDays(days, year, month, lead, n)
  {
    days := [];
    var i := 0;
    while i < lead
      invariant 0 <= i <= lead
      invariant |days| == i
      invariant forall j :: 0 <= j < i ==> days[j].None?
    {
      days := days + [None];
      i := i + 1;
    }
    var day := 1;
    while day <= n
      invariant 1 <= day <= n + 1
      invariant |days| == lead + day - 1
      invariant forall j :: 0 <= j < lead ==> days[j].None?
      invariant forall j :: lead <= j < |days| ==> days[j] == Some(Day(year, month, j - lead + 1))
    {
      days := days + [Some(Day(year, month, day))];
      day := day + 1;
    }
  }

  /** In such a list the gaps are exactly the prefix, and the day numbers
      climb strictly from 1 to `n`, all in the given month. */
  lemma MonthDaysOrdered(days: seq<Option<Day>>, year: int, month: int, lead: nat, n: nat, i: int, j: int)
    requires MonthDays(days, year, month, lead, n)
    requires 0 <= i < j < |days| && days[i].Some?
    ensures days[j].Some? && days[i].value.date < days[j].value.date
    ensures days[i].value.year == year && days[i].value.month == month
    ensures 1 <= days[i].value.date <= n
  {
    assert days[j] == Some(Day(year, month, j - lead + 1));
  }

  lemma MonthDaysEnds(days: seq<Option<Day>>, year: int, month: int, lead: nat, n: nat)
    requires MonthDays(days, year, month, lead, n) && n > 0
    ensures days[lead] == Some(Day(year, month, 1))
    ensures days[|days| - 1] == Some(Day(year, month, n))
  {
  }

  /** What a day cell shows: at most two session chips, and how many more
      sessions the "+k more" line counts. */
  datatype CellView = CellView(chips: seq<Session>, more: nat)

  function DayCell(ss: seq<Session>, d: Day): (v: CellView)
    ensures |v.chips| == (if |OnDay(ss, d)| < 2 then |OnDay(ss, d)| else 2)
    ensures v.chips == OnDay(ss, d)[..|v.chips|]
    ensures |v.chips| + v.more == |OnDay(ss, d)|
    ensures v.more > 0 <==> |OnDay(ss, d)| > 2
  {
    var on := OnDay(ss, d);
    if |on| <= 2 then CellView(on, 0) else CellView(on[..2], |on| - 2)
  }

  /** `getStatusColor` of the calendar. */
  function StatusColor(s: SessionStatus): string {
    BadgeClass(StatusTone(s))
  }

  /** The four statuses have four distinct colours, every other one gray. */
  lemma StatusColors(s: SessionStatus, t: SessionStatus)
    ensures s.OtherStatus? ==> StatusColor(s) == "bg-gray-100 text-gray-800"
    ensures !s.OtherStatus? && s != t ==> StatusColor(s) != StatusColor(t)
  {
    if !s.OtherStatus? && s != t {
      ClassesDistinct(StatusTone(s), StatusTone(t));
    }
  }

  /** "Schedule Session" is offered to the roles that may edit a card. */
  predicate CanSchedule(role: Option<Role>) {
    role == Some(Admin) || role == Some(Mentor)
  }

  lemma SchedulersAreEditors(role: Option<Role>)
    ensures CanSchedule(role) <==> SessionCard.CanEdit(role)
  {
  }
}
