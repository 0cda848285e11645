/** The sessions page: the searched and status-filtered list, deletion and
    status change of a session, and the month grid whose day cells list that
    day's filtered sessions. */
module SessionsPage {
  import opened Common
  import opened Sessions
  import SessionCard

  /** The search: the lower-cased term occurs in the title, the description
      (when there is one) or the mentor's name; and the status filter is
      empty or names the session's status. */
  predicate Shown(s: Session, term: string, statusFilter: string) {
    (Contains(Lower(s.title), Lower(term))
     || (s.description.Some? && Contains(Lower(s.description.value), Lower(term)))
     || Contains(Lower(s.mentor.name), Lower(term)))
    && (statusFilter == "" || StatusName(s.status) == statusFilter)
  }

  /** `filteredSessions`. */
  function Filtered(ss: seq<Session>, term: string, statusFilter: string): (r: seq<Session>)
    ensures |r| <= |ss|
    ensures forall s :: s in r <==> s in ss && Shown(s, term, statusFilter)
  {
    Filter(ss, (s: Session) => Shown(s, term, statusFilter))
  }

  /** With no search term and no status filter every session is listed, in
      order. */
  lemma NoFilterKeepsAll(ss: seq<Session>)
    ensures Filtered(ss, "", "") == ss
  {
    forall s | s in ss
      ensures Shown(s, "", "")
    {
      ContainsEmpty(Lower(s.title));
    }
    FilterKeepsAll(ss, (s: Session) => Shown(s, "", ""));
  }

  /** The filter keeps the list's order. */
  lemma FilteredConcat(a: seq<Session>, b: seq<Session>, term: string, statusFilter: string)
    ensures Filtered(a + b, term, statusFilter) == Filtered(a, term, statusFilter) + Filtered(b, term, statusFilter)
  {
    FilterConcat(a, b, (s: Session) => Shown(s, term, statusFilter));
  }

  /** `sessions.filter(s => s.id !== id)`. */
  function RemoveId(ss: seq<Session>, id: string): (r: seq<Session>)
    ensures forall s :: s in r <==> s in ss && s.id != id
  {
    Filter(ss, (s: Session) => s.id != id)
  }

  /** Removing keeps the other sessions in their order. */
  lemma RemoveIdConcat(a: seq<Session>, b: seq<Session>, id: string)
    ensures RemoveId(a + b, id) == RemoveId(a, id) + RemoveId(b, id)
  {
    FilterConcat(a, b, (s: Session) => s.id != id);
  }

  /** Removing an id no session has changes nothing. */
  lemma RemoveAbsentId(ss: seq<Session>, id: string)
    requires forall s :: s in ss ==> s.id != id
    ensures RemoveId(ss, id) == ss
  {
    FilterKeepsAll(ss, (s: Session) => s.id != id);
  }

  /** The list after a status change: the sessions with that id take the new
      status, nothing else changes. */
  function WithStatus(ss: seq<Session>, id: string, status: SessionStatus): (r: seq<Session>)
    ensures |r| == |ss|
    ensures forall i :: 0 <= i < |ss| && ss[i].id != id ==> r[i] == ss[i]
    ensures forall i :: 0 <= i < |ss| && ss[i].id == id ==> r[i] == ss[i].(status := status)
  {
    if ss == [] then []
    else [if ss[0].id == id then ss[0].(status := status) else ss[0]] + WithStatus(ss[1..], id, status)
  }

  /** Setting the status twice is setting it once (the second wins). */
  lemma WithStatusTwice(ss: seq<Session>, id: string, a: SessionStatus, b: SessionStatus)
    ensures WithStatus(WithStatus(ss, id, a), id, b) == WithStatus(ss, id, b)
  {
    var l := WithStatus(WithStatus(ss, id, a), id, b);
    var rr := WithStatus(ss, id, b);
    assert forall i :: 0 <= i < |ss| ==> l[i] == rr[i];
  }

  /** A calendar cell: a placeholder before the 1st, or a day with its
      sessions. */
  datatype Cell = Blank | DayCell(day: nat, sessions: seq<Session>)

  /** The background of a session chip: green, amber, red, and blue for
      every other status. */
  function ChipColor(s: SessionStatus): (r: string)
    ensures s.OtherStatus? || s == Scheduled ==> r == "#3B82F6"
  {
    if s == Completed then "#10B981"
    else if s == InProgress then "#F59E0B"
    else if s == Cancelled then "#EF4444"
    else "#3B82F6"
  }

  /** Chips distinguish the three finished-or-running statuses from each
      other and from scheduled ones. */
  lemma ChipColorsDistinct(s: SessionStatus, t: SessionStatus)
    requires !s.OtherStatus? && !t.OtherStatus? && s != t
    ensures ChipColor(s) != ChipColor(t)
  {
    assert ChipColor(s)[1] != ChipColor(t)[1];
  }

  /** "Create Session" is offered to the roles that may edit a card. */
  predicate CanCreate(role: Option<Role>) {
    role == Some(Admin) || role == Some(Mentor)
  }

  lemma CreatorsAreEditors(role: Option<Role>)
    ensures CanCreate(role) <==> SessionCard.CanEdit(role)
  {
  }

  /** The month grid of the calendar view for month `month` of `year`:
      `firstDay` placeholders (the weekday of the 1st), then one cell per day
      1..`daysInMonth` listing that day's sessions among `shown`. */
  method CalendarCells(year: int, month: int, firstDay: nat, daysInMonth: nat, shown: seq<Session>)
    returns (cells: seq<Cell>)
    ensures |cells| == firstDay + daysInMonth
    ensures forall i :: 0 <= i < firstDay ==> cells[i] == Blank
    ensures forall i :: firstDay <= i < |cells| ==>
              cells[i] == DayCell(i - firstDay + 1, OnDay(shown, Day(year, month, i - firstDay + 1)))
  {
    cells := [];
    var i := 0;
    while i < firstDay
      invariant 0 <= i <= firstDay
      invariant |cells| == i
      invariant forall j :: 0 <= j < i ==> cells[j] == Blank
    {
      cells := cells + [Blank];
      i := i + 1;
    }
    var day := 1;
    while day <= daysInMonth
      invariant 1 <= day <= daysInMonth + 1
      invariant |cells| == firstDay + day - 1
      invariant forall j :: 0 <= j < firstDay ==> cells[j] == Blank
      invariant forall j :: firstDay <= j < |cells| ==>
                  cells[j] == DayCell(j - firstDay + 1, OnDay(shown, Day(year, month, j - firstDay + 1)))
    {
      cells := cells + [DayCell(day, OnDay(shown, Day(year, month, day)))];
      day := day + 1;
    }
  }

  class Board {
    var sessions: seq<Session>
    var loading: bool
    var searchTerm: string
    var statusFilter: string
    /** The ids DELETE requests were sent for, oldest first. */
    var deletions: seq<string>
    /** The status PUT requests sent, as (id, status), oldest first. */
    var statusUpdates: seq<(string, SessionStatus)>

    constructor()
      ensures sessions == [] && loading && searchTerm == "" && statusFilter == ""
      ensures deletions == [] && statusUpdates == []
    {
      sessions := [];
      loading := true;
      searchTerm := "";
      statusFilter := "";
      deletions := [];
      statusUpdates := [];
    }

    /** `fetchSessions`: the list is replaced by the fetched one, or kept
        when the request fails; loading ends either way. */
    method Fetch(fetched: Option<seq<Session>>)
      modifies this
      ensures sessions == fetched.GetOr(old(sessions)) && !loading
      ensures searchTerm == old(searchTerm) && statusFilter == old(statusFilter)
      ensures deletions == old(deletions) && statusUpdates == old(statusUpdates)
    {
      if fetched.Some? {
        sessions := fetched.value;
      }
      loading := false;
    }

    /** `handleDeleteSession`: nothing without the confirm; otherwise the
        request goes out and, when it succeeds, the sessions with that id
        leave the list. */
    method Delete(id: string, confirmed: bool, succeeded: bool)
      modifies this
      ensures !confirmed ==> sessions == old(sessions) && deletions == old(deletions)
      ensures confirmed ==> deletions == old(deletions) + [id]
      ensures confirmed && succeeded ==> sessions == RemoveId(old(sessions), id)
      ensures confirmed && !succeeded ==> sessions == old(sessions)
      ensures loading == old(loading) && searchTerm == old(searchTerm) && statusFilter == old(statusFilter)
      ensures statusUpdates == old(statusUpdates)
    {
      if !confirmed {
        return;
      }
      deletions := deletions + [id];
      if succeeded {
        sessions := RemoveId(sessions, id);
      }
    }

    /** `handleStatusChange`: the request goes out; on success the matching
        sessions take the new status. */
    method ChangeStatus(id: string, status: SessionStatus, succeeded: bool)
      modifies this
      ensures statusUpdates == old(statusUpdates) + [(id, status)]
      ensures succeeded ==> sessions == WithStatus(old(sessions), id, status)
      ensures !succeeded ==> sessions == old(sessions)
      ensures loading == old(loading) && searchTerm == old(searchTerm) && statusFilter == old(statusFilter)
      ensures deletions == old(deletions)
    {
      statusUpdates := statusUpdates + [(id, status)];
      if succeeded {
        sessions := WithStatus(sessions, id, status);
      }
    }

    /** The month grid the calendar view renders for the current filters. */
    method MonthView(year: int, month: int, firstDay: nat, daysInMonth: nat) returns (cells: seq<Cell>)
      ensures |cells| == firstDay + daysInMonth
      ensures forall i :: 0 <= i < firstDay ==> cells[i] == Blank
      ensures forall i :: firstDay <= i < |cells| ==>
                cells[i].DayCell? && cells[i].day == i - firstDay + 1
                && (forall s :: s in cells[i].sessions <==>
                      s in sessions && Shown(s, searchTerm, statusFilter) && s.day == Day(year, month, cells[i].day))
    {
      cells := CalendarCells(year, month, firstDay, daysInMonth, Filtered(sessions, searchTerm, statusFilter));
    }
  }
}
