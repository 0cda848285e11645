/** The mentee dashboard: the upcoming-session list and its "View all" link,
    the stat cards' fallbacks, and the chart series. */
module MenteeDashboard {
  import opened Common
  import opened Sessions

  /** A session still to come: it starts after `now` and is scheduled or in
      progress. */
  predicate IsUpcoming(s: Session, now: int) {
    s.start > now && (s.status == Scheduled || s.status == InProgress)
  }

  /** The upcoming sessions, in the order the server listed them. */
  function Upcoming(ss: seq<Session>, now: int): (r: seq<Session>)
    ensures |r| <= |ss|
    ensures forall s :: s in r <==> s in ss && IsUpcoming(s, now)
  {
    Filter(ss, (s: Session) => IsUpcoming(s, now))
  }

  /** Completed and cancelled sessions are never upcoming, whatever their
      date. */
  lemma FinishedNeverUpcoming(ss: seq<Session>, now: int, s: Session)
    requires s.status == Completed || s.status == Cancelled
    ensures s !in Upcoming(ss, now)
  {
  }

  lemma UpcomingConcat(a: seq<Session>, b: seq<Session>, now: int)
    ensures Upcoming(a + b, now) == Upcoming(a, now) + Upcoming(b, now)
  {
    FilterConcat(a, b, (s: Session) => IsUpcoming(s, now));
  }

  /** `upcomingSessions.slice(0, 3)`: the first three at most. */
  function Listed(up: seq<Session>): (r: seq<Session>)
    ensures |r| == (if |up| < 3 then |up| else 3)
    ensures r == up[..|r|]
  {
    if |up| <= 3 then up else up[..3]
  }

  /** What the panel shows: the empty-state text, or the list, with the
      "View all n upcoming sessions" link when some are left out. */
  datatype Panel = EmptyState | SessionList(items: seq<Session>, viewAll: Option<nat>)

  function UpcomingPanel(up: seq<Session>): (p: Panel)
    ensures p.EmptyState? <==> up == []
    ensures p.SessionList? ==> p.items == Listed(up)
    ensures p.SessionList? ==> (p.viewAll.Some? <==> |up| > 3)
    ensures p.SessionList? && p.viewAll.Some? ==> p.viewAll.value == |up|
  {
    if up == [] then EmptyState
    else SessionList(Listed(up), if |up| > 3 then Some(|up|) else None)
  }

  /** Whenever the link is shown the list leaves some session out. */
  lemma ViewAllOnlyWhenTruncated(up: seq<Session>)
    requires UpcomingPanel(up).SessionList? && UpcomingPanel(up).viewAll.Some?
    ensures |UpcomingPanel(up).items| < |up|
    ensures forall s :: s in UpcomingPanel(up).items ==> s in up
  {
  }

  /** An upcoming session's badge: blue when scheduled, yellow otherwise,
      even though the list holds only scheduled and in-progress ones. */
  function BadgeTone(s: Session): Tone {
    if s.status == Scheduled then Blue else Yellow
  }

  lemma BadgeToneMatchesStatus(s: Session, now: int)
    requires IsUpcoming(s, now)
    ensures BadgeTone(s) == StatusTone(s.status)
  {
  }

  datatype SalesRecord = SalesRecord(month: int, year: int, revenue: int)

  datatype ChartPoint = ChartPoint(caption: string, revenue: int)

  /** `chartData`: one point per record, in order, captioned "month/year";
      none without data. */
  function ChartData(records: Option<seq<SalesRecord>>): (r: seq<ChartPoint>)
    ensures records.None? ==> r == []
    ensures records.Some? ==> |r| == |records.value|
    ensures records.Some? ==> forall i :: 0 <= i < |r| ==>
              r[i] == ChartPoint(IntToString(records.value[i].month) + "/" + IntToString(records.value[i].year),
                                 records.value[i].revenue)
  {
    if records.None? then [] else Points(records.value)
  }

  function Points(rs: seq<SalesRecord>): (r: seq<ChartPoint>)
    ensures |r| == |rs|
    ensures forall i :: 0 <= i < |r| ==>
              r[i] == ChartPoint(IntToString(rs[i].month) + "/" + IntToString(rs[i].year), rs[i].revenue)
  {
    if rs == [] then []
    else [ChartPoint(IntToString(rs[0].month) + "/" + IntToString(rs[0].year), rs[0].revenue)] + Points(rs[1..])
  }

  /** The dashboard figures; any of them may be missing from the reply. */
  datatype MenteeStats = MenteeStats(totalRevenue: Option<int>, averageMonthlyRevenue: Option<int>,
                                     attendedSessions: Option<int>, upcomingSessions: Option<int>,
                                     salesData: Option<seq<SalesRecord>>)

  /** The four stat card values, each the figure or 0 when it is missing
      (or the whole reply is). */
  function CardValues(stats: Option<MenteeStats>): (r: seq<int>)
    ensures |r| == 4
    ensures stats.None? ==> r == [0, 0, 0, 0]
    ensures stats.Some? ==> r == [stats.value.totalRevenue.GetOr(0), stats.value.averageMonthlyRevenue.GetOr(0),
                                  stats.value.attendedSessions.GetOr(0), stats.value.upcomingSessions.GetOr(0)]
  {
    if stats.None? then [0, 0, 0, 0]
    else [stats.value.totalRevenue.GetOr(0), stats.value.averageMonthlyRevenue.GetOr(0),
          stats.value.attendedSessions.GetOr(0), stats.value.upcomingSessions.GetOr(0)]
  }
}
