/** The mentor's mentee list: the progress colour bands, the search, the
    summary figures, and the links each mentee card opens. */
module MenteesPage {
  import opened Common
  import AppRoutes

  /** A mentee card's data; `lastActive` is an instant in milliseconds. */
  datatype MenteeCard = MenteeCard(id: string, name: string, email: string,
                                   lastActive: Option<int>, progress: int, totalSessions: int)

  datatype Band = RedBand | OrangeBand | YellowBand | GreenBand

  /** The rank of a band, from worst to best. */
  function Rank(b: Band): nat {
    match b
    case RedBand => 0
    case OrangeBand => 1
    case YellowBand => 2
    case GreenBand => 3
  }

  /** `getProgressColor`: 80 and up green, 60 and up yellow, 40 and up
      orange, below that red. */
  function ProgressColor(progress: int): (b: Band)
    ensures b == GreenBand <==> progress >= 80
    ensures b == YellowBand <==> 60 <= progress < 80
    ensures b == OrangeBand <==> 40 <= progress < 60
    ensures b == RedBand <==> progress < 40
  {
    if progress >= 80 then GreenBand
    else if progress >= 60 then YellowBand
    else if progress >= 40 then OrangeBand
    else RedBand
  }

  /** More progress never gives a worse colour. */
  lemma ProgressColorMonotone(p: int, q: int)
    requires p <= q
    ensures Rank(ProgressColor(p)) <= Rank(ProgressColor(q))
  {
  }

  function BandClass(b: Band): string {
    match b
    case GreenBand => "bg-green-500"
    case YellowBand => "bg-yellow-500"
    case OrangeBand => "bg-orange-500"
    case RedBand => "bg-red-500"
  }

  /** `filteredMentees`. */
  function Matching(ms: seq<MenteeCard>, term: string): (r: seq<MenteeCard>)
    ensures |r| <= |ms|
    ensures forall m :: m in r <==> m in ms && NameOrEmailMatches(m.name, m.email, term)
  {
    Filter(ms, (m: MenteeCard) => NameOrEmailMatches(m.name, m.email, term))
  }

  lemma MatchingConcat(a: seq<MenteeCard>, b: seq<MenteeCard>, term: string)
    ensures Matching(a + b, term) == Matching(a, term) + Matching(b, term)
  {
    FilterConcat(a, b, (m: MenteeCard) => NameOrEmailMatches(m.name, m.email, term));
  }

  /** "Total Sessions": the sum of every mentee's sessions. */
  function TotalSessions(ms: seq<MenteeCard>): int {
    if ms == [] then 0 else ms[0].totalSessions + TotalSessions(ms[1..])
  }

  lemma {:induction false} TotalSessionsConcat(a: seq<MenteeCard>, b: seq<MenteeCard>)
    ensures TotalSessions(a + b) == TotalSessions(a) + TotalSessions(b)
  {
    if a == [] {
      assert a + b == b;
    } else {
      assert (a + b)[1..] == a[1..] + b;
      TotalSessionsConcat(a[1..], b);
    }
  }

  /** With every mentee having at least one session, the total is at least
      the number of mentees. */
  lemma {:induction false} TotalSessionsAtLeastCount(ms: seq<MenteeCard>)
    requires forall i :: 0 <= i < |ms| ==> ms[i].totalSessions >= 1
    ensures TotalSessions(ms) >= |ms|
  {
    if ms != [] {
      TotalSessionsAtLeastCount(ms[1..]);
    }
  }

  const WeekMs := 7 * 24 * 60 * 60 * 1000

  /** Active within the last week before `now`; a missing `lastActive`
      counts as the instant 0. */
  predicate ActiveSince(m: MenteeCard, now: int) {
    m.lastActive.GetOr(0) > now - WeekMs
  }

  /** "Active This Week", never more than the number of mentees. */
  function ActiveThisWeek(ms: seq<MenteeCard>, now: int): (n: nat)
    ensures n <= |ms|
  {
    |Filter(ms, (m: MenteeCard) => ActiveSince(m, now))|
  }

  function ProgressSum(ms: seq<MenteeCard>): int {
    if ms == [] then 0 else ms[0].progress + ProgressSum(ms[1..])
  }

  lemma {:induction false} ProgressSumBounds(ms: seq<MenteeCard>)
    requires forall i :: 0 <= i < |ms| ==> 0 <= ms[i].progress <= 100
    ensures 0 <= ProgressSum(ms) <= 100 * |ms|
  {
    if ms != [] {
      ProgressSumBounds(ms[1..]);
    }
  }

  /** "Avg Progress": the mean rounded half up (exact arithmetic in place of
      floating point); with no mentees the mean is 0/0, which the `|| 0`
      fallback shows as 0. */
  function AverageProgress(ms: seq<MenteeCard>): (r: int)
    ensures ms == [] ==> r == 0
  {
    if ms == [] then 0 else (2 * ProgressSum(ms) + |ms|) / (2 * |ms|)
  }

  /** The shown average stays within the progress scale. */
  lemma AverageWithinScale(ms: seq<MenteeCard>)
    requires forall i :: 0 <= i < |ms| ==> 0 <= ms[i].progress <= 100
    ensures 0 <= AverageProgress(ms) <= 100
  {
    if ms != [] {
      ProgressSumBounds(ms);
      var n := |ms|;
      var s := ProgressSum(ms);
      assert 2 * s + n <= 2 * n * 100 + n;
      assert 2 * s + n < 2 * n * 101;
      DivBelow(2 * s + n, 2 * n, 101);
    }
  }

  lemma DivBelow(a: int, d: int, k: int)
    requires 0 <= a && 0 < d && a < d * k
    ensures 0 <= a / d < k
  {
  }

  function ChatUrl(m: MenteeCard): string {
    "/chat?mentee=" + m.id
  }

  function VideoCallUrl(m: MenteeCard): string {
    "/video-call?mentee=" + m.id
  }

  function ProgressUrl(m: MenteeCard): string {
    "/mentee-progress/" + m.id
  }

  /** The progress link is no declared route: the router's catch-all sends
      it to the root. */
  lemma ProgressLinkFallsThrough(m: MenteeCard, loading: bool, user: Option<User>)
    ensures AppRoutes.Route(loading, user, ProgressUrl(m)) == AppRoutes.Redirect("/")
  {
    var p := ProgressUrl(m);
    assert p[..8] == "/mentee-";
    assert PageOf(p).None?;
  }
}
