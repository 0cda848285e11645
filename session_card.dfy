/** The session card: who may edit and who may view, the actions its menu
    offers, the status transitions it offers, and the mentee summary. */
module SessionCard {
  import opened Common
  import opened Sessions

  /** `canEdit`: administrators and mentors. */
  predicate CanEdit(role: Option<Role>) {
    role == Some(Admin) || role == Some(Mentor)
  }

  /** `canView`: everyone who may not edit (mentees, and a missing user). */
  predicate CanView(role: Option<Role>) {
    !CanEdit(role)
  }

  lemma ExactlyOneOfEditView(role: Option<Role>)
    ensures CanEdit(role) != CanView(role)
    ensures CanView(role) <==> role.None? || role.value == Mentee || role.value.OtherRole?
  {
  }

  datatype MenuAction = ViewDetails | EditDetails | Delete

  /** The entries of the card's "more actions" menu, in display order, when
      the viewer's role is `role` and `hasOnView` says whether a view
      handler was supplied. */
  function MenuActions(role: Option<Role>, hasOnView: bool): (r: seq<MenuAction>)
    ensures ViewDetails in r <==> CanView(role) && hasOnView
    ensures EditDetails in r <==> CanEdit(role)
    ensures Delete in r <==> CanEdit(role)
    ensures !(ViewDetails in r && EditDetails in r)
  {
    (if CanView(role) && hasOnView then [ViewDetails] else [])
    + (if CanEdit(role) then [EditDetails, Delete] else [])
  }

  /** A status button: its label and the status it asks for. */
  datatype Transition = Transition(caption: string, target: SessionStatus)

  /** The status buttons shown for a session in `status`. */
  function Transitions(role: Option<Role>, status: SessionStatus): (r: seq<Transition>)
    ensures |r| <= 1
    ensures !CanEdit(role) ==> r == []
    ensures r != [] ==> Advances(status, r[0].target)
  {
    if !CanEdit(role) then []
    else if status == Scheduled then [Transition("Start", InProgress)]
    else if status == InProgress then [Transition("Complete", Completed)]
    else []
  }

  /** The lifecycle the buttons follow: scheduled, in progress, completed. */
  predicate Advances(from: SessionStatus, to: SessionStatus) {
    (from == Scheduled && to == InProgress) || (from == InProgress && to == Completed)
  }

  /** An editor sees exactly one button while the session is scheduled or in
      progress, and none once it is completed or cancelled. */
  lemma TransitionsOffered(role: Option<Role>, status: SessionStatus)
    requires CanEdit(role)
    ensures Transitions(role, status) != [] <==> status == Scheduled || status == InProgress
    ensures status == Scheduled ==> Transitions(role, status) == [Transition("Start", InProgress)]
    ensures status == InProgress ==> Transitions(role, status) == [Transition("Complete", Completed)]
  {
  }

  /** Following the offered buttons from a scheduled session reaches a
      completed one in two steps, after which nothing more is offered. */
  lemma LifecycleEndsCompleted(role: Option<Role>)
    requires CanEdit(role)
    ensures Transitions(role, Transitions(role, Scheduled)[0].target)[0].target == Completed
    ensures Transitions(role, Completed) == [] && Transitions(role, Cancelled) == []
  {
  }

  /** The "N mentee(s)" label. */
  function CountLabel(n: nat): (r: string)
    ensures r == NatToString(n) + " mentee" || r == NatToString(n) + " mentees"
    ensures r == NatToString(n) + " mentee" <==> n == 1
  {
    NatToString(n) + " mentee" + (if n != 1 then "s" else "")
  }

  function FirstNames(ms: seq<Participant>, k: nat): (r: seq<string>)
    ensures |r| == if |ms| < k then |ms| else k
    ensures forall i :: 0 <= i < |r| ==> r[i] == ms[i].name
  {
    if ms == [] || k == 0 then [] else [ms[0].name] + FirstNames(ms[1..], k - 1)
  }

  /** The mentee line: the names it lists and how many more it counts. */
  datatype Summary = Summary(shown: seq<string>, more: nat)

  /** The mentee line of a card, hidden (`None`) without mentees: the first
      three names, in order, and the number of mentees left unnamed; every
      mentee is either named or counted. */
  function MenteeSummary(ms: seq<Participant>): (r: Option<Summary>)
    ensures r.None? <==> ms == []
    ensures r.Some? ==> |r.value.shown| == (if |ms| < 3 then |ms| else 3)
    ensures r.Some? ==> forall i :: 0 <= i < |r.value.shown| ==> r.value.shown[i] == ms[i].name
    ensures r.Some? ==> |r.value.shown| + r.value.more == |ms|
  {
    if ms == [] then None
    else Some(Summary(FirstNames(ms, 3), if |ms| > 3 then |ms| - 3 else 0))
  }

  /** The text of the line: names joined by ", ", then " +k more" when k > 0. */
  function SummaryText(s: Summary): string {
    Join(s.shown, ", ") + (if s.more > 0 then " +" + NatToString(s.more) + " more" else "")
  }

  /** The badge classes of the card. */
  function StatusColor(s: SessionStatus): string {
    BadgeClass(StatusTone(s))
  }

  datatype StatusIcon = PlayIcon | CheckIcon

  /** `getStatusIcon` of the card: only in-progress and completed sessions
      carry an icon. */
  function CardIcon(s: SessionStatus): (r: Option<StatusIcon>)
    ensures r == Some(PlayIcon) <==> s == InProgress
    ensures r == Some(CheckIcon) <==> s == Completed
    ensures r.None? <==> s != InProgress && s != Completed
  {
    if s == InProgress then Some(PlayIcon) else if s == Completed then Some(CheckIcon) else None
  }
}
