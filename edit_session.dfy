/** The edit-session modal: the form copied from the session being edited,
    its validation (the future-date check only for scheduled sessions), the
    update payload, which never carries the mentee selection, and the status
    colours. */
module EditSession {
  import opened Common
  import opened Sessions
  import opened MenteePicker

  datatype EditForm = EditForm(title: string, description: string, date: string, duration: int,
                               status: SessionStatus, menteeIds: seq<string>)

  const InitialForm := EditForm("", "", "", 60, Scheduled, [])

  /** The body of the PUT. */
  datatype UpdatePayload = UpdatePayload(title: string, description: string, date: string,
                                         duration: int, status: SessionStatus)

  const TitleRequired := "Session title is required"
  const DateRequired := "Date and time are required"
  const ScheduledFutureRequired := "Scheduled session date must be in the future"

  /** The form the opening effect fills in from `s`; `formatted` is the date
      text the input shows for `s`'s date. */
  function FormOf(s: Session, formatted: string): (f: EditForm)
    ensures f.title == s.title && f.date == formatted && f.duration == s.duration && f.status == s.status
    ensures s.description.Some? ==> f.description == s.description.value
    ensures s.description.None? ==> f.description == ""
    ensures |f.menteeIds| == |s.mentees|
    ensures forall i :: 0 <= i < |s.mentees| ==> f.menteeIds[i] == s.mentees[i].id
  {
    EditForm(s.title, s.description.GetOr(""), formatted, s.duration, s.status, ParticipantIds(s.mentees))
  }

  /** `canEditDateTime`: the date input is enabled only for a scheduled
      session. */
  predicate CanEditDateTime(status: SessionStatus) {
    status == Scheduled
  }

  /** The first check the form fails, or `None`. Only a scheduled session
      must lie in the future. */
  function Rejection(f: EditForm, when: Option<int>, now: int): (r: Option<string>)
    ensures r == Some(TitleRequired) <==> IsBlank(f.title)
    ensures r == Some(DateRequired) <==> !IsBlank(f.title) && f.date == ""
    ensures r == Some(ScheduledFutureRequired) <==>
              !IsBlank(f.title) && f.date != "" && f.status == Scheduled && NotInFuture(when, now)
    ensures r.None? <==>
              !IsBlank(f.title) && f.date != "" && !(f.status == Scheduled && NotInFuture(when, now))
  {
    if IsBlank(f.title) then Some(TitleRequired)
    else if f.date == "" then Some(DateRequired)
    else if f.status == Scheduled && NotInFuture(when, now) then Some(ScheduledFutureRequired)
    else None
  }

  /** A session that is not scheduled may be saved with a past date. */
  lemma PastDateAllowedUnlessScheduled(f: EditForm, when: Option<int>, now: int)
    requires !IsBlank(f.title) && f.date != "" && f.status != Scheduled
    ensures Rejection(f, when, now).None?
  {
  }

  /** The payload built from the form: every field but the mentee ids. */
  function PayloadOf(f: EditForm): (p: UpdatePayload)
    ensures p.title == f.title && p.description == f.description && p.date == f.date
    ensures p.duration == f.duration && p.status == f.status
  {
    UpdatePayload(f.title, f.description, f.date, f.duration, f.status)
  }

  /** The payload does not depend on the mentee selection. */
  lemma PayloadIgnoresMentees(f: EditForm, ids: seq<string>)
    ensures PayloadOf(f.(menteeIds := ids)) == PayloadOf(f)
  {
  }

  function UpdateUrl(s: Session): string {
    "/api/sessions/" + s.id
  }

  /** The modal renders only when open and given a session. */
  predicate Renders(isOpen: bool, session: Option<Session>) {
    isOpen && session.Some?
  }

  /** `getStatusColor` of this modal. */
  function StatusColor(s: SessionStatus): string {
    BorderedClass(StatusTone(s))
  }

  /** The four statuses get four different colours and every other status
      the gray one. */
  lemma StatusColors(s: SessionStatus, t: SessionStatus)
    ensures s.OtherStatus? ==> StatusColor(s) == "bg-gray-100 text-gray-800 border-gray-200"
    ensures !s.OtherStatus? && s != t ==> StatusColor(s) != StatusColor(t)
  {
    if !s.OtherStatus? && s != t {
      ClassesDistinct(StatusTone(s), StatusTone(t));
    }
  }

  class EditModal {
    var form: EditForm
    var candidates: seq<Candidate>
    var searchTerm: string
    var error: string
    var loading: bool
    /** The PUT requests made, as (url, body), oldest first. */
    var updates: seq<(string, UpdatePayload)>

    constructor()
      ensures form == InitialForm && candidates == [] && searchTerm == "" && error == ""
      ensures !loading && updates == []
    {
      form := InitialForm;
      candidates := [];
      searchTerm := "";
      error := "";
      loading := false;
      updates := [];
    }

    /** The effect on `session`, `isOpen` and `showSelection`: with a session
        and the modal open, the form is copied from the session and the
        error and search cleared; the mentee list is (re)loaded when the
        selection panel is shown, `fetched` being what the reply carried. */
    method Sync(isOpen: bool, session: Option<Session>, formatted: string,
                showSelection: bool, fetched: Option<seq<Candidate>>)
      modifies this
      ensures !Renders(isOpen, session) ==>
                form == old(form) && error == old(error) && searchTerm == old(searchTerm)
                && candidates == old(candidates)
      ensures Renders(isOpen, session) ==>
                form == FormOf(session.value, formatted) && error == "" && searchTerm == ""
                && candidates == (if showSelection then fetched.GetOr([]) else old(candidates))
      ensures loading == old(loading) && updates == old(updates)
    {
      if isOpen && session.Some? {
        form := FormOf(session.value, formatted);
        error := "";
        searchTerm := "";
        if showSelection {
          candidates := fetched.GetOr([]);
        }
      }
    }

    /** The input handlers; the date text is kept only while it may be
        edited. */
    method Fill(title: string, description: string, date: string, duration: int, status: SessionStatus)
      modifies this
      ensures form.title == title && form.description == description && form.duration == duration
      ensures form.status == status && form.menteeIds == old(form.menteeIds)
      ensures form.date == (if CanEditDateTime(old(form.status)) then date else old(form.date))
      ensures candidates == old(candidates) && searchTerm == old(searchTerm) && error == old(error)
      ensures loading == old(loading) && updates == old(updates)
    {
      var d := if CanEditDateTime(form.status) then date else form.date;
      form := EditForm(title, description, d, duration, status, form.menteeIds);
    }

    /** `handleSubmit` for `session`, at `now`, with `reply` the outcome of
        the PUT. Without a session nothing happens; a failed check sets its
        message; otherwise the payload is sent, and a failure shows the
        server's message or the fallback. The form is never reset. */
    method Submit(session: Option<Session>, when: Option<int>, now: int, reply: Outcome<()>)
      returns (updated: bool)
      modifies this
      ensures session.None? ==>
                error == old(error) && updates == old(updates) && !updated && loading == old(loading)
      ensures session.Some? && Rejection(old(form), when, now).Some? ==>
                error == Rejection(old(form), when, now).value && updates == old(updates) && !updated
                && loading == old(loading)
      ensures session.Some? && Rejection(old(form), when, now).None? ==>
                updates == old(updates) + [(UpdateUrl(session.value), PayloadOf(old(form)))]
                && updated == reply.Success? && !loading
                && error == (if reply.Success? then "" else ErrorText(reply.message, "Failed to update session"))
      ensures form == old(form) && candidates == old(candidates) && searchTerm == old(searchTerm)
    {
      updated := false;
      if session.None? {
        return;
      }
      if IsBlank(form.title) {
        error := TitleRequired;
        return;
      }
      if form.date == "" {
        error := DateRequired;
        return;
      }
      if form.status == Scheduled && NotInFuture(when, now) {
        error := ScheduledFutureRequired;
        return;
      }
      loading := true;
      error := "";
      updates := updates + [(UpdateUrl(session.value), PayloadOf(form))];
      match reply {
        case Success(_) =>
          updated := true;
        case Failure(message) =>
          error := ErrorText(message, "Failed to update session");
      }
      loading := false;
    }

    method Toggle(id: string)
      modifies this
      ensures form == old(form).(menteeIds := Toggled(old(form.menteeIds), id))
      ensures candidates == old(candidates) && searchTerm == old(searchTerm) && error == old(error)
      ensures loading == old(loading) && updates == old(updates)
    {
      form := form.(menteeIds := Toggled(form.menteeIds, id));
    }
  }
}
