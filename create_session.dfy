/** The create-session modal: the form, its validation chain, the POST it
    makes only when every check passes, and the mentee selection. */
module CreateSession {
  import opened Common
  import opened MenteePicker
  import opened Sessions

  /** `formData`, which is also the body of the POST. */
  datatype SessionForm = SessionForm(title: string, description: string, date: string,
                                     duration: int, menteeIds: seq<string>)

  /** The values the form is reset to. */
  const BlankForm := SessionForm("", "", "", 60, [])

  const TitleRequired := "Session title is required"
  const DateRequired := "Date and time are required"
  const MenteeRequired := "Please select at least one mentee"
  const FutureRequired := "Session date must be in the future"
  const MenteesFailed := "Failed to load mentees. Please try again."

  /** The message of the first check `f` fails, in the order the submit
      handler runs them, or `None` when every check passes. */
  function Rejection(f: SessionForm, when: Option<int>, now: int): (r: Option<string>)
    ensures r == Some(TitleRequired) <==> IsBlank(f.title)
    ensures r == Some(DateRequired) <==> !IsBlank(f.title) && f.date == ""
    ensures r == Some(MenteeRequired) <==> !IsBlank(f.title) && f.date != "" && f.menteeIds == []
    ensures r == Some(FutureRequired) <==>
              !IsBlank(f.title) && f.date != "" && f.menteeIds != [] && NotInFuture(when, now)
    ensures r.None? <==>
              !IsBlank(f.title) && f.date != "" && f.menteeIds != [] && !NotInFuture(when, now)
  {
    if IsBlank(f.title) then Some(TitleRequired)
    else if f.date == "" then Some(DateRequired)
    else if f.menteeIds == [] then Some(MenteeRequired)
    else if NotInFuture(when, now) then Some(FutureRequired)
    else None
  }

  class CreateModal {
    var form: SessionForm
    /** `mentees`: the candidates listed for selection. */
    var candidates: seq<Candidate>
    var searchTerm: string
    var error: string
    var loading: bool
    var menteesLoading: bool
    /** The bodies POSTed to `/sessions`, oldest first. */
    var posted: seq<SessionForm>

    constructor()
      ensures form == BlankForm && candidates == [] && searchTerm == "" && error == ""
      ensures !loading && !menteesLoading && posted == []
    {
      form := BlankForm;
      candidates := [];
      searchTerm := "";
      error := "";
      loading := false;
      menteesLoading := false;
      posted := [];
    }

    /** The effect on opening: the mentee list is fetched (`fetched` is what
        the reply carried, `None` when the request failed) and the form, the
        error and the search are reset; a failed fetch then leaves its
        message. */
    method Open(fetched: Option<seq<Candidate>>)
      modifies this
      ensures form == BlankForm && searchTerm == "" && !menteesLoading
      ensures candidates == fetched.GetOr([])
      ensures error == (if fetched.Some? then "" else MenteesFailed)
      ensures loading == old(loading) && posted == old(posted)
    {
      form := BlankForm;
      error := "";
      searchTerm := "";
      candidates := fetched.GetOr([]);
      if fetched.None? {
        error := MenteesFailed;
      }
      menteesLoading := false;
    }

    /** The input handlers for the text fields and the duration. */
    method Fill(title: string, description: string, date: string, duration: int)
      modifies this
      ensures form == SessionForm(title, description, date, duration, old(form.menteeIds))
      ensures candidates == old(candidates) && searchTerm == old(searchTerm) && error == old(error)
      ensures loading == old(loading) && menteesLoading == old(menteesLoading) && posted == old(posted)
    {
      form := form.(title := title, description := description, date := date, duration := duration);
    }

    method Search(term: string)
      modifies this
      ensures searchTerm == term
      ensures form == old(form) && candidates == old(candidates) && error == old(error)
      ensures loading == old(loading) && menteesLoading == old(menteesLoading) && posted == old(posted)
    {
      searchTerm := term;
    }

    /** `handleSubmit`, at instant `now`, with `reply` the outcome of the POST.
        A failed check sets its message and sends nothing; otherwise the form
        is POSTed, and a success resets it while a failure keeps it and shows
        the server's message or the fallback. `created` says whether the
        parent was told of a new session (and closed the modal). */
    method Submit(when: Option<int>, now: int, reply: Outcome<()>) returns (created: bool)
      modifies this
      ensures Rejection(old(form), when, now).Some? ==>
                error == Rejection(old(form), when, now).value && !created
                && posted == old(posted) && form == old(form) && loading == old(loading)
      ensures Rejection(old(form), when, now).None? ==>
                posted == old(posted) + [old(form)] && !loading
                && (reply.Success? ==> created && form == BlankForm && error == "")
                && (reply.Failure? ==> !created && form == old(form)
                                       && error == ErrorText(reply.message, "Failed to create session"))
      ensures candidates == old(candidates) && searchTerm == old(searchTerm)
      ensures menteesLoading == old(menteesLoading)
    {
      created := false;
      if IsBlank(form.title) {
        error := TitleRequired;
        return;
      }
      if form.date == "" {
        error := DateRequired;
        return;
      }
      if |form.menteeIds| == 0 {
        error := MenteeRequired;
        return;
      }
      if NotInFuture(when, now) {
        error := FutureRequired;
        return;
      }
      loading := true;
      error := "";
      posted := posted + [form];
      match reply {
        case Success(_) =>
          created := true;
          form := BlankForm;
        case Failure(message) =>
          error := ErrorText(message, "Failed to create session");
      }
      loading := false;
    }

    /** The submit button is disabled while saving, while the mentees load,
        or with no mentee selected. */
    predicate SubmitDisabled()
      reads this
    {
      loading || |form.menteeIds| == 0 || menteesLoading
    }

    method Toggle(id: string)
      modifies this
      ensures form == old(form).(menteeIds := Toggled(old(form.menteeIds), id))
      ensures candidates == old(candidates) && searchTerm == old(searchTerm) && error == old(error)
      ensures loading == old(loading) && menteesLoading == old(menteesLoading) && posted == old(posted)
    {
      form := form.(menteeIds := Toggled(form.menteeIds, id));
    }

    /** `selectAllMentees`: the selection becomes the ids of the candidates
        the current search matches. */
    method SelectAllMatching()
      modifies this
      ensures form == old(form).(menteeIds := SelectAll(candidates, searchTerm))
      ensures candidates == old(candidates) && searchTerm == old(searchTerm) && error == old(error)
      ensures loading == old(loading) && menteesLoading == old(menteesLoading) && posted == old(posted)
    {
      form := form.(menteeIds := SelectAll(candidates, searchTerm));
    }

    /** `deselectAllMentees`. */
    method DeselectAll()
      modifies this
      ensures form == old(form).(menteeIds := [])
      ensures SubmitDisabled()
      ensures candidates == old(candidates) && searchTerm == old(searchTerm) && error == old(error)
      ensures loading == old(loading) && menteesLoading == old(menteesLoading) && posted == old(posted)
    {
      form := form.(menteeIds := []);
    }
  }

  /** A just-opened modal cannot be submitted: nothing is selected. */
  method OpenedIsDisabled(m: CreateModal, fetched: Option<seq<Candidate>>)
    modifies m
    ensures m.SubmitDisabled()
  {
    m.Open(fetched);
  }
}
