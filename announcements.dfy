/** The announcements page: the list a create prepends to and a delete
    filters, the draft form, and the administrator-only controls. */
module Announcements {
  import opened Common

  datatype Announcement = Announcement(id: string, title: string, message: string,
                                       targetRole: Role, author: string)

  /** `newAnnouncement`, which is also the body of the POST. */
  datatype Draft = Draft(title: string, message: string, targetRole: Role)

  const EmptyDraft := Draft("", "", Mentee)

  datatype AnnouncementRequest = PostAnnouncement(draft: Draft) | DeleteAnnouncement(id: string)

  /** `announcements.filter(a => a.id !== id)`. */
  function RemoveId(as_: seq<Announcement>, id: string): (r: seq<Announcement>)
    ensures |r| <= |as_|
    ensures forall a :: a in r <==> a in as_ && a.id != id
  {
    Filter(as_, (a: Announcement) => a.id != id)
  }

  /** Deleting keeps the others in their order. */
  lemma RemoveIdConcat(a: seq<Announcement>, b: seq<Announcement>, id: string)
    ensures RemoveId(a + b, id) == RemoveId(a, id) + RemoveId(b, id)
  {
    FilterConcat(a, b, (x: Announcement) => x.id != id);
  }

  /** Deleting an id twice is deleting it once. */
  lemma RemoveIdTwice(as_: seq<Announcement>, id: string)
    ensures RemoveId(RemoveId(as_, id), id) == RemoveId(as_, id)
  {
    FilterKeepsAll(RemoveId(as_, id), (x: Announcement) => x.id != id);
  }

  /** A create followed by a delete of the created id removes it again, and
      with it only entries of the same id. */
  lemma CreateThenDelete(as_: seq<Announcement>, a: Announcement)
    requires forall x :: x in as_ ==> x.id != a.id
    ensures RemoveId([a] + as_, a.id) == as_
  {
    RemoveIdConcat([a], as_, a.id);
    assert RemoveId([a], a.id) == [] by {
      assert forall x :: x in RemoveId([a], a.id) ==> false;
    }
    FilterKeepsAll(as_, (x: Announcement) => x.id != a.id);
  }

  /** The create button and the delete buttons are shown to administrators
      only. */
  predicate ShowsControls(user: Option<User>) {
    user.Some? && user.value.role == Admin
  }

  /** `getRoleColor`. */
  function RoleColor(r: Role): string {
    match r
    case Admin => "bg-red-100 text-red-800"
    case Mentor => "bg-blue-100 text-blue-800"
    case Mentee => "bg-green-100 text-green-800"
    case OtherRole(_) => "bg-gray-100 text-gray-800"
  }

  /** Each of the three roles has its own colour, and every other value the
      gray one. */
  lemma RoleColors(r: Role, s: Role)
    ensures r.OtherRole? ==> RoleColor(r) == "bg-gray-100 text-gray-800"
    ensures !r.OtherRole? && r != s ==> RoleColor(r) != RoleColor(s)
  {
    if !r.OtherRole? && r != s {
      assert RoleColor(r)[3] != RoleColor(s)[3] || RoleColor(r)[5] != RoleColor(s)[5];
    }
  }

  class Board {
    var announcements: seq<Announcement>
    var loading: bool
    var showCreate: bool
    var draft: Draft
    /** The requests sent, oldest first. */
    var sent: seq<AnnouncementRequest>

    constructor()
      ensures announcements == [] && loading && !showCreate && draft == EmptyDraft && sent == []
    {
      announcements := [];
      loading := true;
      showCreate := false;
      draft := EmptyDraft;
      sent := [];
    }

    /** `fetchAnnouncements`: the fetched list, or the old one when the
        request fails; loading ends either way. */
    method Fetch(fetched: Option<seq<Announcement>>)
      modifies this
      ensures announcements == fetched.GetOr(old(announcements)) && !loading
      ensures showCreate == old(showCreate) && draft == old(draft) && sent == old(sent)
    {
      if fetched.Some? {
        announcements := fetched.value;
      }
      loading := false;
    }

    /** `handleCreateAnnouncement`, with `reply` the announcement the server
        returned (`None` when the request fails): it goes first, the draft
        resets and the modal closes; a failure changes nothing. */
    method Create(reply: Option<Announcement>)
      modifies this
      ensures sent == old(sent) + [PostAnnouncement(old(draft))]
      ensures reply.Some? ==>
                announcements == [reply.value] + old(announcements) && draft == EmptyDraft && !showCreate
      ensures reply.None? ==>
                announcements == old(announcements) && draft == old(draft) && showCreate == old(showCreate)
      ensures loading == old(loading)
    {
      sent := sent + [PostAnnouncement(draft)];
      if reply.Some? {
        announcements := [reply.value] + announcements;
        draft := EmptyDraft;
        showCreate := false;
      }
    }

    /** `handleDeleteAnnouncement`: on success the entries with that id
        leave the list; a failure changes nothing. */
    method Delete(id: string, succeeded: bool)
      modifies this
      ensures sent == old(sent) + [DeleteAnnouncement(id)]
      ensures succeeded ==> announcements == RemoveId(old(announcements), id)
      ensures !succeeded ==> announcements == old(announcements)
      ensures loading == old(loading) && showCreate == old(showCreate) && draft == old(draft)
    {
      sent := sent + [DeleteAnnouncement(id)];
      if succeeded {
        announcements := RemoveId(announcements, id);
      }
    }
  }
}
