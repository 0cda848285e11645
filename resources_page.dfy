/** The resource library: the searched and category-filtered list, who may
    edit or delete an entry, the file-type icon, and the list updates made
    by upload, edit and delete. */
module ResourcesPage {
  import opened Common

  datatype Uploader = Uploader(id: string, name: string)

  datatype Resource = Resource(id: string, title: string, description: Option<string>,
                               category: string, fileName: string, uploader: Uploader)

  /** A file picked in a form. */
  datatype FileRef = FileRef(name: string, size: nat)

  datatype ResourceForm = ResourceForm(title: string, description: string, category: string,
                                       file: Option<FileRef>)

  const EmptyForm := ResourceForm("", "", "", None)

  /** The multipart requests the page sends. */
  datatype ResourceRequest = PostResource(form: ResourceForm)
                           | PutResource(id: string, title: string, description: string,
                                         category: string, file: Option<FileRef>)
                           | DeleteResource(id: string)

  /** The search: the lower-cased term occurs in the title or the
      description, and the category filter is empty or equal. */
  predicate Shown(r: Resource, term: string, category: string) {
    (Contains(Lower(r.title), Lower(term))
     || (r.description.Some? && Contains(Lower(r.description.value), Lower(term))))
    && (category == "" || r.category == category)
  }

  /** `filteredResources`. */
  function Filtered(rs: seq<Resource>, term: string, category: string): (r: seq<Resource>)
    ensures |r| <= |rs|
    ensures forall x :: x in r <==> x in rs && Shown(x, term, category)
  {
    Filter(rs, (x: Resource) => Shown(x, term, category))
  }

  lemma FilteredConcat(a: seq<Resource>, b: seq<Resource>, term: string, category: string)
    ensures Filtered(a + b, term, category) == Filtered(a, term, category) + Filtered(b, term, category)
  {
    FilterConcat(a, b, (x: Resource) => Shown(x, term, category));
  }

  lemma NoFilterKeepsAll(rs: seq<Resource>)
    ensures Filtered(rs, "", "") == rs
  {
    forall x | x in rs
      ensures Shown(x, "", "")
    {
      ContainsEmpty(Lower(x.title));
    }
    FilterKeepsAll(rs, (x: Resource) => Shown(x, "", ""));
  }

  /** `canEditDelete`: an administrator, or the user who uploaded it. */
  predicate CanEditDelete(user: Option<User>, r: Resource) {
    user.Some? && (user.value.role == Admin || r.uploader.id == user.value.id)
  }

  lemma OnlyAdminOrUploader(user: Option<User>, r: Resource)
    requires CanEditDelete(user, r) && user.value.role != Admin
    ensures r.uploader.id == user.value.id
  {
  }

  /** The upload button is shown to mentors and administrators. */
  predicate CanUpload(user: Option<User>) {
    user.Some? && (user.value.role == Mentor || user.value.role == Admin)
  }

  /** The text after the last "." (the whole name when there is none),
      what `split('.').pop()` gives. */
  function Extension(name: string): (e: string)
    ensures '.' !in e
    ensures '.' !in name ==> e == name
  {
    if name == [] || name[|name| - 1] == '.' then []
    else Extension(name[..|name| - 1]) + [name[|name| - 1]]
  }

  /** The extension is a suffix of the name. */
  lemma {:induction false} ExtensionIsSuffix(name: string)
    ensures |Extension(name)| <= |name|
    ensures Extension(name) == name[|name| - |Extension(name)|..]
  {
    if name != [] && name[|name| - 1] != '.' {
      var init := name[..|name| - 1];
      ExtensionIsSuffix(init);
      var k := |Extension(init)|;
      assert init[|init| - k..] + [name[|name| - 1]] == name[|name| - k - 1..];
    }
  }

  /** Whatever comes before the last dot does not matter. */
  lemma {:induction false} ExtensionAfterDot(prefix: string, tail: string)
    requires '.' !in tail
    ensures Extension(prefix + "." + tail) == tail
  {
    var s := prefix + "." + tail;
    if tail == [] {
      assert s[|s| - 1] == '.';
    } else {
      var t := tail[..|tail| - 1];
      assert s[..|s| - 1] == prefix + "." + t;
      assert s[|s| - 1] == tail[|tail| - 1];
      ExtensionAfterDot(prefix, t);
      assert t + [tail[|tail| - 1]] == tail;
    }
  }

  datatype FileKind = DocumentFile | VideoFile | ImageFile | OtherFile

  /** `getFileIcon`, by the lower-cased extension. */
  function FileKindOf(name: string): FileKind {
    match Lower(Extension(name))
    case "pdf" => DocumentFile
    case "doc" => DocumentFile
    case "docx" => DocumentFile
    case "mp4" => VideoFile
    case "mov" => VideoFile
    case "avi" => VideoFile
    case "jpg" => ImageFile
    case "jpeg" => ImageFile
    case "png" => ImageFile
    case "gif" => ImageFile
    case _ => OtherFile
  }

  /** Only the text after the last dot counts, in any letter case. */
  lemma UpperCaseExtension()
    ensures FileKindOf("Report.PDF") == DocumentFile
  {
    ExtensionAfterDot("Report", "PDF");
    assert "Report" + "." + "PDF" == "Report.PDF";
    var l := Lower("PDF");
    assert l[0] == 'p' && l[1] == 'd' && l[2] == 'f';
    assert l == "pdf";
  }

  lemma EarlierDotsIgnored()
    ensures FileKindOf("clip.v2.mov") == VideoFile
    ensures FileKindOf("photo.png.txt") == OtherFile
  {
    LastExtensionOfClip();
    LastExtensionOfPhoto();
  }

  lemma LastExtensionOfClip()
    ensures FileKindOf("clip.v2.mov") == VideoFile
  {
    ExtensionAfterDot("clip.v2", "mov");
    assert "clip.v2" + "." + "mov" == "clip.v2.mov";
    var m := Lower("mov");
    assert m[0] == 'm' && m[1] == 'o' && m[2] == 'v';
    assert m == "mov";
  }

  lemma LastExtensionOfPhoto()
    ensures FileKindOf("photo.png.txt") == OtherFile
  {
    ExtensionAfterDot("photo.png", "txt");
    assert "photo.png" + "." + "txt" == "photo.png.txt";
    var t := Lower("txt");
    assert t[0] == 't' && t[1] == 'x' && t[2] == 't';
    assert t == "txt";
  }

  /** A name without a dot is classified by the whole name, as if it were
      its own extension. */
  lemma DotlessNameIsItsOwnExtension(name: string)
    requires '.' !in name
    ensures FileKindOf(name) == FileKindOf("x." + name)
  {
    ExtensionAfterDot("x", name);
    assert "x" + "." + name == "x." + name;
  }

  /** The list after an edit: the entry with that id becomes `r`, nothing
      else changes. */
  function Replaced(rs: seq<Resource>, id: string, r: Resource): (out: seq<Resource>)
    ensures |out| == |rs|
    ensures forall i :: 0 <= i < |rs| ==> out[i] == (if rs[i].id == id then r else rs[i])
  {
    if rs == [] then [] else [if rs[0].id == id then r else rs[0]] + Replaced(rs[1..], id, r)
  }

  /** `resources.filter(r => r.id !== id)`. */
  function RemoveId(rs: seq<Resource>, id: string): (out: seq<Resource>)
    ensures forall x :: x in out <==> x in rs && x.id != id
  {
    Filter(rs, (x: Resource) => x.id != id)
  }

  lemma RemoveIdConcat(a: seq<Resource>, b: seq<Resource>, id: string)
    ensures RemoveId(a + b, id) == RemoveId(a, id) + RemoveId(b, id)
  {
    FilterConcat(a, b, (x: Resource) => x.id != id);
  }

  /** `openEditModal`'s form for `r`. */
  function EditFormOf(r: Resource): (f: ResourceForm)
    ensures f.title == r.title && f.category == r.category && f.file.None?
    ensures f.description == (if r.description.Some? then r.description.value else "")
  {
    ResourceForm(r.title, r.description.GetOr(""), r.category, None)
  }

  class Library {
    var resources: seq<Resource>
    var categories: seq<string>
    var loading: bool
    var uploadForm: ResourceForm
    var editForm: ResourceForm
    var selected: Option<Resource>
    var showUpload: bool
    var showEdit: bool
    /** The requests sent, oldest first. */
    var sent: seq<ResourceRequest>

    constructor()
      ensures resources == [] && categories == [] && loading && uploadForm == EmptyForm && editForm == EmptyForm
      ensures selected.None? && !showUpload && !showEdit && sent == []
    {
      resources := [];
      categories := [];
      loading := true;
      uploadForm := EmptyForm;
      editForm := EmptyForm;
      selected := None;
      showUpload := false;
      showEdit := false;
      sent := [];
    }

    /** The mount effect: `fetchResources` and `fetchCategories`, each
        keeping the old value when its request fails; loading ends. */
    method Fetch(fetched: Option<seq<Resource>>, fetchedCategories: Option<seq<string>>)
      modifies this
      ensures resources == fetched.GetOr(old(resources)) && !loading
      ensures categories == fetchedCategories.GetOr(old(categories))
      ensures uploadForm == old(uploadForm) && editForm == old(editForm) && selected == old(selected)
      ensures showUpload == old(showUpload) && showEdit == old(showEdit) && sent == old(sent)
    {
      resources := fetched.GetOr(resources);
      categories := fetchedCategories.GetOr(categories);
      loading := false;
    }

    /** `handleUpload`: nothing without a file; otherwise the form is
        POSTed and, when the reply carries the new resource, it goes first
        in the list, the modal closes, the form resets and the categories
        are reloaded (`refreshed`, kept when that request fails). */
    method Upload(reply: Option<Resource>, refreshed: Option<seq<string>>)
      modifies this
      ensures old(uploadForm.file).None? ==>
                sent == old(sent) && resources == old(resources) && uploadForm == old(uploadForm)
                && showUpload == old(showUpload) && categories == old(categories)
      ensures old(uploadForm.file).Some? ==> sent == old(sent) + [PostResource(old(uploadForm))]
      ensures old(uploadForm.file).Some? && reply.Some? ==>
                resources == [reply.value] + old(resources) && !showUpload && uploadForm == EmptyForm
                && categories == refreshed.GetOr(old(categories))
      ensures old(uploadForm.file).Some? && reply.None? ==>
                resources == old(resources) && uploadForm == old(uploadForm)
                && showUpload == old(showUpload) && categories == old(categories)
      ensures editForm == old(editForm) && selected == old(selected) && showEdit == old(showEdit)
      ensures loading == old(loading)
    {
      if uploadForm.file.None? {
        return;
      }
      sent := sent + [PostResource(uploadForm)];
      if reply.Some? {
        resources := [reply.value] + resources;
        showUpload := false;
        uploadForm := EmptyForm;
        categories := refreshed.GetOr(categories);
      }
    }

    /** `openEditModal`. */
    method OpenEdit(r: Resource)
      modifies this
      ensures selected == Some(r) && editForm == EditFormOf(r) && showEdit
      ensures resources == old(resources) && categories == old(categories) && uploadForm == old(uploadForm)
      ensures showUpload == old(showUpload) && sent == old(sent) && loading == old(loading)
    {
      selected := Some(r);
      editForm := EditFormOf(r);
      showEdit := true;
    }

    /** `handleEdit`: nothing without a selected resource; otherwise the
        PUT carries the file only when one was picked, and on success the
        entry with that id is replaced by the reply and the modal closes. */
    method Edit(reply: Option<Resource>, refreshed: Option<seq<string>>)
      modifies this
      ensures old(selected).None? ==>
                sent == old(sent) && resources == old(resources) && editForm == old(editForm)
                && selected == old(selected) && showEdit == old(showEdit) && categories == old(categories)
      ensures old(selected).Some? ==>
                sent == old(sent) + [PutResource(old(selected).value.id, old(editForm).title,
                                                 old(editForm).description, old(editForm).category,
                                                 old(editForm).file)]
      ensures old(selected).Some? && reply.Some? ==>
                resources == Replaced(old(resources), old(selected).value.id, reply.value)
                && !showEdit && selected.None? && editForm == EmptyForm
                && categories == refreshed.GetOr(old(categories))
      ensures old(selected).Some? && reply.None? ==>
                resources == old(resources) && editForm == old(editForm) && selected == old(selected)
                && showEdit == old(showEdit) && categories == old(categories)
      ensures uploadForm == old(uploadForm) && showUpload == old(showUpload) && loading == old(loading)
    {
      if selected.None? {
        return;
      }
      var id := selected.value.id;
      sent := sent + [PutResource(id, editForm.title, editForm.description, editForm.category, editForm.file)];
      if reply.Some? {
        resources := Replaced(resources, id, reply.value);
        showEdit := false;
        selected := None;
        editForm := EmptyForm;
        categories := refreshed.GetOr(categories);
      }
    }

    /** `handleDelete`: nothing without the confirm; otherwise the request
        goes out and, on success, the entries with that id leave the list. */
    method Delete(id: string, confirmed: bool, succeeded: bool)
      modifies this
      ensures !confirmed ==> sent == old(sent) && resources == old(resources)
      ensures confirmed ==> sent == old(sent) + [DeleteResource(id)]
      ensures confirmed && succeeded ==> resources == RemoveId(old(resources), id)
      ensures confirmed && !succeeded ==> resources == old(resources)
      ensures categories == old(categories) && uploadForm == old(uploadForm) && editForm == old(editForm)
      ensures selected == old(selected) && showUpload == old(showUpload) && showEdit == old(showEdit)
      ensures loading == old(loading)
    {
      if !confirmed {
        return;
      }
      sent := sent + [DeleteResource(id)];
      if succeeded {
        resources := RemoveId(resources, id);
      }
    }
  }
}
