/** The mentee picker both session modals embed: the searchable list of
    active mentees and the selection of ids built by toggling, selecting all
    matches and clearing. */
module MenteePicker {
  import opened Common

  /** An active mentee as the user list returns it. */
  datatype Candidate = Candidate(id: string, name: string, email: string)

  /** `getFilteredMentees`: the candidates whose lower-cased name or e-mail
      contains the lower-cased search term, in their order. */
  function Matching(cs: seq<Candidate>, term: string): (r: seq<Candidate>)
    ensures forall c :: c in r <==> c in cs && NameOrEmailMatches(c.name, c.email, term)
  {
    Filter(cs, (c: Candidate) => NameOrEmailMatches(c.name, c.email, term))
  }

  /** An empty search keeps every candidate, in order. */
  lemma EmptyTermKeepsAll(cs: seq<Candidate>)
    ensures Matching(cs, "") == cs
  {
    forall c | c in cs
      ensures NameOrEmailMatches(c.name, c.email, "")
    {
      ContainsEmpty(Lower(c.name));
    }
    FilterKeepsAll(cs, (c: Candidate) => NameOrEmailMatches(c.name, c.email, ""));
  }

  /** Matching is order-preserving: a list split in two matches as its two
      halves do, one after the other. */
  lemma MatchingConcat(a: seq<Candidate>, b: seq<Candidate>, term: string)
    ensures Matching(a + b, term) == Matching(a, term) + Matching(b, term)
  {
    FilterConcat(a, b, (c: Candidate) => NameOrEmailMatches(c.name, c.email, term));
  }

  function Ids(cs: seq<Candidate>): (r: seq<string>)
    ensures |r| == |cs|
    ensures forall i :: 0 <= i < |cs| ==> r[i] == cs[i].id
  {
    if cs == [] then [] else [cs[0].id] + Ids(cs[1..])
  }

  /** `handleMenteeToggle`: a selected id is removed (every occurrence of it),
      an unselected one is appended. */
  function Toggled(ids: seq<string>, id: string): (r: seq<string>)
    ensures id in r <==> id !in ids
    ensures forall x :: x != id ==> (x in r <==> x in ids)
    ensures id !in ids ==> r == ids + [id]
    ensures id in ids ==> |r| < |ids|
  {
    if id in ids then Without(ids, id) else ids + [id]
  }

  /** Toggling an unselected id twice gives back the selection exactly. */
  lemma ToggleTwiceUnselected(ids: seq<string>, id: string)
    requires id !in ids
    ensures Toggled(Toggled(ids, id), id) == ids
  {
    WithoutConcat(ids, [id], id);
    assert Without([id], id) == [];
  }

  /** Toggling a selected id twice keeps the same set of ids, moving it to
      the end; a selection without repeats stays without repeats. */
  lemma ToggleTwiceSelected(ids: seq<string>, id: string)
    requires id in ids
    ensures forall x :: x in Toggled(Toggled(ids, id), id) <==> x in ids
    ensures Toggled(Toggled(ids, id), id) == Without(ids, id) + [id]
  {
  }

  /** Toggling never introduces repeats. */
  lemma ToggleKeepsNoDuplicates(ids: seq<string>, id: string)
    requires NoDuplicates(ids)
    ensures NoDuplicates(Toggled(ids, id))
  {
    if id in ids {
      WithoutNoDuplicates(ids, id);
    } else {
      var r := ids + [id];
      assert forall i :: 0 <= i < |ids| ==> r[i] == ids[i];
    }
  }

  /** `selectAllMentees`: the selection becomes exactly the ids of the
      matching candidates, in their order; selected ids outside the search
      are dropped. */
  function SelectAll(cs: seq<Candidate>, term: string): (r: seq<string>)
    ensures |r| == |Matching(cs, term)|
    ensures forall i :: 0 <= i < |r| ==> r[i] == Matching(cs, term)[i].id
  {
    Ids(Matching(cs, term))
  }

  /** Every id `SelectAll` gives belongs to a candidate that matches. */
  lemma SelectAllOnlyMatches(cs: seq<Candidate>, term: string, id: string)
    requires id in SelectAll(cs, term)
    ensures exists c :: c in cs && c.id == id && NameOrEmailMatches(c.name, c.email, term)
  {
    var ms := Matching(cs, term);
    var i :| 0 <= i < |ms| && SelectAll(cs, term)[i] == id;
    assert ms[i] in ms;
  }
}
