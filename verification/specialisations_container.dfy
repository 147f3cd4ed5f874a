/** The specialisation list controller: load, search, create/edit modal with
    its draft, confirmed deletion, and a read-only modal listing the courses
    of one specialisation. */
module SpecialisationsContainer {
  import opened Wrappers
  import opened Api
  import Text
  import Lists

  /** The draft the form starts from and is reset to. */
  const DefaultDraft: Specialisation := Specialisation(0, Some(""), Some(""), Some(""), 2, 18)

  /** The search: the lower-cased query occurs in the lower-cased name, code
      or description (there is no fourth field). */
  predicate Matches(s: Specialisation, query: string) {
    var q := Text.Lower(query);
    || Text.Contains(Text.Lower(OrEmpty(s.name)), q)
    || Text.Contains(Text.Lower(OrEmpty(s.code)), q)
    || Text.Contains(Text.Lower(OrEmpty(s.description)), q)
  }

  function MatchesQuery(query: string): Specialisation -> bool {
    s => Matches(s, query)
  }

  /** `filteredSpecialisations`. */
  function FilteredSpecialisations(specs: seq<Specialisation>, query: string): (r: seq<Specialisation>)
    ensures |r| <= |specs|
    ensures forall i :: 0 <= i < |r| ==> Matches(r[i], query)
  {
    Lists.Filter(specs, MatchesQuery(query))
  }

  /** A specialisation is shown exactly when it is loaded and matches. */
  lemma FilteredSpecialisationsMembership(specs: seq<Specialisation>, query: string, s: Specialisation)
    ensures s in FilteredSpecialisations(specs, query) <==> s in specs && Matches(s, query)
  {
    Lists.FilterMembership(specs, MatchesQuery(query), s);
  }

  /** The shown specialisations keep the loaded order. */
  lemma FilteredSpecialisationsInOrder(specs: seq<Specialisation>, query: string)
    ensures Lists.IsSubsequence(FilteredSpecialisations(specs, query), specs)
  {
    Lists.FilterIsSubsequence(specs, MatchesQuery(query));
  }

  /** An empty search shows every specialisation. */
  lemma EmptyQueryShowsAll(specs: seq<Specialisation>)
    ensures FilteredSpecialisations(specs, "") == specs
  {
    forall i | 0 <= i < |specs|
      ensures MatchesQuery("")(specs[i])
    {
      Text.ContainsEmpty(Text.Lower(OrEmpty(specs[i].name)));
    }
    Lists.FilterKeepsAll(specs, MatchesQuery(""));
  }

  /** Searching the shown specialisations again by the same query changes
      nothing. */
  lemma FilteredSpecialisationsIdempotent(specs: seq<Specialisation>, query: string)
    ensures FilteredSpecialisations(FilteredSpecialisations(specs, query), query) == FilteredSpecialisations(specs, query)
  {
    Lists.FilterIdempotent(specs, MatchesQuery(query));
  }

  function CreditsRequired(s: Specialisation): int { s.creditsRequired }

  /** The "Total Credits Required" card: a `reduce` from 0 over the loaded
      (unfiltered) list. */
  function TotalCredits(specs: seq<Specialisation>): (total: int)
    ensures total == Lists.Sum(specs, CreditsRequired)
  {
    Lists.Reduce(specs, CreditsRequired, 0)
  }

  /** The total counts the specialisations the search hides as well. */
  lemma TotalCreditsCoverHidden(specs: seq<Specialisation>, query: string)
    ensures TotalCredits(specs) ==
      Lists.Sum(FilteredSpecialisations(specs, query), CreditsRequired)
      + Lists.Sum(Lists.Filter(specs, Lists.Not(MatchesQuery(query))), CreditsRequired)
  {
    Lists.SumSplitsByFilter(specs, MatchesQuery(query), CreditsRequired);
  }

  class SpecialisationsContainer {
    var specialisations: seq<Specialisation>
    var loading: bool
    var searchQuery: string
    var showCreateModal: bool
    var isEditing: bool
    var showCoursesModal: bool
    var selected: Option<Specialisation>
    var specialisationCourses: seq<Course>
    var draft: Specialisation
    /** The gateway calls issued so far, oldest first. */
    var calls: seq<Call>

    /** The initial component state, before the mount-time load. */
    constructor ()
      ensures specialisations == [] && loading && searchQuery == ""
      ensures !showCreateModal && !isEditing && !showCoursesModal && selected.None?
      ensures specialisationCourses == [] && draft == DefaultDraft && calls == []
    {
      specialisations := [];
      loading := true;
      searchQuery := "";
      showCreateModal := false;
      isEditing := false;
      showCoursesModal := false;
      selected := None;
      specialisationCourses := [];
      draft := DefaultDraft;
      calls := [];
    }

    /** The specialisations currently shown. */
    function Visible(): seq<Specialisation>
      reads this
    {
      FilteredSpecialisations(specialisations, searchQuery)
    }

    /** `loadSpecialisations`: with a token, the list becomes the fetched
        array, or empty for any other answer or a failure; without one it is
        kept. */
    method LoadSpecialisations(token: Option<string>, reply: Fetched<Specialisation>)
      modifies this
      ensures !loading
      ensures Truthy(token) ==> specialisations == ItemsOrEmpty(reply) && calls == old(calls) + [ListSpecialisations]
      ensures !Truthy(token) ==> specialisations == old(specialisations) && calls == old(calls)
      ensures searchQuery == old(searchQuery) && showCreateModal == old(showCreateModal)
      ensures isEditing == old(isEditing) && draft == old(draft)
      ensures showCoursesModal == old(showCoursesModal) && selected == old(selected)
      ensures specialisationCourses == old(specialisationCourses)
    {
      loading := true;
      if Truthy(token) {
        calls := calls + [ListSpecialisations];
        match reply
        case Array(items) =>
          specialisations := items;
        case NonArray =>
          specialisations := [];
        case Threw =>
          specialisations := [];
      }
      loading := false;
    }

    /** `handleCreate`: with a token, sends the draft as an update (by its
        `specialisationId`) when editing, else as a create; once that
        resolves, whatever its body, closes the modal, leaves edit mode,
        resets the draft and reloads. A rejected call ends the handler. */
    method HandleCreate(token: Option<string>, written: Written, reply: Fetched<Specialisation>)
      modifies this
      ensures !Truthy(token) ==> unchanged(this)
      ensures Truthy(token) ==>
        var write := if old(isEditing) then UpdateSpecialisation(old(draft).specialisationId, old(draft))
                     else CreateSpecialisation(old(draft));
        && (written.Rejected? ==>
             calls == old(calls) + [write]
             && specialisations == old(specialisations) && loading == old(loading)
             && showCreateModal == old(showCreateModal) && isEditing == old(isEditing) && draft == old(draft))
        && (written.Resolved? ==>
             calls == old(calls) + [write, ListSpecialisations]
             && specialisations == ItemsOrEmpty(reply) && !loading
             && !showCreateModal && !isEditing && draft == DefaultDraft)
      ensures searchQuery == old(searchQuery) && showCoursesModal == old(showCoursesModal)
      ensures selected == old(selected) && specialisationCourses == old(specialisationCourses)
    {
      if Truthy(token) {
        if isEditing {
          calls := calls + [UpdateSpecialisation(draft.specialisationId, draft)];
        } else {
          calls := calls + [CreateSpecialisation(draft)];
        }
        if written.Rejected? {
          return;
        }
        showCreateModal := false;
        isEditing := false;
        draft := DefaultDraft;
        LoadSpecialisations(token, reply);
      }
    }

    /** `handleEditClick`: the draft becomes a copy of the specialisation, in
        edit mode, with the modal open. */
    method HandleEditClick(spec: Specialisation)
      modifies this
      ensures draft == spec && isEditing && showCreateModal
      ensures specialisations == old(specialisations) && loading == old(loading) && calls == old(calls)
      ensures showCoursesModal == old(showCoursesModal) && selected == old(selected)
      ensures specialisationCourses == old(specialisationCourses) && searchQuery == old(searchQuery)
    {
      draft := Specialisation(spec.specialisationId, spec.code, spec.name, spec.description, spec.year,
                              spec.creditsRequired);
      isEditing := true;
      showCreateModal := true;
    }

    /** `handleViewCoursesClick`: selects the specialisation and opens the
        courses modal first; then, with a token, the modal's list becomes the
        fetched array, or empty for any other answer or a failure. Without a
        token the previous list stays. */
    method HandleViewCoursesClick(token: Option<string>, spec: Specialisation, reply: Fetched<Course>)
      modifies this
      ensures selected == Some(spec) && showCoursesModal
      ensures Truthy(token) ==>
        specialisationCourses == ItemsOrEmpty(reply)
        && calls == old(calls) + [GetSpecialisationCourses(spec.specialisationId)]
      ensures !Truthy(token) ==> specialisationCourses == old(specialisationCourses) && calls == old(calls)
      ensures specialisations == old(specialisations) && loading == old(loading) && searchQuery == old(searchQuery)
      ensures showCreateModal == old(showCreateModal) && isEditing == old(isEditing) && draft == old(draft)
    {
      selected := Some(spec);
      showCoursesModal := true;
      if Truthy(token) {
        calls := calls + [GetSpecialisationCourses(spec.specialisationId)];
        match reply
        case Array(items) =>
          specialisationCourses := items;
        case NonArray =>
          specialisationCourses := [];
        case Threw =>
          specialisationCourses := [];
      }
    }

    /** `handleDelete`: only when the user confirms and there is a token,
        deletes the specialisation and then, once that resolves, reloads. */
    method HandleDelete(token: Option<string>, id: int, confirmed: bool, written: Written, reply: Fetched<Specialisation>)
      modifies this
      ensures !(confirmed && Truthy(token)) ==> unchanged(this)
      ensures confirmed && Truthy(token) && written.Rejected? ==>
        calls == old(calls) + [DeleteSpecialisation(id)] && specialisations == old(specialisations)
        && loading == old(loading)
      ensures confirmed && Truthy(token) && written.Resolved? ==>
        calls == old(calls) + [DeleteSpecialisation(id), ListSpecialisations]
        && specialisations == ItemsOrEmpty(reply) && !loading
      ensures searchQuery == old(searchQuery) && showCreateModal == old(showCreateModal)
      ensures isEditing == old(isEditing) && draft == old(draft)
      ensures showCoursesModal == old(showCoursesModal) && selected == old(selected)
      ensures specialisationCourses == old(specialisationCourses)
    {
      if confirmed {
        if Truthy(token) {
          calls := calls + [DeleteSpecialisation(id)];
          if written.Resolved? {
            LoadSpecialisations(token, reply);
          }
        }
      }
    }

    /** The "Add Specialisation" button: create mode, a default draft, modal
        open. */
    method OpenAddForm()
      modifies this
      ensures draft == DefaultDraft && !isEditing && showCreateModal
      ensures specialisations == old(specialisations) && loading == old(loading) && calls == old(calls)
      ensures showCoursesModal == old(showCoursesModal) && selected == old(selected)
      ensures specialisationCourses == old(specialisationCourses) && searchQuery == old(searchQuery)
    {
      isEditing := false;
      draft := DefaultDraft;
      showCreateModal := true;
    }

    /** The search box's `onChange`. */
    method SetSearchQuery(query: string)
      modifies this
      ensures searchQuery == query
      ensures Visible() == FilteredSpecialisations(old(specialisations), query)
      ensures specialisations == old(specialisations) && loading == old(loading) && calls == old(calls)
      ensures showCreateModal == old(showCreateModal) && isEditing == old(isEditing) && draft == old(draft)
      ensures showCoursesModal == old(showCoursesModal) && selected == old(selected)
      ensures specialisationCourses == old(specialisationCourses)
    {
      searchQuery := query;
    }
  }
}
