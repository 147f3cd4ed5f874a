/** The course list controller: it loads the course list, filters it by a
    search string, drives the create/edit modal and its draft, gates deletion
    behind a confirmation, and shows totals over the whole list. */
module CoursesContainer {
  import opened Wrappers
  import opened Api
  import Text
  import Lists

  /** The draft the form starts from and is reset to. */
  const DefaultDraft: Course := Course(0, Some(""), Some(""), Some(""), 2, "Fall", Some("Computer Science"), 3, 50)

  /** The search: the lower-cased query occurs in the lower-cased name, code,
      description or faculty. */
  predicate Matches(c: Course, query: string) {
    var q := Text.Lower(query);
    || Text.Contains(Text.Lower(OrEmpty(c.name)), q)
    || Text.Contains(Text.Lower(OrEmpty(c.courseCode)), q)
    || Text.Contains(Text.Lower(OrEmpty(c.description)), q)
    || Text.Contains(Text.Lower(OrEmpty(c.faculty)), q)
  }

  function MatchesQuery(query: string): Course -> bool {
    c => Matches(c, query)
  }

  /** `filteredCourses`. */
  function FilteredCourses(courses: seq<Course>, query: string): (r: seq<Course>)
    ensures |r| <= |courses|
    ensures forall i :: 0 <= i < |r| ==> Matches(r[i], query)
  {
    Lists.Filter(courses, MatchesQuery(query))
  }

  /** A course is shown exactly when it is loaded and matches the search. */
  lemma FilteredCoursesMembership(courses: seq<Course>, query: string, c: Course)
    ensures c in FilteredCourses(courses, query) <==> c in courses && Matches(c, query)
  {
    Lists.FilterMembership(courses, MatchesQuery(query), c);
  }

  /** The shown courses keep the loaded order. */
  lemma FilteredCoursesInOrder(courses: seq<Course>, query: string)
    ensures Lists.IsSubsequence(FilteredCourses(courses, query), courses)
  {
    Lists.FilterIsSubsequence(courses, MatchesQuery(query));
  }

  /** An empty search shows every course. */
  lemma EmptyQueryShowsAll(courses: seq<Course>)
    ensures FilteredCourses(courses, "") == courses
  {
    forall i | 0 <= i < |courses|
      ensures MatchesQuery("")(courses[i])
    {
      Text.ContainsEmpty(Text.Lower(OrEmpty(courses[i].name)));
    }
    Lists.FilterKeepsAll(courses, MatchesQuery(""));
  }

  /** Searching the shown courses again by the same query shows the same. */
  lemma FilteredCoursesIdempotent(courses: seq<Course>, query: string)
    ensures FilteredCourses(FilteredCourses(courses, query), query) == FilteredCourses(courses, query)
  {
    Lists.FilterIdempotent(courses, MatchesQuery(query));
  }

  function Credits(c: Course): int { c.credits }
  function Capacity(c: Course): int { c.capacity }

  /** The three statistics cards. */
  datatype CourseStats = CourseStats(count: int, totalCredits: int, totalCapacity: int)

  /** The statistics over the loaded (unfiltered) list, computed with
      `reduce` from 0. */
  function Stats(courses: seq<Course>): (s: CourseStats)
    ensures s.count == |courses|
    ensures s.totalCredits == Lists.Sum(courses, Credits)
    ensures s.totalCapacity == Lists.Sum(courses, Capacity)
  {
    CourseStats(|courses|, Lists.Reduce(courses, Credits, 0), Lists.Reduce(courses, Capacity, 0))
  }

  /** The totals cover every loaded course: those the search shows plus
      those it hides. */
  lemma StatsCoverHiddenCourses(courses: seq<Course>, query: string)
    ensures Stats(courses).totalCredits ==
      Lists.Sum(FilteredCourses(courses, query), Credits)
      + Lists.Sum(Lists.Filter(courses, Lists.Not(MatchesQuery(query))), Credits)
  {
    Lists.SumSplitsByFilter(courses, MatchesQuery(query), Credits);
  }

  class CoursesContainer {
    var courses: seq<Course>
    var loading: bool
    var searchQuery: string
    var showCreateModal: bool
    var isEditing: bool
    var draft: Course
    /** The gateway calls issued so far, oldest first. */
    var calls: seq<Call>

    /** The initial component state, before the mount-time load. */
    constructor ()
      ensures courses == [] && loading && searchQuery == ""
      ensures !showCreateModal && !isEditing && draft == DefaultDraft && calls == []
    {
      courses := [];
      loading := true;
      searchQuery := "";
      showCreateModal := false;
      isEditing := false;
      draft := DefaultDraft;
      calls := [];
    }

    /** The courses currently shown. */
    function Visible(): seq<Course>
      reads this
    {
      FilteredCourses(courses, searchQuery)
    }

    /** `loadCourses`: with a token, the list becomes the fetched array, or
        empty for any other answer or a failure; without one it is kept. */
    method LoadCourses(token: Option<string>, reply: Fetched<Course>)
      modifies this
      ensures !loading
      ensures Truthy(token) ==> courses == ItemsOrEmpty(reply) && calls == old(calls) + [ListCourses]
      ensures !Truthy(token) ==> courses == old(courses) && calls == old(calls)
      ensures searchQuery == old(searchQuery) && showCreateModal == old(showCreateModal)
      ensures isEditing == old(isEditing) && draft == old(draft)
    {
      loading := true;
      if Truthy(token) {
        calls := calls + [ListCourses];
        match reply
        case Array(items) =>
          courses := items;
        case NonArray =>
          courses := [];
        case Threw =>
          courses := [];
      }
      loading := false;
    }

    /** `handleCreate`: with a token, sends the draft as an update (by its
        `courseId`) when editing, else as a create; once that resolves,
        whatever its body, closes the modal, leaves edit mode, resets the
        draft and reloads. A rejected call ends the handler there. */
    method HandleCreate(token: Option<string>, written: Written, reply: Fetched<Course>)
      modifies this
      ensures !Truthy(token) ==> unchanged(this)
      ensures Truthy(token) ==>
        var write := if old(isEditing) then UpdateCourse(old(draft).courseId, old(draft)) else CreateCourse(old(draft));
        && (written.Rejected? ==>
             calls == old(calls) + [write]
             && courses == old(courses) && loading == old(loading) && searchQuery == old(searchQuery)
             && showCreateModal == old(showCreateModal) && isEditing == old(isEditing) && draft == old(draft))
        && (written.Resolved? ==>
             calls == old(calls) + [write, ListCourses]
             && courses == ItemsOrEmpty(reply) && !loading && searchQuery == old(searchQuery)
             && !showCreateModal && !isEditing && draft == DefaultDraft)
    {
      if Truthy(token) {
        if isEditing {
          calls := calls + [UpdateCourse(draft.courseId, draft)];
        } else {
          calls := calls + [CreateCourse(draft)];
        }
        if written.Rejected? {
          return;
        }
        showCreateModal := false;
        isEditing := false;
        draft := DefaultDraft;
        LoadCourses(token, reply);
      }
    }

    /** `handleEdit`: the draft becomes a copy of the course, in edit mode,
        with the modal open. */
    method HandleEdit(course: Course)
      modifies this
      ensures draft == course && isEditing && showCreateModal
      ensures courses == old(courses) && loading == old(loading) && searchQuery == old(searchQuery)
      ensures calls == old(calls)
    {
      draft := Course(course.courseId, course.courseCode, course.name, course.description, course.year,
                      course.term, course.faculty, course.credits, course.capacity);
      isEditing := true;
      showCreateModal := true;
    }

    /** `handleDelete`: only when the user confirms and there is a token,
        deletes the course and then, once that resolves, reloads. */
    method HandleDelete(token: Option<string>, id: int, confirmed: bool, written: Written, reply: Fetched<Course>)
      modifies this
      ensures !(confirmed && Truthy(token)) ==> unchanged(this)
      ensures confirmed && Truthy(token) && written.Rejected? ==>
        calls == old(calls) + [DeleteCourse(id)] && courses == old(courses) && loading == old(loading)
      ensures confirmed && Truthy(token) && written.Resolved? ==>
        calls == old(calls) + [DeleteCourse(id), ListCourses] && courses == ItemsOrEmpty(reply) && !loading
      ensures searchQuery == old(searchQuery) && showCreateModal == old(showCreateModal)
      ensures isEditing == old(isEditing) && draft == old(draft)
    {
      if confirmed {
        if Truthy(token) {
          calls := calls + [DeleteCourse(id)];
          if written.Resolved? {
            LoadCourses(token, reply);
          }
        }
      }
    }

    /** The "Add Course" button: a default draft, create mode, modal open. */
    method OpenAddForm()
      modifies this
      ensures draft == DefaultDraft && !isEditing && showCreateModal
      ensures courses == old(courses) && loading == old(loading) && searchQuery == old(searchQuery)
      ensures calls == old(calls)
    {
      draft := DefaultDraft;
      isEditing := false;
      showCreateModal := true;
    }

    /** The search box's `onChange`. */
    method SetSearchQuery(query: string)
      modifies this
      ensures searchQuery == query
      ensures Visible() == FilteredCourses(old(courses), query)
      ensures courses == old(courses) && loading == old(loading) && showCreateModal == old(showCreateModal)
      ensures isEditing == old(isEditing) && draft == old(draft) && calls == old(calls)
    {
      searchQuery := query;
    }
  }
}
