/** The body of a course create/update request and its bean-validation
    constraints (`@NotNull`, `@NotBlank`, `@Min`, `@Max`). */
module CourseRequestDto {
  import opened Wrappers
  import Text

  /** A course request; every field is a nullable Java reference. */
  datatype CourseRequest = CourseRequest(
    courseId: Option<int>,
    courseCode: Option<string>,
    name: Option<string>,
    description: Option<string>,
    year: Option<int>,
    term: Option<string>,
    faculty: Option<string>,
    credits: Option<int>,
    capacity: Option<int>)

  /** `@NotNull`. */
  function Present<T>(v: Option<T>): (present: bool)
    ensures present <==> v != None
  {
    v.Some?
  }

  /** `@NotBlank`: present, and something is left after `trim()`. */
  function NotBlank(s: Option<string>): (ok: bool)
    ensures ok <==> s.Some? && Text.Trim(s.value) != ""
  {
    s.Some? && !Text.IsBlank(s.value)
  }

  /** `@Min(lo)` on an `Integer`: null passes. */
  function AtLeast(v: Option<int>, lo: int): (ok: bool)
    ensures !ok <==> v.Some? && v.value < lo
  {
    v.None? || v.value >= lo
  }

  /** `@Max(hi)` on an `Integer`: null passes. */
  function AtMost(v: Option<int>, hi: int): (ok: bool)
    ensures !ok <==> v.Some? && v.value > hi
  {
    v.None? || v.value <= hi
  }

  /** One constraint failure, one per annotation that can fail. */
  datatype Violation =
    | CourseIdMissing | CourseCodeBlank | NameBlank | YearMissing | TermBlank
    | FacultyBlank | CreditsTooLow | CreditsTooHigh | CapacityTooLow

  /** The message each annotation carries. */
  function Message(v: Violation): (m: string)
    ensures |m| > 0
  {
    match v
    case CourseIdMissing => "Course ID is required"
    case CourseCodeBlank => "Course code is required"
    case NameBlank => "Course name is required"
    case YearMissing => "Year is required"
    case TermBlank => "Term is required"
    case FacultyBlank => "Faculty is required"
    case CreditsTooLow => "Credits must be at least 1"
    case CreditsTooHigh => "Credits cannot exceed 6"
    case CapacityTooLow => "Capacity must be at least 1"
  }

  /** Each message names its constraint: two different violations never
      report the same text. */
  lemma MessagesDistinct(v: Violation, w: Violation)
    requires v != w
    ensures Message(v) != Message(w)
  {
  }

  /** Whether `d` fails the constraint behind `v`: a null for `@NotNull`,
      a null or trimmed-empty text for `@NotBlank`, a given value out of
      range for `@Min`/`@Max`. */
  function Fails(d: CourseRequest, v: Violation): (failed: bool)
    ensures v.CourseIdMissing? ==> (failed <==> d.courseId.None?)
    ensures v.YearMissing? ==> (failed <==> d.year.None?)
    ensures v.CourseCodeBlank? ==> (failed <==> d.courseCode.None? || Text.Trim(d.courseCode.value) == "")
    ensures v.NameBlank? ==> (failed <==> d.name.None? || Text.Trim(d.name.value) == "")
    ensures v.TermBlank? ==> (failed <==> d.term.None? || Text.Trim(d.term.value) == "")
    ensures v.FacultyBlank? ==> (failed <==> d.faculty.None? || Text.Trim(d.faculty.value) == "")
    ensures v.CreditsTooLow? ==> (failed <==> d.credits.Some? && d.credits.value < 1)
    ensures v.CreditsTooHigh? ==> (failed <==> d.credits.Some? && d.credits.value > 6)
    ensures v.CapacityTooLow? ==> (failed <==> d.capacity.Some? && d.capacity.value < 1)
  {
    match v
    case CourseIdMissing => !Present(d.courseId)
    case CourseCodeBlank => !NotBlank(d.courseCode)
    case NameBlank => !NotBlank(d.name)
    case YearMissing => !Present(d.year)
    case TermBlank => !NotBlank(d.term)
    case FacultyBlank => !NotBlank(d.faculty)
    case CreditsTooLow => !AtLeast(d.credits, 1)
    case CreditsTooHigh => !AtMost(d.credits, 6)
    case CapacityTooLow => !AtLeast(d.capacity, 1)
  }

  const AllViolations: set<Violation> :=
    {CourseIdMissing, CourseCodeBlank, NameBlank, YearMissing, TermBlank,
     FacultyBlank, CreditsTooLow, CreditsTooHigh, CapacityTooLow}

  /** The constraints `d` violates. */
  function Violations(d: CourseRequest): (vs: set<Violation>)
    ensures CourseIdMissing in vs <==> d.courseId.None?
    ensures YearMissing in vs <==> d.year.None?
    ensures CourseCodeBlank in vs <==> !NotBlank(d.courseCode)
    ensures NameBlank in vs <==> !NotBlank(d.name)
    ensures TermBlank in vs <==> !NotBlank(d.term)
    ensures FacultyBlank in vs <==> !NotBlank(d.faculty)
    ensures CreditsTooLow in vs <==> d.credits.Some? && d.credits.value < 1
    ensures CreditsTooHigh in vs <==> d.credits.Some? && d.credits.value > 6
    ensures (CreditsTooLow in vs || CreditsTooHigh in vs) <==> d.credits.Some? && !(1 <= d.credits.value <= 6)
    ensures CapacityTooLow in vs <==> d.capacity.Some? && d.capacity.value < 1
    ensures !(CreditsTooLow in vs && CreditsTooHigh in vs)
  {
    var vs := set v | v in AllViolations && Fails(d, v);
    assert forall v :: v in vs <==> Fails(d, v);
    vs
  }

  /** A request passes `@Valid` when it violates no constraint; in particular
      its course id and year are present. */
  function Valid(d: CourseRequest): (valid: bool)
    ensures valid ==> d.courseId.Some? && d.year.Some?
  {
    Violations(d) == {}
  }

  /** The constraints field by field: `courseId` and `year` present; code,
      name, term and faculty not blank; credits, if given, in 1..6; capacity,
      if given, at least 1; `description` free. */
  lemma ValidIff(d: CourseRequest)
    ensures Valid(d) <==>
      && d.courseId.Some? && d.year.Some?
      && NotBlank(d.courseCode) && NotBlank(d.name) && NotBlank(d.term) && NotBlank(d.faculty)
      && (d.credits.None? || 1 <= d.credits.value <= 6)
      && (d.capacity.None? || d.capacity.value >= 1)
  {
    if Valid(d) {
      forall v | v in AllViolations
        ensures !Fails(d, v)
      {
        assert v !in Violations(d);
      }
      assert !Fails(d, CourseCodeBlank) && !Fails(d, NameBlank) && !Fails(d, TermBlank) && !Fails(d, FacultyBlank);
      assert !Fails(d, CreditsTooLow) && !Fails(d, CreditsTooHigh);
    } else {
      var m :| m in Violations(d);
      assert Fails(d, m);
    }
  }

  /** The description takes part in no constraint. */
  lemma DescriptionUnconstrained(d: CourseRequest, description: Option<string>)
    ensures Valid(d.(description := description)) <==> Valid(d)
  {
    ValidIff(d);
    ValidIff(d.(description := description));
  }

  /** The eight-argument constructor: every field but `courseId`. */
  function NewCourseRequest(courseCode: Option<string>, name: Option<string>, description: Option<string>,
                            year: Option<int>, term: Option<string>, faculty: Option<string>,
                            credits: Option<int>, capacity: Option<int>): (d: CourseRequest)
    ensures d.courseId.None? && !Valid(d)
    ensures d.(courseId := Some(0)) == CourseRequest(Some(0), courseCode, name, description, year, term, faculty, credits, capacity)
  {
    CourseRequest(None, courseCode, name, description, year, term, faculty, credits, capacity)
  }

  /** `setCourseId`. */
  function WithCourseId(d: CourseRequest, courseId: Option<int>): (r: CourseRequest)
    ensures r.courseId == courseId
    ensures r.(courseId := d.courseId) == d
  {
    d.(courseId := courseId)
  }

  /** Once the id is set, a constructed request is valid exactly when its
      other eight fields meet their constraints. */
  lemma ConstructedThenIdSet(courseCode: Option<string>, name: Option<string>, description: Option<string>,
                             year: Option<int>, term: Option<string>, faculty: Option<string>,
                             credits: Option<int>, capacity: Option<int>, id: int)
    ensures var d := WithCourseId(NewCourseRequest(courseCode, name, description, year, term, faculty, credits, capacity), Some(id));
      Valid(d) <==>
        && year.Some? && NotBlank(courseCode) && NotBlank(name) && NotBlank(term) && NotBlank(faculty)
        && AtLeast(credits, 1) && AtMost(credits, 6) && AtLeast(capacity, 1)
  {
    ValidIff(WithCourseId(NewCourseRequest(courseCode, name, description, year, term, faculty, credits, capacity), Some(id)));
  }
}
