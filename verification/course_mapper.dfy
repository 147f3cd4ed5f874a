/** Conversions between course requests, the course entity and course
    responses. The entity is an object that `updateEntity` changes in place. */
module CourseMapper {
  import opened Wrappers
  import opened CourseRequestDto

  /** The course response; its `courseId` is a Java `Long`. */
  datatype CourseResponse = CourseResponse(
    courseId: Option<int>,
    courseCode: Option<string>,
    name: Option<string>,
    description: Option<string>,
    year: Option<int>,
    term: Option<string>,
    faculty: Option<string>,
    credits: Option<int>,
    capacity: Option<int>)

  /** The value of a course entity's fields at one moment. */
  datatype CourseState = CourseState(
    id: Option<int>,
    courseId: Option<int>,
    courseCode: Option<string>,
    name: Option<string>,
    description: Option<string>,
    year: Option<int>,
    term: Option<string>,
    faculty: Option<string>,
    credits: Option<int>,
    capacity: Option<int>)

  /** The persistent course entity: `id` is the database key, `courseId` the
      course number supplied by the client. */
  class Course {
    var id: Option<int>
    var courseId: Option<int>
    var courseCode: Option<string>
    var name: Option<string>
    var description: Option<string>
    var year: Option<int>
    var term: Option<string>
    var faculty: Option<string>
    var credits: Option<int>
    var capacity: Option<int>

    /** `new Course()`: every field null. */
    constructor ()
      ensures State() == CourseState(None, None, None, None, None, None, None, None, None, None)
    {
      id, courseId, courseCode, name, description := None, None, None, None, None;
      year, term, faculty, credits, capacity := None, None, None, None, None;
    }

    function State(): CourseState
      reads this
    {
      CourseState(id, courseId, courseCode, name, description, year, term, faculty, credits, capacity)
    }
  }

  /** The entity `toEntity` builds from a request: all nine request fields,
      no database id. */
  function EntityOf(dto: CourseRequest): (s: CourseState)
    ensures s.id.None? && s.courseId == dto.courseId
    ensures s.courseCode == dto.courseCode && s.name == dto.name && s.description == dto.description
    ensures s.year == dto.year && s.term == dto.term && s.faculty == dto.faculty
    ensures s.credits == dto.credits && s.capacity == dto.capacity
  {
    CourseState(None, dto.courseId, dto.courseCode, dto.name, dto.description, dto.year,
                dto.term, dto.faculty, dto.credits, dto.capacity)
  }

  /** `toEntity`: null for a null request, otherwise a fresh entity holding
      the request's nine fields, `courseId` included. */
  method ToEntity(dto: Option<CourseRequest>) returns (course: Course?)
    ensures course == null <==> dto.None?
    ensures course != null ==> fresh(course) && course.State() == EntityOf(dto.value)
  {
    if dto.None? {
      return null;
    }
    var d := dto.value;
    course := new Course();
    course.courseId := d.courseId;
    course.courseCode := d.courseCode;
    course.name := d.name;
    course.description := d.description;
    course.year := d.year;
    course.term := d.term;
    course.faculty := d.faculty;
    course.credits := d.credits;
    course.capacity := d.capacity;
  }

  /** The response for an entity state: the database id becomes `courseId`,
      the course number is dropped, and the other eight fields are copied. */
  function ResponseOf(s: CourseState): (r: CourseResponse)
    ensures r.courseId == s.id
    ensures r.courseCode == s.courseCode && r.name == s.name && r.description == s.description
    ensures r.year == s.year && r.term == s.term && r.faculty == s.faculty
    ensures r.credits == s.credits && r.capacity == s.capacity
  {
    CourseResponse(s.id, s.courseCode, s.name, s.description, s.year, s.term, s.faculty, s.credits, s.capacity)
  }

  /** `toDTO`: null for a null entity, otherwise the entity's fields with
      `getId()`, not `courseId`, as the response's `courseId`. */
  function ToDTO(entity: Course?): (r: Option<CourseResponse>)
    reads entity
    ensures r.None? <==> entity == null
    ensures r.Some? ==> r.value.courseId == entity.id
    ensures r.Some? ==>
      r.value.(courseId := entity.courseId) ==
        CourseResponse(entity.courseId, entity.courseCode, entity.name, entity.description, entity.year,
                       entity.term, entity.faculty, entity.credits, entity.capacity)
  {
    if entity == null then None else Some(ResponseOf(entity.State()))
  }

  /** `toDTOList`: null for a null list, otherwise `toDTO` of each element, in
      order (a null element maps to a null response). */
  function ToDTOList(entities: Option<seq<Course?>>): (r: Option<seq<Option<CourseResponse>>>)
    reads if entities.Some? then set i | 0 <= i < |entities.value| :: entities.value[i] else {}
    ensures r.None? <==> entities.None?
    ensures r.Some? ==> |r.value| == |entities.value|
    ensures r.Some? ==> forall i :: 0 <= i < |r.value| ==> r.value[i] == ToDTO(entities.value[i])
  {
    if entities.None? then None
    else
      var es := entities.value;
      Some(seq(|es|, i reads if 0 <= i < |es| then {es[i]} else {} requires 0 <= i < |es| => ToDTO(es[i])))
  }

  /** The state `updateEntity` leaves: the request's eight non-id fields over
      the entity's `id` and `courseId`. */
  function Updated(s: CourseState, dto: CourseRequest): (t: CourseState)
    ensures t.id == s.id && t.courseId == s.courseId
    ensures t.(id := None, courseId := None) == EntityOf(dto).(courseId := None)
  {
    s.(courseCode := dto.courseCode, name := dto.name, description := dto.description, year := dto.year,
       term := dto.term, faculty := dto.faculty, credits := dto.credits, capacity := dto.capacity)
  }

  /** Updating twice with the same request is the same as updating once. */
  lemma UpdatedIdempotent(s: CourseState, dto: CourseRequest)
    ensures Updated(Updated(s, dto), dto) == Updated(s, dto)
  {
  }

  /** The response for an updated entity carries the request's eight fields
      and the entity's database id. */
  lemma UpdatedResponse(s: CourseState, dto: CourseRequest)
    ensures ResponseOf(Updated(s, dto)) ==
      CourseResponse(s.id, dto.courseCode, dto.name, dto.description, dto.year, dto.term,
                     dto.faculty, dto.credits, dto.capacity)
  {
  }

  /** A freshly mapped entity has no database id yet, so its response has a
      null `courseId` whatever the request's `courseId` was. */
  lemma FreshEntityResponseHasNoId(dto: CourseRequest)
    ensures ResponseOf(EntityOf(dto)).courseId.None?
    ensures ResponseOf(EntityOf(dto)).(courseId := dto.courseId) ==
      CourseResponse(dto.courseId, dto.courseCode, dto.name, dto.description, dto.year, dto.term,
                     dto.faculty, dto.credits, dto.capacity)
  {
  }

  /** `updateEntity`: a no-op when either argument is null; otherwise the
      entity takes the request's eight non-id fields and keeps `id` and
      `courseId`. */
  method UpdateEntity(entity: Course?, dto: Option<CourseRequest>)
    modifies entity
    ensures entity != null ==> entity.State() == if dto.None? then old(entity.State()) else Updated(old(entity.State()), dto.value)
  {
    if entity == null || dto.None? {
      return;
    }
    var d := dto.value;
    entity.courseCode := d.courseCode;
    entity.name := d.name;
    entity.description := d.description;
    entity.year := d.year;
    entity.term := d.term;
    entity.faculty := d.faculty;
    entity.credits := d.credits;
    entity.capacity := d.capacity;
  }
}
