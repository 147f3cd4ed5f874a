/** The client's view of the backend: the record shapes the gateway decodes,
    the outcomes of its calls, and the calls themselves. The HTTP requests
    are not modelled; each call's outcome is an input to the caller. */
module Api {
  import opened Wrappers

  /** A course as decoded from JSON. The four text fields the search reads
      defensively (`?.`) may be missing. The create/update request has the
      same nine fields and is represented by the same type. */
  datatype Course = Course(
    courseId: int,
    courseCode: Option<string>,
    name: Option<string>,
    description: Option<string>,
    year: int,
    term: string,
    faculty: Option<string>,
    credits: int,
    capacity: int)

  /** A specialisation; its request has the same six fields. */
  datatype Specialisation = Specialisation(
    specialisationId: int,
    code: Option<string>,
    name: Option<string>,
    description: Option<string>,
    year: int,
    creditsRequired: int)

  /** What an awaited list call produced: a JSON array, some other JSON
      value, or a thrown error (transport or parse failure). */
  datatype Fetched<T> = Array(items: seq<T>) | NonArray | Threw

  /** What an awaited mutation produced: any response body at all, or a
      thrown error that propagates out of the handler. */
  datatype Written = Resolved | Rejected

  /** The gateway operations the controllers invoke. */
  datatype Call =
    | ListCourses
    | CreateCourse(course: Course)
    | UpdateCourse(id: int, course: Course)
    | DeleteCourse(id: int)
    | ListSpecialisations
    | CreateSpecialisation(specialisation: Specialisation)
    | UpdateSpecialisation(id: int, specialisation: Specialisation)
    | DeleteSpecialisation(id: int)
    | GetSpecialisationCourses(id: int)

  /** `if (token)`: a token that is present and not empty. */
  function Truthy(token: Option<string>): (truthy: bool)
    ensures truthy <==> token != None && token != Some("")
  {
    token.Some? && token.value != ""
  }

  /** The items a list load ends with: the array when one came back,
      otherwise nothing. */
  function ItemsOrEmpty<T>(reply: Fetched<T>): (items: seq<T>)
    ensures reply.Array? ==> items == reply.items
    ensures !reply.Array? ==> items == []
  {
    if reply.Array? then reply.items else []
  }

  /** A missing text field is searched as "" (`field?.toLowerCase() || ''`). */
  function OrEmpty(s: Option<string>): string {
    s.GetOr("")
  }

  /** The client's admin gate for showing controls: `role === 'admin'`. */
  function ShowsAdminControls(role: Option<string>): (shown: bool)
    ensures shown <==> role.Some? && role.value == "admin"
  {
    role == Some("admin")
  }
}
