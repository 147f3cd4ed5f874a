/** The course REST endpoints: listing is open to everyone; creating,
    updating and deleting are reserved for admins. The course service is
    abstract: its answers are parameters, and each handler reports which
    service operation it invoked. */
module CourseController {
  import opened Wrappers
  import Text
  import opened CourseRequestDto
  import opened CourseMapper
  import opened AuthService

  datatype Body =
    | CourseList(courses: seq<CourseResponse>)
    | CourseBody(course: CourseResponse)
    | ErrorBody(error: string)
    | MessageBody(message: string)
    | NoBody

  datatype Response = Response(status: int, body: Body)

  /** The course-service operation a handler invoked. */
  datatype ServiceCall =
    | GetAllCourses
    | CreateCourse(request: CourseRequest)
    | UpdateCourse(id: int, request: CourseRequest)
    | DeleteCourse(id: int)

  datatype Handled = Handled(response: Response, call: Option<ServiceCall>)

  /** A body rejected by `@Valid` is answered with 400 before the handler
      runs; the error body Spring produces is not modelled. */
  const BadRequest := Handled(Response(400, NoBody), None)

  /** `String.equalsIgnoreCase` on ASCII text: equal strings match, and
      matching strings have the same length. */
  function EqualsIgnoreCase(a: string, b: string): (same: bool)
    ensures a == b ==> same
    ensures same <==> |a| == |b| && forall i :: 0 <= i < |a| ==> Text.LowerChar(a[i]) == Text.LowerChar(b[i])
  {
    assert |a| == |b| && (forall i :: 0 <= i < |a| ==> Text.LowerChar(a[i]) == Text.LowerChar(b[i]))
      ==> Text.Lower(a) == Text.Lower(b);
    Text.Lower(a) == Text.Lower(b)
  }

  /** `isAdmin`: the token's recorded role is "admin", ignoring case. */
  function IsAdmin(auth: AuthService, token: Option<string>): (b: bool)
    reads auth
    ensures token.None? ==> !b
    ensures b <==> token.Some? && token.value in auth.tokenRoles && EqualsIgnoreCase(auth.tokenRoles[token.value], "admin")
  {
    if token.None? then false
    else
      var role := auth.GetRoleFromToken(token);
      role.Some? && EqualsIgnoreCase(role.value, "admin")
  }

  /** The admin check accepts "admin" in any letter case. */
  lemma {:induction false} AdminInAnyCase(role: string)
    requires |role| == 5
    requires forall i :: 0 <= i < 5 ==> Text.LowerChar(role[i]) == "admin"[i]
    ensures EqualsIgnoreCase(role, "admin")
  {
    assert Text.Lower("admin") == "admin";
    assert Text.Lower(role) == "admin";
  }

  /** `GET /api/courses`: no token check, always 200 with every course. */
  function List(all: seq<CourseResponse>): (r: Handled)
    ensures r.response.status == 200 && r.response.body == CourseList(all)
    ensures r.call == Some(GetAllCourses)
  {
    Handled(Response(200, CourseList(all)), Some(GetAllCourses))
  }

  /** `POST /api/courses`; `created` is what the service returns. */
  function Create(auth: AuthService, token: Option<string>, dto: CourseRequest, created: CourseResponse): (r: Handled)
    reads auth
    ensures !Valid(dto) ==> r == BadRequest
    ensures Valid(dto) && !IsAdmin(auth, token) ==>
      r == Handled(Response(403, ErrorBody("Only admins can create courses")), None)
    ensures Valid(dto) && IsAdmin(auth, token) ==>
      r == Handled(Response(200, CourseBody(created)), Some(CreateCourse(dto)))
  {
    if !Valid(dto) then BadRequest
    else if !IsAdmin(auth, token) then Handled(Response(403, ErrorBody("Only admins can create courses")), None)
    else Handled(Response(200, CourseBody(created)), Some(CreateCourse(dto)))
  }

  /** `PUT /api/courses/{id}`; `updated` is the service's answer, empty when
      no course has that id. */
  function Update(auth: AuthService, token: Option<string>, id: int, dto: CourseRequest,
                  updated: Option<CourseResponse>): (r: Handled)
    reads auth
    ensures !Valid(dto) ==> r == BadRequest
    ensures Valid(dto) && !IsAdmin(auth, token) ==>
      r == Handled(Response(403, ErrorBody("Only admins can update courses")), None)
    ensures Valid(dto) && IsAdmin(auth, token) ==> r.call == Some(UpdateCourse(id, dto))
    ensures Valid(dto) && IsAdmin(auth, token) && updated.None? ==> r.response == Response(404, NoBody)
    ensures Valid(dto) && IsAdmin(auth, token) && updated.Some? ==> r.response == Response(200, CourseBody(updated.value))
  {
    if !Valid(dto) then BadRequest
    else if !IsAdmin(auth, token) then Handled(Response(403, ErrorBody("Only admins can update courses")), None)
    else
      var response := if updated.Some? then Response(200, CourseBody(updated.value)) else Response(404, NoBody);
      Handled(response, Some(UpdateCourse(id, dto)))
  }

  /** `DELETE /api/courses/{id}`; `deleted` is the service's answer. */
  function Delete(auth: AuthService, token: Option<string>, id: int, deleted: bool): (r: Handled)
    reads auth
    ensures !IsAdmin(auth, token) ==>
      r == Handled(Response(403, ErrorBody("Only admins can delete courses")), None)
    ensures IsAdmin(auth, token) ==> r.call == Some(DeleteCourse(id))
    ensures IsAdmin(auth, token) && !deleted ==> r.response == Response(404, NoBody)
    ensures IsAdmin(auth, token) && deleted ==> r.response == Response(200, MessageBody("Deleted"))
  {
    if !IsAdmin(auth, token) then Handled(Response(403, ErrorBody("Only admins can delete courses")), None)
    else if !deleted then Handled(Response(404, NoBody), Some(DeleteCourse(id)))
    else Handled(Response(200, MessageBody("Deleted")), Some(DeleteCourse(id)))
  }

  /** An answer that reaches the service only for an admin token with a
      valid session, and is 403 exactly when a valid request comes from
      anyone else. */
  predicate Guarded(auth: AuthService, token: Option<string>, h: Handled)
    reads auth
  {
    && (h.call.Some? ==> IsAdmin(auth, token) && auth.IsTokenValid(token))
    && (h.response.status == 403 <==> h.response != BadRequest.response && !IsAdmin(auth, token))
  }

  /** All three mutating endpoints are guarded. */
  lemma OnlyAdminsMutate(auth: AuthService, token: Option<string>, id: int, dto: CourseRequest,
                         created: CourseResponse, updated: Option<CourseResponse>, deleted: bool)
    requires auth.Valid()
    ensures Guarded(auth, token, Create(auth, token, dto, created))
    ensures Guarded(auth, token, Update(auth, token, id, dto, updated))
    ensures Guarded(auth, token, Delete(auth, token, id, deleted))
  {
    RoleKnownIffValid(auth, token);
  }
}
