# Academic course manager — a Dafny model

The system is a small course-management web application. A Spring Boot
backend signs users in with Google, keeps an in-memory table of bearer
tokens and their roles, authenticates each request from its
`X-Auth-Token` header, validates course requests, maps between
course requests, JPA course entities and course responses, and lets only
admins create, update or delete courses. A React frontend keeps the session
token and role in browser storage, shows the login screen until a token is
present, and offers two list screens (courses and specialisations) with a
case-insensitive search box, totals, and admin-only create/edit/delete
controls that call the backend and reload the list.

This project models those pieces:

- `CourseRequestDto` — the course request record, its bean-validation
  constraints (as a set of violations) and its constructor/setter.
- `AuthMapper`, `CourseMapper` — the mappers. A JPA `Course` entity is a
  class, because `updateEntity` changes it in place.
- `AuthService` — the token table, Google sign-in with the admin/student
  role decision, logout and token lookups, as a class whose invariant ties
  tokens, roles and stored users together.
- `AuthFilter` — the per-request filter that puts an authentication with
  the user's role as its one authority into the security context.
- `CourseController` — the course endpoints, with the case-insensitive
  admin check and the status codes and bodies they return.
- `AuthContext`, `App`, `LoginContainer`, `CoursesContainer`,
  `SpecialisationsContainer`, `SpecialisationTable` — the frontend session,
  page switch, login handler, the two list screens (as classes over their
  component state, with a log of the gateway calls they issue) and the
  table presentation.
- `Api` — the gateway's data shapes. A gateway call's outcome is an input:
  an array, another JSON value, or a thrown error for a read; resolved or
  rejected for a write.
- `Text`, `Lists`, `Wrappers` — lower-casing and substring search as
  JavaScript does them on ASCII text, `Array.filter`/`reduce`, and `Option`.
- `RoleChecks` — how the backend's and the client's admin checks relate.

Java `null` is `None`. Strings are `seq<char>`. Numbers are unbounded
integers. `@NotBlank` follows Hibernate Validator, which treats a string as
blank when trimming it (removing every character up to `' '`) leaves
nothing.

## Model

Java paths below are under `backend/src/main/java/com/example/academic/`
(written out in full in the table).

| member | source | states |
|---|---|---|
| Text.LowerChar | frontend/src/components/containers/CoursesContainer.tsx:105-108 | `toLowerCase` on one character: the result is never an upper-case letter; a changed character was `A`–`Z` and moves up by 32 |
| Text.Lower | frontend/src/components/containers/CoursesContainer.tsx:105-108 | lower-casing keeps the length and lower-cases each position |
| Text.ContainsIffOccurs | frontend/src/components/containers/CoursesContainer.tsx:105-108 | `includes` holds exactly when the needle occurs at some index of the text (both directions, against an independent definition) |
| Text.ContainsEmpty | frontend/src/components/containers/CoursesContainer.tsx:105-108 | every text includes the empty string |
| Text.Contains | frontend/src/components/containers/CoursesContainer.tsx:105-108 | `includes` never finds a needle longer than the text |
| Text.TrimStart | backend/src/main/java/com/example/academic/dto/CourseRequestDTO.java:13-29 | the front of `trim()`: a suffix of the text that starts above U+0020, having dropped only characters up to U+0020 |
| Text.TrimEnd | backend/src/main/java/com/example/academic/dto/CourseRequestDTO.java:13-29 | the back of `trim()`: a prefix of the text that ends above U+0020, having dropped only characters up to U+0020 |
| Text.Trim | backend/src/main/java/com/example/academic/dto/CourseRequestDTO.java:13-29 | `trim()` never lengthens the text and leaves it starting and ending above U+0020 |
| Text.TrimEmptyIffAllSpace | backend/src/main/java/com/example/academic/dto/CourseRequestDTO.java:13-29 | `trim()` leaves nothing exactly when every character is at most U+0020 |
| Text.IsBlank | backend/src/main/java/com/example/academic/dto/CourseRequestDTO.java:13-29 | a string is blank, for `@NotBlank`, exactly when `trim()` leaves nothing |
| Lists.Filter | frontend/src/components/containers/CoursesContainer.tsx:104-109 | `Array.filter` returns no more elements than it is given, and every returned element passes the test |
| Lists.FilterMembership | frontend/src/components/containers/CoursesContainer.tsx:104-109 | an element is kept exactly when it is in the input and passes the test |
| Lists.FilterIsSubsequence | frontend/src/components/containers/CoursesContainer.tsx:104-109 | the kept elements appear in their original order |
| Lists.FilterKeepsAll | frontend/src/components/containers/CoursesContainer.tsx:104-109 | when every element passes, the result is the input |
| Lists.FilterIdempotent | frontend/src/components/containers/CoursesContainer.tsx:104-109 | filtering twice with the same test equals filtering once |
| Lists.FilterCount | frontend/src/components/containers/CoursesContainer.tsx:104-109 | duplicates included, a passing element is kept as often as it occurs and a failing one never |
| Lists.Reduce | frontend/src/components/containers/CoursesContainer.tsx:140 | the left fold `reduce((sum, c) => sum + f(c), acc)` equals `acc` plus the sum of `f` over the list |
| Lists.SumSplitsByFilter | frontend/src/components/containers/CoursesContainer.tsx:140 | a sum splits into the sum over the elements a filter keeps and the sum over those it drops |
| Wrappers.Get | backend/src/main/java/com/example/academic/service/AuthService.java:136-137 | a map lookup yields a value exactly when the key is present, and that value is the stored one |
| Api.Truthy | frontend/src/components/containers/CoursesContainer.tsx:37 | `if (token)` holds exactly for a present, non-empty token |
| Api.ItemsOrEmpty | frontend/src/components/containers/CoursesContainer.tsx:40-49 | a load ends with the fetched array when it is one, and with an empty list for any other answer or a failed call |
| Api.ShowsAdminControls | frontend/src/components/containers/CoursesContainer.tsx:173 | the client shows admin controls exactly when the role is `admin`, letter for letter |
| CourseRequestDto.NotBlank | backend/src/main/java/com/example/academic/dto/CourseRequestDTO.java:13-29 | `@NotBlank` holds exactly when the value is present and something is left after `trim()` |
| CourseRequestDto.Present | backend/src/main/java/com/example/academic/dto/CourseRequestDTO.java:10-11 | `@NotNull` holds exactly when the value is not null |
| CourseRequestDto.AtLeast | backend/src/main/java/com/example/academic/dto/CourseRequestDTO.java:30-35 | `@Min` fails exactly when a value is given and below the bound; null passes |
| CourseRequestDto.AtMost | backend/src/main/java/com/example/academic/dto/CourseRequestDTO.java:31 | `@Max` fails exactly when a value is given and above the bound; null passes |
| CourseRequestDto.Fails | backend/src/main/java/com/example/academic/dto/CourseRequestDTO.java:10-35 | each annotation's failure condition: null for `@NotNull`, null or empty after `trim()` for `@NotBlank`, a given value out of range for `@Min`/`@Max` |
| CourseRequestDto.Message | backend/src/main/java/com/example/academic/dto/CourseRequestDTO.java:10-33 | every constraint carries a non-empty message |
| CourseRequestDto.MessagesDistinct | backend/src/main/java/com/example/academic/dto/CourseRequestDTO.java:10-33 | two different constraints never report the same message |
| CourseRequestDto.Violations | backend/src/main/java/com/example/academic/dto/CourseRequestDTO.java:10-35 | each constraint is reported exactly when it fails: course id and year when null; code, name, term and faculty when not `@NotBlank`; `CreditsTooLow` when credits are given and below 1, `CreditsTooHigh` when given and above 6 (never both); capacity when given and below 1 |
| CourseRequestDto.ValidIff | backend/src/main/java/com/example/academic/dto/CourseRequestDTO.java:10-35 | a request is valid exactly when course id and year are present, code, name, term and faculty are not blank, credits if given lie in 1..6 and capacity if given is at least 1 |
| CourseRequestDto.Valid | backend/src/main/java/com/example/academic/controller/CourseController.java:45 | a request that passes `@Valid` has a course id and a year |
| CourseRequestDto.DescriptionUnconstrained | backend/src/main/java/com/example/academic/dto/CourseRequestDTO.java:19 | the description has no constraint: changing it never changes the violations |
| CourseRequestDto.NewCourseRequest | backend/src/main/java/com/example/academic/dto/CourseRequestDTO.java:41-51 | the eight-argument constructor stores its arguments and leaves the course id null, so the request is not yet valid |
| CourseRequestDto.WithCourseId | backend/src/main/java/com/example/academic/dto/CourseRequestDTO.java:58-60 | `setCourseId` sets the id and changes no other field |
| CourseRequestDto.ConstructedThenIdSet | backend/src/main/java/com/example/academic/dto/CourseRequestDTO.java:41-60 | a request built by the constructor and then given an id is valid exactly when the constructor arguments meet every constraint |
| AuthMapper.ToAuthResponse | backend/src/main/java/com/example/academic/mapper/AuthMapper.java:15-27 | a null user or token gives null; otherwise the response carries the token, the username, the role, and the email as display name (the username when there is no email) |
| AuthMapper.ToAuthResponseNamed | backend/src/main/java/com/example/academic/mapper/AuthMapper.java:37-47 | the overload with a display name: null for a null user or token; otherwise the given name as display name, or the username when the name is null |
| AuthMapper.OverloadsAgree | backend/src/main/java/com/example/academic/mapper/AuthMapper.java:15-47 | the two-argument overload equals the named one given the user's email |
| AuthMapper.CreateGoogleUser | backend/src/main/java/com/example/academic/mapper/AuthMapper.java:56-69 | null when the email or Google id is null; otherwise a user with the email as username and email, the Google id, provider `google` and no role yet |
| AuthMapper.GoogleUserDisplaysEmail | backend/src/main/java/com/example/academic/mapper/AuthMapper.java:15-69 | for a freshly created Google user, both overloads without a name show the email as display name |
| CourseMapper.Course.constructor | backend/src/main/java/com/example/academic/mapper/CourseMapper.java:17 | a new entity has every field null |
| CourseMapper.EntityOf | backend/src/main/java/com/example/academic/mapper/CourseMapper.java:12-29 | the entity built from a request has no database id yet and copies all nine request fields, `courseId` included |
| CourseMapper.ToEntity | backend/src/main/java/com/example/academic/mapper/CourseMapper.java:12-29 | `toEntity` returns null for null, else a fresh entity whose state is built from the request |
| CourseMapper.ResponseOf | backend/src/main/java/com/example/academic/mapper/CourseMapper.java:31-46 | the response carries the database id as `courseId`, drops the course number, and copies the other eight fields |
| CourseMapper.ToDTO | backend/src/main/java/com/example/academic/mapper/CourseMapper.java:31-46 | `toDTO` returns null for null, else the response of the entity's state |
| CourseMapper.ToDTOList | backend/src/main/java/com/example/academic/mapper/CourseMapper.java:48-56 | a null list maps to null; otherwise one response per entity, in order |
| CourseMapper.Updated | backend/src/main/java/com/example/academic/mapper/CourseMapper.java:58-71 | an update keeps the database id and course number and takes every other field from the request |
| CourseMapper.UpdatedIdempotent | backend/src/main/java/com/example/academic/mapper/CourseMapper.java:58-71 | applying the same update twice equals applying it once |
| CourseMapper.UpdatedResponse | backend/src/main/java/com/example/academic/mapper/CourseMapper.java:31-71 | after an update, the response shows the request's fields and the entity's own id |
| CourseMapper.FreshEntityResponseHasNoId | backend/src/main/java/com/example/academic/mapper/CourseMapper.java:12-46 | mapping a request to an entity and straight back gives a response without an id; the request's id is not what the response calls `courseId` |
| CourseMapper.UpdateEntity | backend/src/main/java/com/example/academic/mapper/CourseMapper.java:58-71 | `updateEntity` does nothing when either argument is null, and otherwise leaves the entity in the updated state |
| AuthService.RoleAfterLogin | backend/src/main/java/com/example/academic/service/AuthService.java:63-95 | a new user gets `admin` exactly for the admin email and `student` otherwise; the admin email always ends up with the role `admin`; any other stored user keeps a non-empty role, and a null or empty one becomes `student`; the role is never empty |
| AuthService.RoleMissing | backend/src/main/java/com/example/academic/service/AuthService.java:90 | a role is missing exactly when it is null or empty |
| AuthService.UserAfterLogin | backend/src/main/java/com/example/academic/service/AuthService.java:55-95 | the user after sign-in is the stored user, or a new Google user when there is none and a Google id is given, with the decided role; there is none exactly when neither exists |
| AuthService.AuthService.constructor | backend/src/main/java/com/example/academic/service/AuthService.java:29-42 | the service starts with empty token tables over the given users |
| AuthService.AuthService.FindUserByUsername | backend/src/main/java/com/example/academic/service/AuthService.java:157-159 | finds a stored user exactly when one has that username |
| AuthService.AuthService.GoogleLogin | backend/src/main/java/com/example/academic/service/AuthService.java:52-102 | sign-in records the new token with the user's email and role, saves the user exactly when it is new or its role changed, keeps every other token, and returns the mapped response; it fails (a `NullPointerException` in the source) only when there is no user and no Google id; the invariant is kept |
| AuthService.AuthService.Logout | backend/src/main/java/com/example/academic/service/AuthService.java:110-117 | logout removes the token from both tables when it is non-null, reports whether it was present, and keeps the invariant |
| AuthService.AuthService.IsTokenValid | backend/src/main/java/com/example/academic/service/AuthService.java:125-127 | a token is valid exactly when it is non-null and sign-in recorded it |
| AuthService.AuthService.GetUsernameFromToken | backend/src/main/java/com/example/academic/service/AuthService.java:135-140 | a null or unknown token gives null; otherwise the stored username |
| AuthService.AuthService.GetRoleFromToken | backend/src/main/java/com/example/academic/service/AuthService.java:167-172 | a null or unknown token gives null; otherwise the stored role |
| AuthService.RoleKnownIffValid | backend/src/main/java/com/example/academic/service/AuthService.java:125-172 | under the invariant, a token has a username exactly when it has a role exactly when `isTokenValid` holds |
| AuthFilter.SecurityContext.constructor | backend/src/main/java/com/example/academic/config/AuthFilter.java:50-53 | a request starts with no authentication in its context |
| AuthFilter.FilterChain.constructor | backend/src/main/java/com/example/academic/config/AuthFilter.java:58 | the downstream chain starts not yet invoked |
| AuthFilter.FilterChain.DoFilter | backend/src/main/java/com/example/academic/config/AuthFilter.java:58 | invoking the chain counts one invocation |
| AuthFilter.AuthorityFor | backend/src/main/java/com/example/academic/config/AuthFilter.java:47-48 | the authority text is the user's role, or `student` when the role is null; an empty or whitespace-only role is passed on as it is |
| AuthFilter.AuthFilter.UserFor | backend/src/main/java/com/example/academic/config/AuthFilter.java:35-42 | the user a header resolves to: present exactly when the header is a valid token whose username is stored, and then that stored user |
| AuthFilter.AuthFilter.Rejects | backend/src/main/java/com/example/academic/config/AuthFilter.java:47-48 | `new SimpleGrantedAuthority` fails exactly when the resolved user's role is present and made only of Java whitespace (the empty role included) |
| AuthFilter.AuthFilter.constructor | backend/src/main/java/com/example/academic/config/AuthFilter.java:25-27 | the filter is built over the sign-in service |
| AuthFilter.AuthFilter.AuthenticationFor | backend/src/main/java/com/example/academic/config/AuthFilter.java:33-53 | an authentication is built exactly when the header is a valid token, its username finds a stored user, and that user's authority text has a non-whitespace character; it holds that user and exactly that one authority |
| AuthFilter.AuthFilter.DoFilterInternal | backend/src/main/java/com/example/academic/config/AuthFilter.java:30-59 | the context receives that authentication when there is one and is untouched otherwise; when the authority cannot be built (an empty or whitespace-only role) the filter throws and the chain is never invoked, otherwise it is invoked exactly once |
| AuthFilter.ValidTokenAuthenticates | backend/src/main/java/com/example/academic/config/AuthFilter.java:33-53 | under the service's invariant, every issued token whose user's role is null or has text authenticates without the filter throwing, with the role recorded at sign-in as its authority while the user's role is unchanged |
| AuthFilter.BlankRoleRejected | backend/src/main/java/com/example/academic/config/AuthFilter.java:47-48 | under the invariant, an issued token whose user's role is only whitespace makes the filter throw and installs no authentication |
| AuthFilter.WhitespaceRoleSignInThrows | backend/src/main/java/com/example/academic/service/AuthService.java:84-99 | a stored non-admin user with role `" "` keeps that role through sign-in (only a null or empty role is replaced) and is issued a token, and the filter then throws on that token without entering the chain |
| Text.HasText | backend/src/main/java/com/example/academic/config/AuthFilter.java:48 | a string has text exactly when some character is not Java whitespace, the test `SimpleGrantedAuthority` applies to its role |
| CourseController.IsAdmin | backend/src/main/java/com/example/academic/controller/CourseController.java:87-94 | the admin check holds exactly when the token's role is `admin` ignoring case |
| CourseController.EqualsIgnoreCase | backend/src/main/java/com/example/academic/controller/CourseController.java:92 | two strings match exactly when they have the same length and agree at every position after lower-casing |
| CourseController.AdminInAnyCase | backend/src/main/java/com/example/academic/controller/CourseController.java:87-94 | any role that spells `admin` in any mix of letter cases passes the check |
| CourseController.List | backend/src/main/java/com/example/academic/controller/CourseController.java:37-41 | listing answers 200 with every course and needs no token |
| CourseController.Create | backend/src/main/java/com/example/academic/controller/CourseController.java:43-53 | an invalid body answers 400 before the role check; a non-admin gets 403 with its message and no service call; an admin gets 200 with the created course |
| CourseController.Update | backend/src/main/java/com/example/academic/controller/CourseController.java:55-67 | as create, with 404 when the course does not exist |
| CourseController.Delete | backend/src/main/java/com/example/academic/controller/CourseController.java:69-82 | a non-admin gets 403; an admin gets 200 `Deleted` when the course existed and 404 otherwise |
| CourseController.OnlyAdminsMutate | backend/src/main/java/com/example/academic/controller/CourseController.java:43-94 | no create, update or delete reaches the service unless the token is valid and its role passes the admin check, and each answers 403 exactly when a valid request comes from anyone else |
| AuthContext.LocalStorage.constructor | frontend/src/context/AuthContext.tsx:26-27 | browser storage holds the given entries |
| AuthContext.AuthProvider.constructor | frontend/src/context/AuthContext.tsx:25-27 | the session starts from the stored token and role |
| AuthContext.AuthProvider.Login | frontend/src/context/AuthContext.tsx:29-34 | login stores both keys, sets token and role, and leaves the session authenticated exactly when the token is non-empty |
| AuthContext.AuthProvider.Logout | frontend/src/context/AuthContext.tsx:36-41 | logout removes both keys, clears token and role, and leaves the session signed out |
| AuthContext.AuthProvider.IsAuthenticated | frontend/src/context/AuthContext.tsx:43-45 | `!!token`: authenticated exactly when the token is present and not empty |
| AuthContext.ReloadAfterLogin | frontend/src/context/AuthContext.tsx:25-34 | a session built after login from the same storage has the logged-in token and role |
| AuthContext.ReloadAfterLogout | frontend/src/context/AuthContext.tsx:25-41 | a session built after logout from the same storage is signed out |
| App.AppContent | frontend/src/App.tsx:10-23 | signed out shows the login screen whatever the page; signed in shows the page's list screen |
| App.Shell.Render | frontend/src/App.tsx:10-23 | the app shows the login screen exactly when there is no non-empty token, and the specialisations screen exactly when signed in on that page |
| App.Shell.constructor | frontend/src/App.tsx:12 | the first page is the courses page |
| App.Shell.NavigateToSpecialisations | frontend/src/App.tsx:22 | the courses screen's callback switches to the specialisations page |
| App.Shell.NavigateToCourses | frontend/src/App.tsx:19 | the specialisations screen's callback switches back to courses |
| App.SignIn | frontend/src/App.tsx:10-23 | from a signed-out start, login with any non-empty token replaces the login screen with the courses screen, and the admin controls show exactly when the role is `admin` |
| App.NavigateWhileSignedIn | frontend/src/App.tsx:10-23 | signed in, navigation moves between the two screens, and a reload starts on courses |
| LoginContainer.LoginContainer.constructor | frontend/src/components/containers/LoginContainer.tsx:10-11 | the login screen starts with no error and not loading |
| LoginContainer.LoginContainer.HandleGoogleResponse | frontend/src/components/containers/LoginContainer.tsx:46-56 | a reply with a token logs in and mirrors it in storage; an error reply shows its text, or `Google login failed` when empty; a thrown call leaves loading on; the session changes only on the token branch |
| CoursesContainer.FilteredCourses | frontend/src/components/containers/CoursesContainer.tsx:104-109 | every shown course matches the query in its name, code, description or faculty, ignoring case |
| CoursesContainer.FilteredCoursesMembership | frontend/src/components/containers/CoursesContainer.tsx:104-109 | a course is shown exactly when it is in the list and matches |
| CoursesContainer.FilteredCoursesInOrder | frontend/src/components/containers/CoursesContainer.tsx:104-109 | shown courses keep their list order |
| CoursesContainer.EmptyQueryShowsAll | frontend/src/components/containers/CoursesContainer.tsx:104-109 | an empty query shows every course |
| CoursesContainer.FilteredCoursesIdempotent | frontend/src/components/containers/CoursesContainer.tsx:104-109 | filtering the shown courses again by the same query changes nothing |
| CoursesContainer.Stats | frontend/src/components/containers/CoursesContainer.tsx:134-147 | the totals are the course count and the sums of credits and capacity over all courses |
| CoursesContainer.StatsCoverHiddenCourses | frontend/src/components/containers/CoursesContainer.tsx:104-147 | the totals count every course, the ones the search hides as well as the shown ones |
| CoursesContainer.CoursesContainer.constructor | frontend/src/components/containers/CoursesContainer.tsx:14-29 | the screen starts empty, loading, with an empty query, closed modal and the default draft |
| CoursesContainer.CoursesContainer.LoadCourses | frontend/src/components/containers/CoursesContainer.tsx:35-52 | with a token the list becomes the fetched array, or empty for anything else; without one nothing is fetched; loading ends |
| CoursesContainer.CoursesContainer.HandleCreate | frontend/src/components/containers/CoursesContainer.tsx:54-77 | with a token, updates the draft by its id when editing and creates it otherwise; once that resolves, closes the modal, resets the draft and reloads; a rejected write stops there; without a token nothing changes |
| CoursesContainer.CoursesContainer.HandleEdit | frontend/src/components/containers/CoursesContainer.tsx:79-93 | the draft becomes the course, in edit mode, with the modal open |
| CoursesContainer.CoursesContainer.HandleDelete | frontend/src/components/containers/CoursesContainer.tsx:95-102 | only when confirmed and signed in, deletes by id and, once that resolves, reloads; otherwise nothing changes |
| CoursesContainer.CoursesContainer.OpenAddForm | frontend/src/components/containers/CoursesContainer.tsx:156-174 | the add button opens the modal in create mode with the default draft |
| CoursesContainer.CoursesContainer.SetSearchQuery | frontend/src/components/containers/CoursesContainer.tsx:151-155 | typing sets the query and nothing else; the shown courses become the loaded ones filtered by the new query |
| SpecialisationsContainer.FilteredSpecialisations | frontend/src/components/containers/SpecialisationsContainer.tsx:112-116 | every shown specialisation matches the query in its name, code or description, ignoring case |
| SpecialisationsContainer.FilteredSpecialisationsMembership | frontend/src/components/containers/SpecialisationsContainer.tsx:112-116 | a specialisation is shown exactly when it is in the list and matches |
| SpecialisationsContainer.FilteredSpecialisationsInOrder | frontend/src/components/containers/SpecialisationsContainer.tsx:112-116 | shown specialisations keep their list order |
| SpecialisationsContainer.EmptyQueryShowsAll | frontend/src/components/containers/SpecialisationsContainer.tsx:112-116 | an empty query shows every specialisation |
| SpecialisationsContainer.FilteredSpecialisationsIdempotent | frontend/src/components/containers/SpecialisationsContainer.tsx:112-116 | filtering again by the same query changes nothing |
| SpecialisationsContainer.TotalCredits | frontend/src/components/containers/SpecialisationsContainer.tsx:146 | the credits total is the sum of credits required over all specialisations |
| SpecialisationsContainer.TotalCreditsCoverHidden | frontend/src/components/containers/SpecialisationsContainer.tsx:112-146 | the total counts the specialisations the search hides as well as the shown ones |
| SpecialisationsContainer.SpecialisationsContainer.constructor | frontend/src/components/containers/SpecialisationsContainer.tsx:14-29 | the screen starts empty, loading, with both modals closed, nothing selected and the default draft |
| SpecialisationsContainer.SpecialisationsContainer.LoadSpecialisations | frontend/src/components/containers/SpecialisationsContainer.tsx:35-52 | with a token the list becomes the fetched array, or empty for anything else; loading ends |
| SpecialisationsContainer.SpecialisationsContainer.HandleCreate | frontend/src/components/containers/SpecialisationsContainer.tsx:54-74 | with a token, updates when editing and creates otherwise; once that resolves, closes the modal, resets the draft and reloads |
| SpecialisationsContainer.SpecialisationsContainer.HandleEditClick | frontend/src/components/containers/SpecialisationsContainer.tsx:76-87 | the draft becomes the specialisation, in edit mode, with the modal open |
| SpecialisationsContainer.SpecialisationsContainer.HandleViewCoursesClick | frontend/src/components/containers/SpecialisationsContainer.tsx:89-101 | selects the specialisation and opens the courses modal; with a token, its courses become the fetched array or empty |
| SpecialisationsContainer.SpecialisationsContainer.HandleDelete | frontend/src/components/containers/SpecialisationsContainer.tsx:103-110 | only when confirmed and signed in, deletes by id and, once that resolves, reloads |
| SpecialisationsContainer.SpecialisationsContainer.OpenAddForm | frontend/src/components/containers/SpecialisationsContainer.tsx:162-177 | the add button opens the modal in create mode with the default draft |
| SpecialisationsContainer.SpecialisationsContainer.SetSearchQuery | frontend/src/components/containers/SpecialisationsContainer.tsx:157-161 | typing sets the query and nothing else; the shown specialisations become the loaded ones filtered by the new query |
| SpecialisationTable.DescriptionText | frontend/src/components/presentation/SpecialisationTable.tsx:75-77 | a description longer than 80 characters shows its first 80 and `...`; a shorter one shows whole; a missing or empty one shows `No description`; never more than 83 characters |
| SpecialisationTable.PluralSuffix | frontend/src/components/presentation/SpecialisationTable.tsx:98 | the footer says `specialisations` exactly when the count is not 1 |
| SpecialisationTable.Render | frontend/src/components/presentation/SpecialisationTable.tsx:21-98 | an empty list shows the empty state; otherwise the header count, one row per specialisation in order with its code, title, year, credits and description text, and the footer suffix |
| RoleChecks.CapitalisedAdminDisagrees | backend/src/main/java/com/example/academic/controller/CourseController.java:87-94 | a role stored as `Admin` passes the backend's check but does not show the client's admin controls |
| RoleChecks.ClientGateImpliesBackendGate | frontend/src/components/containers/CoursesContainer.tsx:173 | whenever the client shows admin controls (role exactly `admin`), the backend's check accepts that role |

## Left out

- Network I/O in `frontend/src/api.ts`: each gateway call's outcome is an input (`Fetched`, `Written`), and the call itself is recorded in a log rather than performed.
- Google ID-token parsing, and the random UUID that becomes the session token: the subject, email and name from the parsed token and the new token are parameters of `AuthService.AuthService.GoogleLogin`. The source parses the credential (AuthService.java line 56) and never asks the verifier it builds to check the signature, so an unsigned token naming the admin email would be granted `admin`; the model takes the payload as given and does not model signatures.
- AuthService.AuthService.GoogleLogin: the email taken from the Google payload is assumed non-null.
- The JPA repository is a map from email to user. `save` of an unchanged user is not observable in that model, and the course service behind the controller is abstracted into its outcome (created, updated or missing).
- Spring's own 400 response body for a validation failure: only the status is modelled.
- `ConcurrentHashMap` concurrency in the token tables: the model is sequential.
- AuthService.AuthService.constructor: the two token tables are `static` in the source, so every service instance shares them; the model gives each instance its own tables, starting empty. Under Spring's single service instance the two agree.
- React's asynchronous scheduling: a handler runs to completion. The stale-reload race between overlapping handlers is not modelled, and neither is the intermediate `loading = true` inside a load.
- Loading the Google sign-in script and rendering its button.
- The average credits per specialisation (`Math.round` of a floating-point division) on the specialisations screen.
- Text.LowerChar: lower-cases ASCII letters only, not the full Unicode case mapping of `toLowerCase`.
- CourseController.IsAdmin: compares case-insensitively on ASCII letters only. Java's `equalsIgnoreCase` also matches characters whose upper-case forms agree, so roles such as `admın` (dotless i) pass the source's check but not the model's.
- SpecialisationTable.DescriptionText: counts length in characters (Unicode scalar values), while JavaScript's `length` and `substring` count UTF-16 code units; a description of astral-plane characters is cut at a different place in the source.
- LoginContainer.LoginContainer.HandleGoogleResponse: the role in a token reply is assumed present.
- Credits and capacity are integers. A non-numeric form value (`NaN`) is not modelled.
- The modal close buttons and the other purely presentational components (cards, navbar, sidebar, search bar, form).
- `DataInitializer`, which only prints a start-up message, and `CourseResponseDTO`'s accessors: the response is a plain record here.
- The `User` and `Course` entity classes and `AuthResponseDTO` are not part of this model beyond the fields the mappers use.
- AuthFilter.AuthFilter.AuthenticationFor: the credentials of the authentication (always null) are not modelled.
- AuthFilter.AuthFilter.DoFilterInternal: the exception thrown for an empty or whitespace-only role is a result flag; how Spring turns it into an error response is not modelled. Sign-in never leaves a user with an empty role, but it keeps a stored whitespace-only role (AuthService.java line 90 replaces only a null or empty one), so sign-in itself issues tokens the filter then throws on.
- Text.IsJavaWhitespace: follows the current Unicode tables; U+180E, which Java 8 still counted as a space separator, is not whitespace here.
- Diagnostic logging: the `console.error` calls in the two containers (CoursesContainer.tsx lines 43 and 47, SpecialisationsContainer.tsx lines 43, 47 and 97) are not modelled; they do not change any state.

Worth knowing about the code: the client's logout makes no backend call;
`handleCreate` closes the modal whatever the write's body says, as long as
the call resolves; the backend accepts an admin role in any letter case while
the client shows admin controls only for exactly `admin`; and the login
screen clears its error even for a reply that carries neither a token nor an
error.
