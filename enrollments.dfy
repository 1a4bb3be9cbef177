/**
 * The enrollment endpoints of the SDK (canvas_sdk/methods/enrollments.py). Each
 * endpoint fills in the page size from the request context (list endpoints only),
 * checks its restricted parameters against fixed allowed values, builds its
 * payload under the exact wire field names, formats its URL template with the
 * path ids and makes one transport call with a fixed verb. The transport call is
 * modelled by returning the request it would be given.
 */
module Enrollments {

  import opened Wrappers
  import opened Wire
  import opened Template

  /** The enrollment states a list endpoint accepts as `state`. */
  const StateTypes: set<string> :=
    {"active", "invited", "creation_pending", "deleted", "rejected", "completed", "inactive"}

  /** The states the documentation calls synthetic for user queries; they are not in StateTypes. */
  const SyntheticStates: set<string> :=
    {"current_and_invited", "current_and_future", "current_and_concluded"}

  /** The accepted values of `enrollment[type]`. */
  const EnrollmentTypeTypes: set<string> :=
    {"StudentEnrollment", "TeacherEnrollment", "TaEnrollment", "ObserverEnrollment", "DesignerEnrollment"}

  /** The accepted values of `enrollment[enrollment_state]`. */
  const EnrollmentStateTypes: set<string> := {"active", "invited"}

  /** The accepted values of the conclude endpoint's `task`. */
  const TaskTypes: set<string> := {"conclude", "delete"}

  const CoursesPath := "/v1/courses/{course_id}/enrollments"
  const SectionsPath := "/v1/sections/{section_id}/enrollments"
  const UsersPath := "/v1/users/{user_id}/enrollments"
  const EnrollmentPath := "/v1/courses/{course_id}/enrollments/{id}"

  /** The field names of the course and section list payloads. */
  const ListKeys: set<string> := {"type[]", "role[]", "state", "user_id", "per_page"}

  /** The field names of both enroll payloads. */
  const EnrollKeys: set<string> := {
    "enrollment[user_id]", "enrollment[type]", "enrollment[role]", "enrollment[enrollment_state]",
    "enrollment[course_section_id]", "enrollment[limit_privileges_to_course_section]",
    "enrollment[notify]", "enrollment[self_enrollment_code]"
  }

  // Each template, cut at its replacement fields.

  lemma CoursesPathPieces()
    ensures CoursesPath == "/v1/courses/" + "{" + "course_id" + "}" + "/enrollments"
  {
  }

  lemma SectionsPathPieces()
    ensures SectionsPath == "/v1/sections/" + "{" + "section_id" + "}" + "/enrollments"
  {
  }

  lemma UsersPathPieces()
    ensures UsersPath == "/v1/users/" + "{" + "user_id" + "}" + "/enrollments"
  {
  }

  lemma EnrollmentPathPieces()
    ensures EnrollmentPath == "/v1/courses/" + ("{" + "course_id" + "}" + ("/enrollments/" + ("{" + "id" + "}")))
  {
  }

  lemma CoursesPathFormats(courseId: string)
    ensures Format(CoursesPath, map["course_id" := courseId]) == Some("/v1/courses/" + courseId + "/enrollments")
  {
    CoursesPathPieces();
    FormatOneField("/v1/courses/", "course_id", "/enrollments", map["course_id" := courseId]);
  }

  lemma SectionsPathFormats(sectionId: string)
    ensures Format(SectionsPath, map["section_id" := sectionId]) == Some("/v1/sections/" + sectionId + "/enrollments")
  {
    SectionsPathPieces();
    FormatOneField("/v1/sections/", "section_id", "/enrollments", map["section_id" := sectionId]);
  }

  lemma UsersPathFormats(userId: string)
    ensures Format(UsersPath, map["user_id" := userId]) == Some("/v1/users/" + userId + "/enrollments")
  {
    UsersPathPieces();
    FormatOneField("/v1/users/", "user_id", "/enrollments", map["user_id" := userId]);
  }

  lemma EnrollmentPathFormats(courseId: string, id: string)
    ensures Format(EnrollmentPath, map["course_id" := courseId, "id" := id])
         == Some("/v1/courses/" + courseId + "/enrollments/" + id)
  {
    var ids := map["course_id" := courseId, "id" := id];
    assert ids["course_id"] == courseId && ids["id"] == id;
    EnrollmentPathPieces();
    FormatTwoFields("/v1/courses/", "course_id", "/enrollments/", "id", ids);
    Template.Reassociate("/v1/courses/", courseId, "/enrollments/", id);
  }

  /** `request_ctx.base_api_url` followed by the formatted course-enrollments template. */
  function CoursesUrl(ctx: Context, courseId: string): (url: string)
    ensures url == ctx.baseApiUrl + "/v1/courses/" + courseId + "/enrollments"
  {
    CoursesPathFormats(courseId);
    ctx.baseApiUrl + Format(CoursesPath, map["course_id" := courseId]).value
  }

  /** `request_ctx.base_api_url` followed by the formatted section-enrollments template. */
  function SectionsUrl(ctx: Context, sectionId: string): (url: string)
    ensures url == ctx.baseApiUrl + "/v1/sections/" + sectionId + "/enrollments"
  {
    SectionsPathFormats(sectionId);
    ctx.baseApiUrl + Format(SectionsPath, map["section_id" := sectionId]).value
  }

  /** `request_ctx.base_api_url` followed by the formatted user-enrollments template. */
  function UsersUrl(ctx: Context, userId: string): (url: string)
    ensures url == ctx.baseApiUrl + "/v1/users/" + userId + "/enrollments"
  {
    UsersPathFormats(userId);
    ctx.baseApiUrl + Format(UsersPath, map["user_id" := userId]).value
  }

  /** `request_ctx.base_api_url` followed by the formatted template of one enrollment. */
  function EnrollmentUrl(ctx: Context, courseId: string, id: string): (url: string)
    ensures url == ctx.baseApiUrl + "/v1/courses/" + courseId + "/enrollments/" + id
  {
    EnrollmentPathFormats(courseId, id);
    ctx.baseApiUrl + Format(EnrollmentPath, map["course_id" := courseId, "id" := id]).value
  }

  /** The payload of the course and section list endpoints. */
  function ListPayload(typeFilter: Value, role: Value, state: Value, userId: Value, perPage: Value): (payload: map<string, Value>)
    ensures payload.Keys == ListKeys
    ensures payload["type[]"] == typeFilter && payload["role[]"] == role && payload["state"] == state &&
            payload["user_id"] == userId && payload["per_page"] == perPage
  {
    map["type[]" := typeFilter, "role[]" := role, "state" := state, "user_id" := userId, "per_page" := perPage]
  }

  /** GET the enrollments of a course. */
  function ListEnrollmentsCourses(ctx: Context, courseId: string, typeFilter: Value, role: Value, state: Value,
                                  userId: Value, perPage: Value): (r: Result)
    ensures r.Invalid? <==> !Acceptable(state, StateTypes)
    ensures r.Invalid? ==> r.param == "state"
    ensures r.Ok? ==> r.request.verb == Get
    ensures r.Ok? ==> r.request.url == ctx.baseApiUrl + "/v1/courses/" + courseId + "/enrollments"
    ensures r.Ok? ==> r.request.payload.Keys == ListKeys
    ensures r.Ok? ==> r.request.payload["type[]"] == typeFilter && r.request.payload["role[]"] == role &&
                      r.request.payload["state"] == state && r.request.payload["user_id"] == userId
    ensures r.Ok? ==> r.request.payload["per_page"] == (if perPage.Null? then Int(ctx.perPage) else perPage)
  {
    Dispatch([Check("state", state, StateTypes)], Get, CoursesUrl(ctx, courseId),
             ListPayload(typeFilter, role, state, userId, PageSize(ctx, perPage)))
  }

  /** GET the enrollments of a section. */
  function ListEnrollmentsSections(ctx: Context, sectionId: string, typeFilter: Value, role: Value, state: Value,
                                   userId: Value, perPage: Value): (r: Result)
    ensures r.Invalid? <==> !Acceptable(state, StateTypes)
    ensures r.Invalid? ==> r.param == "state"
    ensures r.Ok? ==> r.request.verb == Get
    ensures r.Ok? ==> r.request.url == ctx.baseApiUrl + "/v1/sections/" + sectionId + "/enrollments"
    ensures r.Ok? ==> r.request.payload.Keys == ListKeys
    ensures r.Ok? ==> r.request.payload["type[]"] == typeFilter && r.request.payload["role[]"] == role &&
                      r.request.payload["state"] == state && r.request.payload["user_id"] == userId
    ensures r.Ok? ==> r.request.payload["per_page"] == (if perPage.Null? then Int(ctx.perPage) else perPage)
  {
    Dispatch([Check("state", state, StateTypes)], Get, SectionsUrl(ctx, sectionId),
             ListPayload(typeFilter, role, state, userId, PageSize(ctx, perPage)))
  }

  /** GET the enrollments of a user; the user is in the path, so the payload has no `user_id`. */
  function ListEnrollmentsUsers(ctx: Context, userId: string, typeFilter: Value, role: Value, state: Value,
                                perPage: Value): (r: Result)
    ensures r.Invalid? <==> !Acceptable(state, StateTypes)
    ensures r.Invalid? ==> r.param == "state"
    ensures r.Ok? ==> r.request.verb == Get
    ensures r.Ok? ==> r.request.url == ctx.baseApiUrl + "/v1/users/" + userId + "/enrollments"
    ensures r.Ok? ==> r.request.payload.Keys == ListKeys - {"user_id"}
    ensures r.Ok? ==> r.request.payload["type[]"] == typeFilter && r.request.payload["role[]"] == role &&
                      r.request.payload["state"] == state
    ensures r.Ok? ==> r.request.payload["per_page"] == (if perPage.Null? then Int(ctx.perPage) else perPage)
  {
    Dispatch([Check("state", state, StateTypes)], Get, UsersUrl(ctx, userId),
             map["type[]" := typeFilter, "role[]" := role, "state" := state, "per_page" := PageSize(ctx, perPage)])
  }

  /** The arguments of an enroll call other than the path id. */
  datatype Enrollment = Enrollment(
    userId: Value,
    enrollmentType: Value,
    role: Value,
    enrollmentState: Value,
    courseSectionId: Value,
    limitPrivilegesToCourseSection: Value,
    notify: Value,
    selfEnrollmentCode: Value)

  /** The two checks of an enroll call, `enrollment_type` first. */
  function EnrollChecks(e: Enrollment): seq<Check>
  {
    [Check("enrollment_type", e.enrollmentType, EnrollmentTypeTypes),
     Check("enrollment_enrollment_state", e.enrollmentState, EnrollmentStateTypes)]
  }

  /** The enroll gate reports `enrollment_type` before `enrollment_enrollment_state`. */
  lemma EnrollGateOrder(e: Enrollment)
    ensures FirstInvalid(EnrollChecks(e)) ==
      if !Acceptable(e.enrollmentType, EnrollmentTypeTypes) then Some("enrollment_type")
      else if !Acceptable(e.enrollmentState, EnrollmentStateTypes) then Some("enrollment_enrollment_state")
      else None
  {
    var checks := EnrollChecks(e);
    assert checks[1..] == [checks[1]];
    assert checks[1..][1..] == [];
  }

  /** What both enroll endpoints promise about the payload they send. */
  predicate CarriesEnrollment(payload: map<string, Value>, e: Enrollment)
  {
    payload.Keys == EnrollKeys
    && payload["enrollment[user_id]"] == e.userId
    && payload["enrollment[type]"] == e.enrollmentType
    && payload["enrollment[role]"] == e.role
    && payload["enrollment[enrollment_state]"] == e.enrollmentState
    && payload["enrollment[course_section_id]"] == e.courseSectionId
    && payload["enrollment[limit_privileges_to_course_section]"] == e.limitPrivilegesToCourseSection
    && payload["enrollment[notify]"] == e.notify
    && payload["enrollment[self_enrollment_code]"] == e.selfEnrollmentCode
  }

  /** The payload of both enroll endpoints. */
  function EnrollPayload(e: Enrollment): (payload: map<string, Value>)
    ensures CarriesEnrollment(payload, e)
  {
    map[
      "enrollment[user_id]" := e.userId,
      "enrollment[type]" := e.enrollmentType,
      "enrollment[role]" := e.role,
      "enrollment[enrollment_state]" := e.enrollmentState,
      "enrollment[course_section_id]" := e.courseSectionId,
      "enrollment[limit_privileges_to_course_section]" := e.limitPrivilegesToCourseSection,
      "enrollment[notify]" := e.notify,
      "enrollment[self_enrollment_code]" := e.selfEnrollmentCode]
  }

  /** POST a new enrollment into a course. */
  function EnrollUserCourses(ctx: Context, courseId: string, e: Enrollment): (r: Result)
    ensures !Acceptable(e.enrollmentType, EnrollmentTypeTypes) ==> r == Invalid("enrollment_type")
    ensures Acceptable(e.enrollmentType, EnrollmentTypeTypes) && !Acceptable(e.enrollmentState, EnrollmentStateTypes)
            ==> r == Invalid("enrollment_enrollment_state")
    ensures r.Ok? <==> Acceptable(e.enrollmentType, EnrollmentTypeTypes) && Acceptable(e.enrollmentState, EnrollmentStateTypes)
    ensures r.Ok? ==> r.request.verb == Post
    ensures r.Ok? ==> r.request.url == ctx.baseApiUrl + "/v1/courses/" + courseId + "/enrollments"
    ensures r.Ok? ==> CarriesEnrollment(r.request.payload, e)
  {
    EnrollGateOrder(e);
    Dispatch(EnrollChecks(e), Post, CoursesUrl(ctx, courseId), EnrollPayload(e))
  }

  /** POST a new enrollment into a section. */
  function EnrollUserSections(ctx: Context, sectionId: string, e: Enrollment): (r: Result)
    ensures !Acceptable(e.enrollmentType, EnrollmentTypeTypes) ==> r == Invalid("enrollment_type")
    ensures Acceptable(e.enrollmentType, EnrollmentTypeTypes) && !Acceptable(e.enrollmentState, EnrollmentStateTypes)
            ==> r == Invalid("enrollment_enrollment_state")
    ensures r.Ok? <==> Acceptable(e.enrollmentType, EnrollmentTypeTypes) && Acceptable(e.enrollmentState, EnrollmentStateTypes)
    ensures r.Ok? ==> r.request.verb == Post
    ensures r.Ok? ==> r.request.url == ctx.baseApiUrl + "/v1/sections/" + sectionId + "/enrollments"
    ensures r.Ok? ==> CarriesEnrollment(r.request.payload, e)
  {
    EnrollGateOrder(e);
    Dispatch(EnrollChecks(e), Post, SectionsUrl(ctx, sectionId), EnrollPayload(e))
  }

  /** DELETE (conclude or delete) one enrollment of a course. */
  function ConcludeEnrollment(ctx: Context, courseId: string, id: string, task: Value): (r: Result)
    ensures r.Invalid? <==> !Acceptable(task, TaskTypes)
    ensures r.Invalid? ==> r.param == "task"
    ensures r.Ok? ==> r.request.verb == Delete
    ensures r.Ok? ==> r.request.url == ctx.baseApiUrl + "/v1/courses/" + courseId + "/enrollments/" + id
    ensures r.Ok? ==> r.request.payload.Keys == {"task"} && r.request.payload["task"] == task
  {
    Dispatch([Check("task", task, TaskTypes)], Delete, EnrollmentUrl(ctx, courseId, id), map["task" := task])
  }

  /** The course and section list endpoints differ only in the URL they request. */
  lemma ListCoursesSectionsAgree(ctx: Context, courseId: string, sectionId: string, typeFilter: Value, role: Value,
                                 state: Value, userId: Value, perPage: Value)
    ensures var c := ListEnrollmentsCourses(ctx, courseId, typeFilter, role, state, userId, perPage);
            var s := ListEnrollmentsSections(ctx, sectionId, typeFilter, role, state, userId, perPage);
            s == match c
                 case Invalid(p) => Invalid(p)
                 case Ok(q) => Ok(q.(url := ctx.baseApiUrl + "/v1/sections/" + sectionId + "/enrollments"))
  {
  }

  /** The user list payload is the course list payload without `user_id`. */
  lemma ListUsersOmitsUserId(ctx: Context, courseId: string, userId: string, typeFilter: Value, role: Value,
                             state: Value, perPage: Value)
    ensures var c := ListEnrollmentsCourses(ctx, courseId, typeFilter, role, state, Str(userId), perPage);
            var u := ListEnrollmentsUsers(ctx, userId, typeFilter, role, state, perPage);
            u.Ok? == c.Ok? && (u.Ok? ==> u.request.payload == c.request.payload - {"user_id"})
  {
    var c := ListEnrollmentsCourses(ctx, courseId, typeFilter, role, state, Str(userId), perPage);
    var u := ListEnrollmentsUsers(ctx, userId, typeFilter, role, state, perPage);
    if u.Ok? {
      assert u.request.payload.Keys == (c.request.payload - {"user_id"}).Keys;
    }
  }

  /** The two enroll endpoints validate and send the same payload; only the URL differs. */
  lemma EnrollCoursesSectionsAgree(ctx: Context, courseId: string, sectionId: string, e: Enrollment)
    ensures EnrollUserSections(ctx, sectionId, e) ==
            match EnrollUserCourses(ctx, courseId, e)
            case Invalid(p) => Invalid(p)
            case Ok(q) => Ok(q.(url := ctx.baseApiUrl + "/v1/sections/" + sectionId + "/enrollments"))
  {
  }

  /** The synthetic states of user queries are not in the allowed tuple, so they are refused. */
  lemma SyntheticStatesRejected(ctx: Context, userId: string, typeFilter: Value, role: Value, perPage: Value, state: string)
    requires state in SyntheticStates
    ensures ListEnrollmentsUsers(ctx, userId, typeFilter, role, Str(state), perPage) == Invalid("state")
  {
    // Each synthetic state is longer than every allowed one.
    assert |state| > 16;
    assert forall a | a in StateTypes :: |a| <= 16;
    assert state !in StateTypes;
  }

  /** Leaving every optional argument out never fails validation, and the context's page size is sent. */
  lemma ListDefaultsAccepted(ctx: Context, id: string)
    ensures var c := ListEnrollmentsCourses(ctx, id, Null, Null, Null, Null, Null);
            c.Ok? && c.request.payload["per_page"] == Int(ctx.perPage)
    ensures var s := ListEnrollmentsSections(ctx, id, Null, Null, Null, Null, Null);
            s.Ok? && s.request.payload["per_page"] == Int(ctx.perPage)
    ensures var u := ListEnrollmentsUsers(ctx, id, Null, Null, Null, Null);
            u.Ok? && u.request.payload["per_page"] == Int(ctx.perPage)
  {
  }

  /** A student enrollment with nothing else given sends the type and leaves the other fields unset. */
  lemma EnrollStudentPayload(ctx: Context, courseId: string, userId: string)
    ensures var r := EnrollUserCourses(ctx, courseId, Enrollment(Str(userId), Str("StudentEnrollment"), Null, Null, Null, Null, Null, Null));
            r.Ok? && r.request.payload["enrollment[user_id]"] == Str(userId) &&
            r.request.payload["enrollment[type]"] == Str("StudentEnrollment") &&
            forall k | k in r.request.payload && k !in {"enrollment[user_id]", "enrollment[type]"} ::
              r.request.payload[k] == Null
  {
  }

  /** "archive" is not a task the conclude endpoint accepts. */
  lemma ConcludeArchiveRejected(ctx: Context, courseId: string, id: string)
    ensures ConcludeEnrollment(ctx, courseId, id, Str("archive")) == Invalid("task")
  {
  }
}
