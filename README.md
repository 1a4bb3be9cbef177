# Enrollment endpoints of the Canvas Python SDK, in Dafny

This project models the request-construction logic of
`canvas_sdk/methods/enrollments.py`: the six functions that list enrollments
(of a course, a section or a user), enroll a user (in a course or a section)
and conclude or delete an enrollment. Each of them

1. fills a missing `per_page` from the request context (list endpoints only),
2. checks its restricted parameters against a fixed tuple of allowed strings,
3. builds a payload under the exact wire field names (`type[]`, `enrollment[type]`, ...),
4. builds the URL as `request_ctx.base_api_url + template.format(...)`,
5. makes exactly one transport call with a fixed verb (GET, POST or DELETE).

The model is pure. Each endpoint is a function returning a `Result`: either
`Invalid(param)`, the validation error raised before any transport call, or
`Ok(request)`, the single `Request(verb, url, payload)` that the transport
client would receive.

Files:

- `wrappers.dfy`: `Option`.
- `wire.dfy`: Python argument values (`Value`: `None`, strings, integers,
  booleans, lists), verbs, requests, results, the request context, the
  attribute check `Acceptable`, and the ordered validation gate
  `FirstInvalid` / `Dispatch` shared by every endpoint.
- `template.dfy`: the part of Python's `str.format` that the URL templates use
  (named fields, `{{`/`}}` escapes, the error cases), with lemmas that give the
  formatted text of a template with one or two fields.
- `enrollments.dfy`: the allowed-value tuples, the URL templates, the six
  endpoints and the lemmas relating them.

The helper `utils.validate_attr_is_acceptable` is not part of this model's
sources. It is modelled as "`None` is accepted; any other value must be one of
the allowed strings". The `None` half is forced by the code: `state=None` is a
default (`canvas_sdk/methods/enrollments.py:4`) and is validated unconditionally
(line 39), so rejecting `None` would make every default call fail.

Two consequences of following the code rather than the documentation: path
ids are not checked for emptiness (no endpoint checks them), and a required
restricted parameter passed as `None` (`enrollment_type`, `task`) passes the
check like an optional one, so the request is built with that field unset.
Payload entries whose value is `None` stay in the payload, as they do in the
dictionaries the code builds; dropping them is left to the transport.

The request context is modelled by the two attributes the code reads:
`base_api_url` and `per_page` (an integer).

## Model

| member | source | states |
|---|---|---|
| Wire.FirstInvalid | canvas_sdk/methods/enrollments.py:180-183 | the validation calls run in order and the first failing one raises: the result is none exactly when every check passes, otherwise it names a failing parameter all of whose predecessors passed |
| Wire.Dispatch | canvas_sdk/methods/enrollments.py:36-51 | a request is built exactly when every restricted parameter passes; it then carries the given verb, URL and payload, and otherwise the first failing parameter is reported and nothing is sent |
| Wire.Acceptable | canvas_sdk/methods/enrollments.py:38-39 | the attribute check behind every gate (also lines 89, 137, 182-183, 232-233 and 269): an omitted value always passes, and a supplied value passes exactly when it is one of the allowed strings |
| Wire.PageSize | canvas_sdk/methods/enrollments.py:36-37 | the page size sent is never `None`: a supplied `per_page` is forwarded unchanged and an omitted one becomes the context's `per_page` (also lines 86-87 and 134-135) |
| Template.Format | canvas_sdk/methods/enrollments.py:48 | `template.format(**ids)` as used at lines 48, 98, 145, 195, 245 and 274; text without braces formats to itself |
| Template.Field | canvas_sdk/methods/enrollments.py:48 | the rest of a replacement field; a field with no closing brace makes formatting fail |
| Enrollments.ListPayload | canvas_sdk/methods/enrollments.py:41-47 | the course and section list payloads (also lines 91-97) have exactly the keys `type[]`, `role[]`, `state`, `user_id`, `per_page`, each holding the given value |
| Template.FormatPlain | canvas_sdk/methods/enrollments.py:48 | `format` copies text without braces through unchanged, ahead of whatever the rest of the template formats to |
| Template.FieldName | canvas_sdk/methods/enrollments.py:48 | a replacement field's name runs up to its closing brace; the field is replaced by the keyword argument of that whole name, and a missing or empty name makes formatting fail |
| Template.FormatField | canvas_sdk/methods/enrollments.py:48 | `format` replaces a named field `{name}` by its keyword argument, inserted verbatim |
| Template.FormatOneField | canvas_sdk/methods/enrollments.py:40-48 | a template with one named field between brace-free texts formats to those texts around the argument |
| Template.FormatTwoFields | canvas_sdk/methods/enrollments.py:270-274 | a template with two named fields formats to the brace-free texts with both arguments substituted in place |
| Enrollments.CoursesPathFormats | canvas_sdk/methods/enrollments.py:40-48 | the course template formats to `/v1/courses/` + course id + `/enrollments` |
| Enrollments.SectionsPathFormats | canvas_sdk/methods/enrollments.py:90-98 | the section template formats to `/v1/sections/` + section id + `/enrollments` |
| Enrollments.UsersPathFormats | canvas_sdk/methods/enrollments.py:138-145 | the user template formats to `/v1/users/` + user id + `/enrollments` |
| Enrollments.EnrollmentPathFormats | canvas_sdk/methods/enrollments.py:270-274 | the enrollment template formats with both the course id and the enrollment id substituted |
| Enrollments.CoursesUrl | canvas_sdk/methods/enrollments.py:40-48 | the course-enrollments URL is exactly the base API URL + `/v1/courses/` + course id + `/enrollments` |
| Enrollments.SectionsUrl | canvas_sdk/methods/enrollments.py:90-98 | the section-enrollments URL is exactly the base API URL + `/v1/sections/` + section id + `/enrollments` |
| Enrollments.UsersUrl | canvas_sdk/methods/enrollments.py:138-145 | the user-enrollments URL is exactly the base API URL + `/v1/users/` + user id + `/enrollments` |
| Enrollments.EnrollmentUrl | canvas_sdk/methods/enrollments.py:270-274 | the enrollment URL is exactly the base API URL + `/v1/courses/` + course id + `/enrollments/` + id |
| Enrollments.ListEnrollmentsCourses | canvas_sdk/methods/enrollments.py:36-51 | rejected with `state` exactly when a given state is outside the seven allowed ones; otherwise one GET to the course URL whose payload has exactly the keys `type[]`, `role[]`, `state`, `user_id`, `per_page`, the caller's values unchanged, and `per_page` taken from the context when omitted |
| Enrollments.ListEnrollmentsSections | canvas_sdk/methods/enrollments.py:86-101 | the same gate, keys and page-size default as the course listing, sent as one GET to the section URL |
| Enrollments.ListEnrollmentsUsers | canvas_sdk/methods/enrollments.py:134-148 | the same gate and page-size default, one GET to the user URL whose payload has the course listing's keys minus `user_id` |
| Enrollments.EnrollGateOrder | canvas_sdk/methods/enrollments.py:182-183 | `enrollment_type` is checked before `enrollment_enrollment_state`; the gate reports the type when both are bad |
| Enrollments.EnrollPayload | canvas_sdk/methods/enrollments.py:185-194 | the enroll payload has exactly the eight `enrollment[...]` keys, each holding the caller's argument unchanged |
| Enrollments.EnrollUserCourses | canvas_sdk/methods/enrollments.py:180-198 | a bad `enrollment_type` is reported first, then a bad `enrollment_enrollment_state`; a request is built exactly when both pass, and it is one POST to the course URL carrying the eight-key enrollment payload |
| Enrollments.EnrollUserSections | canvas_sdk/methods/enrollments.py:230-248 | the same gate and payload as enrolling in a course, sent as one POST to the section URL |
| Enrollments.ConcludeEnrollment | canvas_sdk/methods/enrollments.py:268-277 | rejected with `task` exactly when a given task is neither `conclude` nor `delete`; otherwise one DELETE to the URL with both ids, whose payload holds only `task` |
| Enrollments.ListCoursesSectionsAgree | canvas_sdk/methods/enrollments.py:36-47 | for the same arguments the course and section listings agree on validation, verb and payload, and differ only in the URL |
| Enrollments.ListUsersOmitsUserId | canvas_sdk/methods/enrollments.py:139-144 | the user listing's payload is the course listing's payload with `user_id` removed |
| Enrollments.EnrollCoursesSectionsAgree | canvas_sdk/methods/enrollments.py:230-246 | the two enroll endpoints give the same validation result and the same POST payload for the same arguments, differing only in the URL |
| Enrollments.SyntheticStatesRejected | canvas_sdk/methods/enrollments.py:125-137 | the synthetic states `current_and_invited`, `current_and_future` and `current_and_concluded` are not in the allowed tuple, so the user listing refuses them |
| Enrollments.ListDefaultsAccepted | canvas_sdk/methods/enrollments.py:36-39 | a listing with every optional argument omitted passes validation and sends the context's page size |
| Enrollments.EnrollStudentPayload | canvas_sdk/methods/enrollments.py:185-196 | enrolling a user as `StudentEnrollment` with nothing else given sends the user id and the type, and every other enrollment field unset |
| Enrollments.ConcludeArchiveRejected | canvas_sdk/methods/enrollments.py:268-269 | the `task` value `archive` is refused before any DELETE is built |

## Left out

- The transport calls `client.get`, `client.post` and `client.delete` (lines 49, 99, 146, 196, 246, 275) are network I/O in a module that is not part of this model; each endpoint returns the request it would hand to the client, and the response, returned unmodified by the source, is not modelled.
- The payload is a Dafny `map`, so the insertion order of the Python dict literal is not kept; if the transport encodes the fields in dict order, the order of the sent fields is not captured by the model.
- The `**request_kwargs` passthrough to the transport is opaque and not modelled.
- The internals of `utils.validate_attr_is_acceptable` are not part of this model; only the "`None` or a member of the tuple" behaviour above is. If the real helper treats a list argument element by element, a list passed as a restricted parameter would be judged differently; here any list is refused.
- `canvas_sdk/config.py` holds constants only; the endpoints read the page size from the request context, not from it.
- Server-side behaviour described only in the docstrings (`type` ignored when `role` is given, the default active/invited state filter, self-enrollment overrides) is not implemented by the code and not modelled.
- Authentication, sessions, retries, timeouts and pagination do not appear in the endpoint code.
- The model of `str.format` covers only named keyword fields and the `{{`/`}}` escapes, the forms the four templates use. Every brace-free field name is looked up verbatim as a keyword name, which is not what Python does for other names: a name of digits (`{0}`) is a positional index, a name with `.` or `[` is an attribute or index lookup on the argument named by its first part, and `!` or `:` starts a conversion or a format specification (`{a:}` formats `a`). Errors that `format` raises (a lone brace, an unclosed field, a `{` inside a field name, a missing keyword) are all represented by `None` rather than by the distinct Python exceptions.
- Path ids are modelled as strings; `format` would render a non-string id with `str()`, which is not modelled.
- Python values other than `None`, strings, integers, booleans and lists (floats, dictionaries, objects) are not modelled as arguments.
