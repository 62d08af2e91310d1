# everyclass-server: search resolver, privacy gate, timetable grid and payload mappers

A Dafny model of the part of everyclass-server that sits between the Flask pages and the
upstream timetable service ("API server"):

- **Search resolver** (`Query.QueryPage`, `Query.Classify`, `Query.SearchTags`) is the `/query` page.
  It lowercases a student or staff number and searches upstream. It then turns the three result
  lists (students, teachers, classrooms) into one navigation decision: a classroom choice list, a
  redirect to a classroom, student or teacher at its last semester, "no semester available", the
  same-name people list, or not found. It also picks the two observability tags.
- **Privacy gate** (`Query.Gate`, `Query.StudentVisit`) is the student page's decision to show
  the timetable or the blocked page (level 1, 2 or 3). It also says when a visit is recorded.
- **Timetable grid** (`Timetable.GroupBySlot`, `Timetable.EmptyColumnCheck`): courses bucketed by
  their `(day, time)` slot, and the four flags that hide Saturday, Sunday and periods 5 and 6.
  The course-type suffix rule (`Query.TypeWithSuffix`) sits beside them.
- **Payload mappers** (module `ApiServer`) are the `make` factories of the dataclasses. Each one
  copies the incoming dict into a `Payload.Dict` object and updates the copy in place (its
  `entries` map is reassigned by `pop`, `del` and assignment), so the caller's own dict is not
  changed as it is in the source (see "## Left out"). It pops, renames and encodes keys,
  whitelists them with `ensure_slots` (`Payload.EnsureSlots`) and builds the dataclass. Also
  modelled: the teacher de-duplication of `CourseItem.make` (`CourseTeachers.UniqueTeachers`),
  `teacher_list_to_str` and the status check of every `APIServer` call.

Each factory exists twice: as a declarative function in `Records` (what the result's attributes
are, and which exception comes first) and as an imperative method in `ApiServer` proved equal
to it. `RecordProperties` states what the factories promise in terms of the upstream payload.
`Findings` holds the factories as written wherever they break what the rest of the code expects.
The rest of the model uses the intended versions.

Modelling choices:
- JSON values, dataclass instances and encoded identifiers are one datatype, `Payload.Value`.
  A dataclass instance is `Object(cls, attrs)`, with `attrs` keyed by exactly the declared fields.
- Python exceptions are the `Payload.MapError` cases. They are returned through `Wrappers.Result`.
- `encrypt` is symbolic. `Encrypt(t, id)` records the tag and the raw id, and `Decrypt` succeeds
  only with the same tag. Only which tag each factory passes is checked.
- `lesson_string_to_tuple` is a parameter `slotOf`, `PrivacySettingsDAO.get_level` a parameter
  `levelOf`, `contains_chinese` a parameter `containsChinese`. The upstream HTTP call is a
  parameter `upstream`, mapping a request path to the parsed response.
- Behaviour of the code worth noting:
  - `StudentResult`, `StudentTimetableResult` and `TeacherTimetableResult` are built without
    `ensure_slots`, so an undeclared key raises instead of being dropped
    (`RecordProperties.StudentResultRejectsExtraKeys`).
  - A single classroom match with no semesters raises IndexError at `semesters[-1]`. It is
    kept as the `IndexFault` decision.
  - The keyword pattern `^[A-Za-z0-9]*$` also accepts one trailing newline, because of Python's `$`.

## Model

| member | source | states |
|---|---|---|
| `Identifier.Decrypt` | everyclass/server/query.py:124-127 | decoding succeeds exactly when the handle was produced for the requested resource type |
| `Identifier.RoundTrip` | everyclass/server/rpc/api_server.py:38 | an identifier decodes with its own tag to the raw id it encodes |
| `Identifier.NoTypeConfusion` | everyclass/server/query.py:266 | an identifier made for one resource type is rejected as one of any other type |
| `Payload.Slots` | everyclass/server/rpc/api_server.py:12-22 | the dict left by ensure_slots keeps exactly the declared keys, each with its value unchanged |
| `Payload.UndeclaredKeys` | everyclass/server/rpc/api_server.py:14-18 | the first loop collects every undeclared key of the dict, each once, and no declared key |
| `Payload.EnsureSlots` | everyclass/server/rpc/api_server.py:12-22 | after the deletions the dict holds exactly its declared keys with their old values |
| `Payload.Construct` | everyclass/server/rpc/api_server.py:188-203 | `cls(**kwargs)` succeeds iff no key is undeclared and every field without a default is given; an unexpected key is reported first; the instance has exactly the declared fields and the given values |
| `Payload.SlotsRecord` | everyclass/server/rpc/api_server.py:40 | `cls(**ensure_slots(cls, dct))` on a factory's dict fails iff a declared field is neither computed nor left in the payload; computed fields take the computed values, the others are copied |
| `Payload.DirectRecord` | everyclass/server/rpc/api_server.py:203 | `cls(**dct)` without ensure_slots rejects any undeclared key left in the payload, then any missing field |
| `Payload.BuildSlotsRecord` | everyclass/server/rpc/api_server.py:40 | running ensure_slots and the constructor on the tracked dict gives SlotsRecord |
| `Payload.BuildDirectRecord` | everyclass/server/rpc/api_server.py:203 | running the constructor on the tracked dict gives DirectRecord |
| `Payload.MapEachElementwise` | everyclass/server/rpc/api_server.py:84-86 | a list comprehension over factories succeeds iff every element maps, and then keeps length, order and positions |
| `Payload.MapEachFirstFailure` | everyclass/server/rpc/api_server.py:84-86 | a comprehension raises the exception of its first failing element |
| `Semesters.Insert` | everyclass/server/rpc/api_server.py:36 | inserting into an ascending list keeps it ascending and adds exactly the element |
| `Semesters.Sort` | everyclass/server/rpc/api_server.py:36 | the sorted semester list is ascending in Python's string order and a permutation of the input |
| `Semesters.SortUnique` | everyclass/server/rpc/api_server.py:53 | any ascending permutation of the list is the sorted list, so "sorted ascending" fixes the result |
| `Semesters.LastIsLatest` | everyclass/server/query.py:63-64 | the last element of the sorted list belongs to the list and is not less than any of its elements |
| `Semesters.SortedSemestersUnique` | everyclass/server/rpc/api_server.py:241 | any ascending list of strings holding the same semesters is the value stored as `semesters` |
| `Semesters.SortedSemesters` | everyclass/server/rpc/api_server.py:68 | the value stored as `semesters` is an ascending list of strings with the same multiset as `semester_list` |
| `CourseTeachers.DedupSucceeds` | everyclass/server/rpc/api_server.py:123-124 | the de-duplication loop raises exactly when some teacher entry is not a dict with a `teacher_code` |
| `CourseTeachers.DedupFailurePersists` | everyclass/server/rpc/api_server.py:123-128 | once the loop has raised on a prefix, that is its outcome on the whole list |
| `CourseTeachers.DedupUniqueAndComplete` | everyclass/server/rpc/api_server.py:121-129 | no two kept teachers share a `teacher_code`, and the kept codes are exactly the input codes |
| `CourseTeachers.DedupKeepsFirstOccurrences` | everyclass/server/rpc/api_server.py:121-129 | the kept teachers are the first occurrences of each code, in their original order |
| `CourseTeachers.UniqueTeachers` | everyclass/server/rpc/api_server.py:121-128 | the loop with its `seen` set and list computes the de-duplicated teacher list or its first exception |
| `ApiServer.SortSemesters` | everyclass/server/rpc/api_server.py:36 | the intended `sorted(semester_list)`: an ascending list of strings with the same semesters as the input, or a shape error when the input is not a list of strings |
| `ApiServer.MakeSearchStudentItem` | everyclass/server/rpc/api_server.py:34-40 | popping, renaming, encoding and whitelisting in place yields exactly the declared search student item or its first exception |
| `ApiServer.MakeSearchTeacherItem` | everyclass/server/rpc/api_server.py:51-56 | the in-place steps yield exactly the declared search teacher item |
| `ApiServer.MakeSearchClassroomItem` | everyclass/server/rpc/api_server.py:66-71 | the in-place steps yield exactly the declared search classroom item |
| `ApiServer.MakeTeacherItem` | everyclass/server/rpc/api_server.py:98-102 | reading (not popping) `teacher_code` yields a TeacherItem with `teacher_id` and its 'teacher' encoding; modelled for completeness, as nothing in the source calls TeacherItem.make |
| `ApiServer.MakeCourseItem` | everyclass/server/rpc/api_server.py:118-136 | de-duplicating, renaming and encoding in place yields exactly the declared CourseItem |
| `ApiServer.MakeCourseTeacherItem` | everyclass/server/rpc/api_server.py:165-168 | renaming `teacher_code` and whitelisting yields exactly the declared course teacher item |
| `ApiServer.MakeCourseStudentItem` | everyclass/server/rpc/api_server.py:179-184 | the intended in-place steps yield exactly the declared course student item |
| `ApiServer.MakeItem` | everyclass/server/rpc/api_server.py:84-86 | each sub-record factory computes its declarative counterpart |
| `ApiServer.MakeItems` | everyclass/server/rpc/api_server.py:84 | the comprehension loop computes the element-wise mapping or the first element's exception |
| `ApiServer.MakeListItems` | everyclass/server/rpc/api_server.py:84-86 | `[X.make(x) for x in dct.pop(key)]` maps the popped list and leaves the dict without `key` |
| `ApiServer.MakeSearchResult` | everyclass/server/rpc/api_server.py:80-88 | deleting `status`/`info` and mapping the three lists in place yields exactly the declared SearchResult |
| `ApiServer.MakeClassroomTimetable` | everyclass/server/rpc/api_server.py:149-155 | the intended in-place steps (courses mapped, `semesters` kept as a field) yield exactly the intended classroom timetable |
| `ApiServer.MakeStudentResult` | everyclass/server/rpc/api_server.py:196-203 | the intended in-place steps yield exactly the declared StudentResult |
| `ApiServer.MakeStudentTimetable` | everyclass/server/rpc/api_server.py:216-224 | the intended in-place steps yield exactly the declared student timetable |
| `ApiServer.MakeTeacherTimetable` | everyclass/server/rpc/api_server.py:237-244 | the intended in-place steps yield exactly the declared teacher timetable |
| `ApiServer.MakeCourseResult` | everyclass/server/rpc/api_server.py:265-274 | mapping both lists and renaming and encoding both codes in place yields exactly the declared CourseResult |
| `ApiServer.TerminatedIsJoinedPlusSeparator` | everyclass/server/rpc/api_server.py:280-282 | the accumulated string is the joined labels plus one trailing '、', so dropping the last character joins them |
| `ApiServer.JoinLabelsSeparators` | everyclass/server/rpc/api_server.py:277-282 | n labels without '、' are joined with exactly n - 1 separators |
| `ApiServer.TeacherListToStr` | everyclass/server/rpc/api_server.py:277-282 | the loop raises iff some teacher lacks a string name or title; otherwise it returns every teacher's name and title joined by '、', without a trailing separator, and '' for no teachers |
| `ApiServer.StripSlashes` | everyclass/server/rpc/api_server.py:294 | the keyword put into the search path has no '/' and keeps every other character |
| `ApiServer.StripSlashesConcat` | everyclass/server/rpc/api_server.py:294 | stripping works piece by piece, so the kept characters stay in order |
| `ApiServer.StatusError` | everyclass/server/rpc/api_server.py:296-297 | a response without `status` raises KeyError, one with another status raises RpcException |
| `ApiServer.CheckStatus` | everyclass/server/rpc/api_server.py:296-297 | the check passes exactly when `status` is "success" |
| `ApiServer.Search` | everyclass/server/rpc/api_server.py:286-299 | a non-success response raises before any mapping, a successful one is mapped by SearchResult.make |
| `ApiServer.GetStudent` | everyclass/server/rpc/api_server.py:301-316 | as Search, for `/v2/student/<id>` and StudentResult.make |
| `ApiServer.GetStudentTimetable` | everyclass/server/rpc/api_server.py:318-335 | as Search, for the student timetable path and StudentTimetableResult.make |
| `ApiServer.GetTeacherTimetable` | everyclass/server/rpc/api_server.py:337-354 | as Search, for the teacher timetable path and TeacherTimetableResult.make |
| `ApiServer.GetClassroomTimetable` | everyclass/server/rpc/api_server.py:356-372 | as Search, for the room timetable path (room before semester) and ClassroomTimetableResult.make |
| `ApiServer.GetCourse` | everyclass/server/rpc/api_server.py:374-388 | as Search, for the course path and CourseResult.make |
| `RecordProperties.ListItemsMapped` | everyclass/server/rpc/api_server.py:84-86 | a comprehension over `dct.pop(key)` succeeds iff the key holds a list whose every element maps, and then maps it element-wise in order |
| `RecordProperties.SearchStudentItemIds` | everyclass/server/rpc/api_server.py:37-39 | `student_code` becomes `student_id`, its encoding decrypts as 'student' to it, `class` becomes `klass` |
| `RecordProperties.SearchStudentItemCopies` | everyclass/server/rpc/api_server.py:40 | `name` and `deputy` are required and copied unchanged |
| `RecordProperties.SearchStudentItemSemesters` | everyclass/server/rpc/api_server.py:36 | the student item's semesters are the upstream ones in ascending order |
| `RecordProperties.SearchTeacherItemFields` | everyclass/server/rpc/api_server.py:52-56 | `teacher_code` becomes `teacher_id`, encoded as 'teacher'; name and deputy copied; semesters sorted |
| `RecordProperties.SearchClassroomItemFields` | everyclass/server/rpc/api_server.py:67-71 | `room_code` becomes `room_id`, encoded as 'room'; name copied; semesters sorted |
| `RecordProperties.SearchResultSucceeds` | everyclass/server/rpc/api_server.py:81-88 | SearchResult.make succeeds iff `status`, `info` and mappable lists are present, and the result has only the three lists |
| `RecordProperties.SearchResultLists` | everyclass/server/rpc/api_server.py:84-86 | the three attributes are the comprehensions over `student_list`, `teacher_list` and `room_list` |
| `RecordProperties.SearchResultElementwise` | everyclass/server/rpc/api_server.py:81-88 | students, teachers and classrooms are the upstream lists mapped element-wise, same length and order |
| `RecordProperties.CourseItemFields` | everyclass/server/rpc/api_server.py:119-136 | a course's teachers have unique codes covering every input code, its room id decrypts as 'room' and its course id as 'klass' |
| `RecordProperties.CourseTeacherItemFields` | everyclass/server/rpc/api_server.py:166-168 | `teacher_code` becomes `teacher_id`; name, title and unit are copied |
| `RecordProperties.CourseStudentItemFields` | everyclass/server/rpc/api_server.py:180-184 | `student_code` becomes `student_id` and its 'student' encoding; `class` becomes `klass` |
| `RecordProperties.CourseResultStages` | everyclass/server/rpc/api_server.py:267-269 | both lists are mapped before the codes are looked at |
| `RecordProperties.CourseResultWithLists` | everyclass/server/rpc/api_server.py:268-269 | the mapped lists are stored as `teachers` and `students` |
| `RecordProperties.CourseResultWithCourseCode` | everyclass/server/rpc/api_server.py:270-271 | `course_code` becomes `course_id`, encoded as 'klass' |
| `RecordProperties.CourseResultWithRoomCode` | everyclass/server/rpc/api_server.py:272-273 | `room_code` becomes `room_id`, encoded as 'room' |
| `RecordProperties.CourseResultFields` | everyclass/server/rpc/api_server.py:266-274 | both lists mapped element-wise in order; the course id decrypts only as 'klass', the room id only as 'room' |
| `RecordProperties.ClassroomTimetableWithAttrs` | everyclass/server/rpc/api_server.py:150-155 | the classroom timetable stores the mapped courses and the sorted semesters |
| `RecordProperties.ClassroomTimetableWithoutCourses` | everyclass/server/rpc/api_server.py:150-155 | a room response without `course_list` gives a timetable with no courses and sorted semesters |
| `RecordProperties.ClassroomTimetableFields` | everyclass/server/rpc/api_server.py:150-155 | courses mapped element-wise from `course_list`, semesters sorted, room id encoded as 'room' |
| `RecordProperties.StudentResultRejectsExtraKeys` | everyclass/server/rpc/api_server.py:203 | without ensure_slots, any undeclared upstream key makes StudentResult.make raise an unexpected-argument error naming it |
| `RecordProperties.StudentResultFields` | everyclass/server/rpc/api_server.py:197-203 | semesters kept as sent, `student_code`/`class` renamed, id encoded as 'student', name and deputy copied |
| `RecordProperties.StudentTimetableStages` | everyclass/server/rpc/api_server.py:219 | `course_list` is mapped before the other keys are looked at |
| `RecordProperties.StudentTimetableWithAttrs` | everyclass/server/rpc/api_server.py:219-224 | the student timetable stores the courses, the semesters and both identifiers |
| `RecordProperties.StudentTimetableFields` | everyclass/server/rpc/api_server.py:217-224 | courses mapped element-wise from `course_list`, semesters kept, id encoded as 'student' |
| `RecordProperties.TeacherTimetableStages` | everyclass/server/rpc/api_server.py:240 | `course_list` is mapped before the other keys are looked at |
| `RecordProperties.TeacherTimetableWithAttrs` | everyclass/server/rpc/api_server.py:240-244 | the teacher timetable stores the courses, the sorted semesters and both identifiers |
| `RecordProperties.TeacherTimetableFields` | everyclass/server/rpc/api_server.py:238-244 | courses mapped element-wise from `course_list`, semesters sorted ascending, id encoded as 'teacher' |
| `Query.LowerChar` | everyclass/server/query.py:44 | an upper-case ASCII letter is shifted to lower case, any other character is unchanged |
| `Query.NormalizeKeyword` | everyclass/server/query.py:43-44 | a keyword matching `^[A-Za-z0-9]*$` is lowercased character by character; any other keyword is unchanged |
| `Query.NormalizeKeywordIdempotent` | everyclass/server/query.py:43-44 | normalising twice is normalising once |
| `Query.Classify` | everyclass/server/query.py:54-107 | any classroom wins (several: choice list; one: redirect at its last semester or IndexError); else one student alone or one teacher alone redirects at the last semester or reports no semester; else any people give the same-name list; else not found |
| `Query.SearchTags` | everyclass/server/query.py:54-105 | `query_resource_type` follows the branch taken; `query_type` is by_name for classrooms, other for not found, and by name or by id by the keyword otherwise |
| `Query.SearchResultNavigable` | everyclass/server/query.py:54-90 | every item of a successful search result has its encoded id and a semester list, so the resolver can read them |
| `Query.LastSemesterIsLatest` | everyclass/server/query.py:63-64 | the semester a single match is opened at is the latest of its upstream semesters |
| `Query.QueryPage` | everyclass/server/query.py:19-107 | maintenance first; an empty or missing keyword prompts without a search; a failed search shows the error page; otherwise the decision is Classify and the tags are SearchTags of the three searched lists, so both follow the same branch |
| `Query.Gate` | everyclass/server/query.py:146-169 | level 2 is blocked (2) unless the logged-in viewer is the student; level 1 is blocked (1) with no viewer and (3) when the viewer's own level is 2; everything else is visible |
| `Query.OwnerAlwaysSees` | everyclass/server/query.py:147-169 | a student logged in as themself sees their page at every level |
| `Query.AnonymousSeesPublicOnly` | everyclass/server/query.py:147-162 | an anonymous visitor sees exactly the pages whose level is neither 1 nor 2 |
| `Query.StudentVisit` | everyclass/server/query.py:182-186 | a visit is recorded iff the page is shown, its level is not 2, a viewer is logged in and differs from the page's own session entry |
| `Query.OwnVisitNotTracked` | everyclass/server/query.py:136-140 | a student viewing their own page is never recorded as a visitor |
| `Query.TypeWithSuffix` | everyclass/server/query.py:326-328 | a non-empty type not ending in '课' gets '课' appended and keeps its prefix; others are unchanged |
| `Query.TypeWithSuffixIdempotent` | everyclass/server/query.py:326-328 | the suffix rule applied twice is the rule applied once |
| `Query.AddTypeSuffix` | everyclass/server/query.py:327-328 | only the course's `type` attribute changes |
| `Timetable.InSlot` | everyclass/server/query.py:172-177 | a bucket holds only courses of the input that belong to its slot |
| `Timetable.GroupBySlot` | everyclass/server/query.py:172-177 | the loop builds the grid of buckets, one append per course, a bucket created on first use |
| `Timetable.BucketsAreSelections` | everyclass/server/query.py:229-234 | a slot has a bucket iff some course is in it, and the bucket is the in-order selection of its courses |
| `Timetable.BucketsTotal` | everyclass/server/query.py:278-281 | the bucket sizes add up to the number of courses: none lost or duplicated |
| `Timetable.EmptyColumnCheck` | everyclass/server/query.py:340-363 | empty_sat/empty_sun are false iff day 6/7 has a bucket in periods 1..6; empty_5/empty_6 false iff period 5/6 has a bucket on days 1..7; all true for an empty grid |
| `Timetable.BucketsDayFree` | everyclass/server/query.py:344-352 | a weekend day of the built grid is free iff no course falls on it in periods 1..6 |
| `Timetable.BucketsPeriodFree` | everyclass/server/query.py:355-362 | period 5 or 6 of the built grid is free iff no course falls in it on days 1..7 |
| `Findings.SortStoresNone` | everyclass/server/rpc/api_server.py:68 | as written, a classroom search item stores None as its semesters and cannot be opened; the intended item can |
| `Findings.TidRaises` | everyclass/server/rpc/api_server.py:127 | as written, a course with any well-formed teacher raises AttributeError; the intended loop succeeds |
| `Findings.StudentIdPoppedTwice` | everyclass/server/rpc/api_server.py:183 | as written, every course student item is missing `student_id` when constructed |
| `Findings.SemesterNamesAreNotCourses` | everyclass/server/rpc/api_server.py:199 | as written, a student with any semester cannot be looked up |
| `Findings.CoursesNeverSet` | everyclass/server/rpc/api_server.py:150-155 | as written, every classroom timetable is missing `courses` |
| `Findings.SemestersNotDeclared` | everyclass/server/rpc/api_server.py:139-155 | as written, a built classroom timetable never has `semesters`, which the classroom page reads; the intended one has it |
| `Findings.CourseLinksRejected` | everyclass/server/rpc/api_server.py:134-135 | as written, the room and course links of a course are rejected by the pages that decode them |

## Left out

- The identifier codec itself (`resource_identifier_encrypt`) is not part of this model. Encoded identifiers are symbolic, so tamper detection is not modelled.
- HTTP calls, the retry in `HttpRpc.call` and the base URL: the upstream response is a parameter.
- `render_template`, `flash`, `redirect`, `url_for` and `escape` are replaced by the `Query.Decision` datatype. `handle_exception_with_error_page` becomes the `ErrorPage` decision.
- `elasticapm` spans and tag delivery: the tags are returned as a value.
- Session storage and the DAOs (`PrivacySettingsDAO`, `VisitorDAO`, `RedisDAO`). Privacy levels and the viewer are inputs. `update_track` is the `tracked` flag. `add_visitor_count` always runs and is not modelled.
- `lesson_string_to_tuple`, `contains_chinese`, `semester_calculate`, `get_day_chinese`, `get_time_chinese` and `url_semester_check` are not shown in the source. The first two are parameters; the others are left out.
- The rest of `get_student`, `get_teacher`, `get_classroom` and `get_course`: decrypting the URL identifier and template arguments. Only the gate, the bucketing, the empty-column flags and the type suffix are modelled.
- `logger.warn` in `ensure_slots`. Also the order in which its first loop visits keys: Python's insertion order only affects the order of the warnings.
- Dataclass field types are not checked at construction, as Python does not check them either. The values the factories themselves sort, iterate or concatenate are restricted as the next lines say.
- `Semesters.SortedSemesters`: a `semester_list` is taken to be a list of strings. Any other value (a list of numbers, which Python would sort) becomes `WrongShape`.
- `RecordProperties.ListItemsMapped`: nested payload lists (`student_list`, `course_list`, `teacher_list`, ...) are taken to be JSON lists. Any other value becomes `WrongShape`, though Python would iterate a dict or a string.
- `Query.TypeWithSuffix`: a truthy course type that is not a string is left unchanged, where query.py line 327 raises TypeError.
- Mutation of the caller's dict by the factories (`ApiServer.MakeSearchStudentItem`, `MakeSearchTeacherItem`, `MakeSearchClassroomItem`, `MakeTeacherItem`, `MakeCourseItem`, `MakeCourseTeacherItem`, `MakeCourseStudentItem`, `MakeSearchResult`, `MakeClassroomTimetable`, `MakeStudentResult`, `MakeStudentTimetable`, `MakeTeacherTimetable`, `MakeCourseResult`): each works on a copy, so the caller's dict is left unchanged, while the source pops and deletes keys on the caller's object. No caller reads a payload after passing it to a factory, so this is not observable.
- The Flask application setup in `src/everyclass/__init__.py`, with no logic to model.
- `Payload.UndeclaredKeys`: the undeclared keys are returned in an unspecified order, not the dict's insertion order.

## Findings

| source | as written | input that shows it | evidently intended | confidence | as-written member | corrected member |
|---|---|---|---|---|---|---|
| everyclass/server/rpc/api_server.py:36,53,68,152,241 | `dct['semesters'] = dct.pop('semester_list').sort()` stores None | any room entry with `semester_list` `["2018-2019-1"]` | store the sorted list | high, not executed | `Findings.SortStoresNone` | `RecordProperties.SearchClassroomItemFields` |
| everyclass/server/rpc/api_server.py:127 | `tid_set.add(teacher.tid)` on a dict raises AttributeError | a course with `teacher_list` `[{"teacher_code": "t1"}]` | add `teacher["teacher_code"]` | high, not executed | `Findings.TidRaises` | `CourseTeachers.DedupUniqueAndComplete` |
| everyclass/server/rpc/api_server.py:183 | `dct.pop("student_id")` removes the field just set | any course student entry with `class`, `student_code`, `name`, `deputy` | keep `student_id` and encode it | high, not executed | `Findings.StudentIdPoppedTwice` | `RecordProperties.CourseStudentItemFields` |
| everyclass/server/rpc/api_server.py:199,220 | semester names passed to `CourseItem.make` | a student response with `semester_list` `["2018-2019-1"]` | keep the semester names | high, not executed | `Findings.SemesterNamesAreNotCourses` | `RecordProperties.StudentResultFields` |
| everyclass/server/rpc/api_server.py:150-155 | `courses` never set; `ensure_slots` drops `course_list` | any room timetable response without a `courses` key | map `course_list` into `courses`, an absent `course_list` giving no courses; the source never reads `course_list`, so mapping it before `semester_list` is popped is this model's choice, and it only decides which error is reported when both keys are malformed | high, not executed | `Findings.CoursesNeverSet` | `RecordProperties.ClassroomTimetableFields` |
| everyclass/server/rpc/api_server.py:139-155 | the class declares no `semesters` field, so `ensure_slots` drops the list stored at line 152 and query.py line 285 `room.semesters` raises AttributeError | a room response carrying `courses`, `semester_list`, `room_code`, `name`, `building`, `campus`, `semester` | declare `semesters` and keep the sorted list | high, not executed | `Findings.SemestersNotDeclared` | `RecordProperties.ClassroomTimetableFields` |
| everyclass/server/rpc/api_server.py:134-135 | room id encoded as 'klass', course id as 'class' | a course with `room_code` "r1", `course_code` "c1", no teachers | encode with 'room' and 'klass', as the pages decode them | high, not executed | `Findings.CourseLinksRejected` | `RecordProperties.CourseItemFields` |
