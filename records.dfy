/**
 * What each `make` factory of everyclass/server/rpc/api_server.py produces from an upstream
 * payload, stated declaratively: the attributes of the resulting dataclass instance in terms of
 * the keys of the incoming dict, and the exception raised first when the payload does not fit.
 * Where the source is defective the intended behaviour is stated (see Findings in README.md).
 */
module Records {
  import opened Wrappers
  import opened Payload
  import opened Identifier
  import opened Semesters
  import opened CourseTeachers

  const SearchStudentClass := Dataclass("SearchResultStudentItem",
    {"student_id", "student_id_encoded", "name", "semesters", "deputy", "klass"}, map[])
  const SearchTeacherClass := Dataclass("SearchResultTeacherItem",
    {"teacher_id", "teacher_id_encoded", "name", "semesters", "deputy"}, map[])
  const SearchClassroomClass := Dataclass("SearchResultClassroomItem",
    {"room_id", "room_id_encoded", "name", "semesters"}, map[])
  const SearchResultClass := Dataclass("SearchResult", {"students", "teachers", "classrooms"}, map[])
  const TeacherItemClass := Dataclass("TeacherItem", {"teacher_id", "teacher_id_encoded", "name", "title"}, map[])
  const CourseItemClass := Dataclass("CourseItem",
    {"name", "course_id", "course_id_encoded", "room", "room_id", "room_id_encoded", "week",
     "week_string", "lesson", "teachers"}, map[])
  /**
   * The intended class: it also has a `semesters` field, which the classroom page reads as
   * `room.semesters` (the source's class lacks it, see Findings).
   */
  const ClassroomTimetableClass := Dataclass("ClassroomTimetableResult",
    {"room_id", "room_id_encoded", "name", "building", "campus", "semester", "courses", "semesters"}, map[])
  const CourseTeacherClass := Dataclass("CourseResultTeacherItem", {"name", "teacher_id", "title", "unit"}, map[])
  const CourseStudentClass := Dataclass("CourseResultStudentItem",
    {"name", "student_id", "student_id_encoded", "klass", "deputy"}, map[])
  const StudentResultClass := Dataclass("StudentResult",
    {"name", "student_id", "student_id_encoded", "deputy", "klass", "semesters"}, map["semesters" := List([])])
  const StudentTimetableClass := Dataclass("StudentTimetableResult",
    {"name", "student_id", "student_id_encoded", "deputy", "klass", "courses", "semesters"},
    map["semesters" := List([])])
  const TeacherTimetableClass := Dataclass("TeacherTimetableResult",
    {"name", "teacher_id", "teacher_id_encoded", "title", "unit", "courses", "semesters"},
    map["semesters" := List([])])
  const CourseResultClass := Dataclass("CourseResult",
    {"name", "course_id", "course_id_encoded", "union_name", "hour", "lesson", "type", "pick_num",
     "room", "room_id", "room_id_encoded", "students", "teachers", "week", "week_string"}, map[])

  /**
   * SearchResultStudentItem.make: `semester_list` sorted into `semesters`, `student_code`
   * renamed to `student_id` and encoded as a 'student' identifier, `class` renamed to `klass`;
   * `name` and `deputy` are copied and every other key dropped.
   */
  function SearchStudentItemOf(x: Value): Result<Value, MapError> {
    if !x.Dict? then Failure(WrongShape("student_list"))
    else
      var m := x.entries;
      if "semester_list" !in m then Failure(KeyMissing("semester_list"))
      else if !IsStrList(m["semester_list"]) then Failure(WrongShape("semester_list"))
      else if "student_code" !in m then Failure(KeyMissing("student_code"))
      else if "class" !in m then Failure(KeyMissing("class"))
      else SlotsRecord(SearchStudentClass, m - {"semester_list"} - {"student_code"} - {"class"}, map[
        "semesters" := SortedSemesters(m["semester_list"]),
        "student_id" := m["student_code"],
        "student_id_encoded" := Encrypt("student", m["student_code"]),
        "klass" := m["class"]])
  }

  /**
   * SearchResultTeacherItem.make: `semester_list` sorted into `semesters`, `teacher_code`
   * renamed to `teacher_id` and encoded as a 'teacher' identifier.
   */
  function SearchTeacherItemOf(x: Value): Result<Value, MapError> {
    if !x.Dict? then Failure(WrongShape("teacher_list"))
    else
      var m := x.entries;
      if "semester_list" !in m then Failure(KeyMissing("semester_list"))
      else if !IsStrList(m["semester_list"]) then Failure(WrongShape("semester_list"))
      else if "teacher_code" !in m then Failure(KeyMissing("teacher_code"))
      else SlotsRecord(SearchTeacherClass, m - {"semester_list"} - {"teacher_code"}, map[
        "semesters" := SortedSemesters(m["semester_list"]),
        "teacher_id" := m["teacher_code"],
        "teacher_id_encoded" := Encrypt("teacher", m["teacher_code"])])
  }

  /**
   * SearchResultClassroomItem.make: `semester_list` sorted into `semesters`, `room_code`
   * renamed to `room_id` and encoded as a 'room' identifier.
   */
  function SearchClassroomItemOf(x: Value): Result<Value, MapError> {
    if !x.Dict? then Failure(WrongShape("room_list"))
    else
      var m := x.entries;
      if "semester_list" !in m then Failure(KeyMissing("semester_list"))
      else if !IsStrList(m["semester_list"]) then Failure(WrongShape("semester_list"))
      else if "room_code" !in m then Failure(KeyMissing("room_code"))
      else SlotsRecord(SearchClassroomClass, m - {"semester_list"} - {"room_code"}, map[
        "semesters" := SortedSemesters(m["semester_list"]),
        "room_id" := m["room_code"],
        "room_id_encoded" := Encrypt("room", m["room_code"])])
  }

  /** TeacherItem.make: `teacher_code` copied (not removed) to `teacher_id` and encoded as 'teacher'. */
  function TeacherItemOf(x: Value): Result<Value, MapError> {
    if !x.Dict? then Failure(WrongShape("teacher"))
    else
      var m := x.entries;
      if "teacher_code" !in m then Failure(KeyMissing("teacher_code"))
      else SlotsRecord(TeacherItemClass, m, map[
        "teacher_id" := m["teacher_code"],
        "teacher_id_encoded" := Encrypt("teacher", m["teacher_code"])])
  }

  /**
   * CourseItem.make: `teacher_list` de-duplicated by `teacher_code` into `teachers`,
   * `room_code`/`course_code` renamed to `room_id`/`course_id` and encoded with the tags the
   * pages decrypt them with, 'room' and 'klass'.
   */
  function CourseItemOf(x: Value): Result<Value, MapError> {
    if !x.Dict? then Failure(WrongShape("course_list"))
    else
      var m := x.entries;
      if "teacher_list" !in m then Failure(KeyMissing("teacher_list"))
      else if !m["teacher_list"].List? then Failure(WrongShape("teacher_list"))
      else
        var teachers :- Dedup(m["teacher_list"].items);
        if "room_code" !in m then Failure(KeyMissing("room_code"))
        else if "course_code" !in m then Failure(KeyMissing("course_code"))
        else SlotsRecord(CourseItemClass, m - {"teacher_list"} - {"room_code"} - {"course_code"}, map[
          "teachers" := List(teachers),
          "room_id" := m["room_code"],
          "course_id" := m["course_code"],
          "room_id_encoded" := Encrypt("room", m["room_code"]),
          "course_id_encoded" := Encrypt("klass", m["course_code"])])
  }

  /** CourseResultTeacherItem.make: `teacher_code` renamed to `teacher_id`, not encoded. */
  function CourseTeacherItemOf(x: Value): Result<Value, MapError> {
    if !x.Dict? then Failure(WrongShape("teacher_list"))
    else
      var m := x.entries;
      if "teacher_code" !in m then Failure(KeyMissing("teacher_code"))
      else SlotsRecord(CourseTeacherClass, m - {"teacher_code"}, map["teacher_id" := m["teacher_code"]])
  }

  /**
   * CourseResultStudentItem.make as intended: `class` renamed to `klass`, `student_code` renamed
   * to `student_id` and kept beside its 'student' encoding.
   */
  function CourseStudentItemOf(x: Value): Result<Value, MapError> {
    if !x.Dict? then Failure(WrongShape("student_list"))
    else
      var m := x.entries;
      if "class" !in m then Failure(KeyMissing("class"))
      else if "student_code" !in m then Failure(KeyMissing("student_code"))
      else SlotsRecord(CourseStudentClass, m - {"class"} - {"student_code"}, map[
        "klass" := m["class"],
        "student_id" := m["student_code"],
        "student_id_encoded" := Encrypt("student", m["student_code"])])
  }

  /** The sub-record factories that list comprehensions apply element by element. */
  datatype ItemKind = SearchStudent | SearchTeacher | SearchClassroom | Course | CourseTeacher | CourseStudent

  function ItemOf(kind: ItemKind, x: Value): Result<Value, MapError> {
    match kind
    case SearchStudent => SearchStudentItemOf(x)
    case SearchTeacher => SearchTeacherItemOf(x)
    case SearchClassroom => SearchClassroomItemOf(x)
    case Course => CourseItemOf(x)
    case CourseTeacher => CourseTeacherItemOf(x)
    case CourseStudent => CourseStudentItemOf(x)
  }

  /** The factory of `kind` as a function value. */
  function Factory(kind: ItemKind): Value -> Result<Value, MapError> {
    x => ItemOf(kind, x)
  }

  /** `[X.make(x) for x in xs]` for the factory of `kind`. */
  function ItemsOf(kind: ItemKind, xs: seq<Value>): Result<seq<Value>, MapError> {
    MapEach(Factory(kind), xs)
  }

  /** `[X.make(x) for x in dct.pop(key)]` on the payload `m`. */
  function ListItemsOf(kind: ItemKind, m: map<string, Value>, key: string): Result<seq<Value>, MapError> {
    if key !in m then Failure(KeyMissing(key))
    else if !m[key].List? then Failure(WrongShape(key))
    else ItemsOf(kind, m[key].items)
  }

  /** An upstream response whose status is not "success" is rejected before any mapping. */
  predicate StatusOk(m: map<string, Value>) {
    "status" in m && m["status"] == Str("success")
  }

  /**
   * SearchResult.make: `status` and `info` deleted, `student_list`, `teacher_list` and
   * `room_list` mapped element-wise into `students`, `teachers` and `classrooms`.
   */
  function SearchResultOf(m: map<string, Value>): Result<Value, MapError> {
    if "status" !in m then Failure(KeyMissing("status"))
    else if "info" !in m then Failure(KeyMissing("info"))
    else
      var students :- ListItemsOf(SearchStudent, m, "student_list");
      var teachers :- ListItemsOf(SearchTeacher, m, "teacher_list");
      var classrooms :- ListItemsOf(SearchClassroom, m, "room_list");
      SlotsRecord(SearchResultClass, m - {"status"} - {"info"} - {"student_list"} - {"teacher_list"} - {"room_list"}, map[
        "students" := List(students),
        "teachers" := List(teachers),
        "classrooms" := List(classrooms)])
  }

  /**
   * ClassroomTimetableResult.make as intended: `course_list` (optional, empty when absent) mapped
   * into `courses`, `semester_list` sorted into `semesters`, `room_code` copied to `room_id` and
   * encoded as 'room'.
   */
  function ClassroomTimetableOf(m: map<string, Value>): Result<Value, MapError> {
    if "status" !in m then Failure(KeyMissing("status"))
    else
      var courseList := if "course_list" in m then m["course_list"] else List([]);
      if !courseList.List? then Failure(WrongShape("course_list"))
      else
        var courses :- ItemsOf(Course, courseList.items);
        ClassroomTimetableWith(m, courses)
  }

  /** The rest of ClassroomTimetableResult.make once the courses are mapped. */
  function ClassroomTimetableWith(m: map<string, Value>, courses: seq<Value>): Result<Value, MapError> {
    if "semester_list" !in m then Failure(KeyMissing("semester_list"))
    else if !IsStrList(m["semester_list"]) then Failure(WrongShape("semester_list"))
    else if "room_code" !in m then Failure(KeyMissing("room_code"))
    else SlotsRecord(ClassroomTimetableClass, m - {"status"} - {"course_list"} - {"semester_list"}, map[
      "courses" := List(courses),
      "semesters" := SortedSemesters(m["semester_list"]),
      "room_id" := m["room_code"],
      "room_id_encoded" := Encrypt("room", m["room_code"])])
  }

  /**
   * StudentResult.make as intended: `semester_list` kept as `semesters`, `student_code` renamed
   * to `student_id` and encoded as 'student', `class` renamed to `klass`. There is no
   * `ensure_slots` here, so any other key than `name` and `deputy` is an unexpected argument.
   */
  function StudentResultOf(m: map<string, Value>): Result<Value, MapError> {
    if "status" !in m then Failure(KeyMissing("status"))
    else if "semester_list" !in m then Failure(KeyMissing("semester_list"))
    else if "student_code" !in m then Failure(KeyMissing("student_code"))
    else if "class" !in m then Failure(KeyMissing("class"))
    else DirectRecord(StudentResultClass, m - {"status"} - {"semester_list"} - {"student_code"} - {"class"}, map[
      "semesters" := m["semester_list"],
      "student_id" := m["student_code"],
      "student_id_encoded" := Encrypt("student", m["student_code"]),
      "klass" := m["class"]])
  }

  /**
   * StudentTimetableResult.make as intended: as StudentResult.make, with `course_list` mapped
   * into `courses` first.
   */
  function StudentTimetableOf(m: map<string, Value>): Result<Value, MapError> {
    if "status" !in m then Failure(KeyMissing("status"))
    else
      var courses :- ListItemsOf(Course, m, "course_list");
      StudentTimetableWith(m, courses)
  }

  /** The rest of StudentTimetableResult.make once the courses are mapped. */
  function StudentTimetableWith(m: map<string, Value>, courses: seq<Value>): Result<Value, MapError> {
    if "semester_list" !in m then Failure(KeyMissing("semester_list"))
    else if "student_code" !in m then Failure(KeyMissing("student_code"))
    else if "class" !in m then Failure(KeyMissing("class"))
    else DirectRecord(StudentTimetableClass, m - {"status"} - {"course_list"} - {"semester_list"} - {"student_code"} - {"class"}, map[
      "courses" := List(courses),
      "semesters" := m["semester_list"],
      "student_id" := m["student_code"],
      "student_id_encoded" := Encrypt("student", m["student_code"]),
      "klass" := m["class"]])
  }

  /**
   * TeacherTimetableResult.make as intended: `course_list` mapped into `courses`,
   * `semester_list` sorted into `semesters`, `teacher_code` renamed to `teacher_id` and encoded
   * as 'teacher'; no `ensure_slots`, so any other key than `name`, `title` and `unit` is unexpected.
   */
  function TeacherTimetableOf(m: map<string, Value>): Result<Value, MapError> {
    if "status" !in m then Failure(KeyMissing("status"))
    else
      var courses :- ListItemsOf(Course, m, "course_list");
      TeacherTimetableWith(m, courses)
  }

  /** The rest of TeacherTimetableResult.make once the courses are mapped. */
  function TeacherTimetableWith(m: map<string, Value>, courses: seq<Value>): Result<Value, MapError> {
    if "semester_list" !in m then Failure(KeyMissing("semester_list"))
    else if !IsStrList(m["semester_list"]) then Failure(WrongShape("semester_list"))
    else if "teacher_code" !in m then Failure(KeyMissing("teacher_code"))
    else DirectRecord(TeacherTimetableClass, m - {"status"} - {"course_list"} - {"semester_list"} - {"teacher_code"}, map[
      "courses" := List(courses),
      "semesters" := SortedSemesters(m["semester_list"]),
      "teacher_id" := m["teacher_code"],
      "teacher_id_encoded" := Encrypt("teacher", m["teacher_code"])])
  }

  /**
   * CourseResult.make: `teacher_list`/`student_list` mapped element-wise into `teachers`/`students`,
   * `course_code` renamed to `course_id` encoded as 'klass', `room_code` renamed to `room_id`
   * encoded as 'room'.
   */
  function CourseResultOf(m: map<string, Value>): Result<Value, MapError> {
    if "status" !in m then Failure(KeyMissing("status"))
    else
      var teachers :- ListItemsOf(CourseTeacher, m, "teacher_list");
      var students :- ListItemsOf(CourseStudent, m, "student_list");
      CourseResultWith(m, teachers, students)
  }

  /** The rest of CourseResult.make once both lists are mapped. */
  function CourseResultWith(m: map<string, Value>, teachers: seq<Value>, students: seq<Value>): Result<Value, MapError> {
    if "course_code" !in m then Failure(KeyMissing("course_code"))
    else if "room_code" !in m then Failure(KeyMissing("room_code"))
    else SlotsRecord(CourseResultClass, m - {"status"} - {"teacher_list"} - {"student_list"} - {"course_code"} - {"room_code"}, map[
      "teachers" := List(teachers),
      "students" := List(students),
      "course_id" := m["course_code"],
      "course_id_encoded" := Encrypt("klass", m["course_code"]),
      "room_id" := m["room_code"],
      "room_id_encoded" := Encrypt("room", m["room_code"])])
  }
}
