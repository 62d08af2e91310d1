/**
 * What the factories of everyclass/server/rpc/api_server.py promise their callers: which payloads
 * they accept, which key each attribute comes from, the identifiers they encode, the sorted
 * semesters and the element-wise mapping of the nested lists.
 */
module RecordProperties {
  import opened Wrappers
  import opened Payload
  import opened Identifier
  import opened Semesters
  import opened CourseTeachers
  import opened Records

  /** `dst` is `src` mapped element by element, in order, by the factory of `kind`. */
  predicate MappedFrom(kind: ItemKind, src: Value, dst: Value) {
    src.List? && dst.List? && |dst.items| == |src.items| &&
    forall i :: 0 <= i < |src.items| ==> ItemOf(kind, src.items[i]) == Success(dst.items[i])
  }

  /** `v` is a list of semesters in ascending order holding the same semesters as `source`. */
  predicate SortedFrom(v: Value, source: Value) {
    IsStrList(v) && IsStrList(source) && Ascending(Strings(v)) && multiset(Strings(v)) == multiset(Strings(source))
  }

  /** A comprehension over `m[key]` succeeds exactly when every element maps; it keeps length and order. */
  lemma ListItemsMapped(kind: ItemKind, m: map<string, Value>, key: string)
    ensures ListItemsOf(kind, m, key).Success? <==>
      key in m && m[key].List? && forall i :: 0 <= i < |m[key].items| ==> ItemOf(kind, m[key].items[i]).Success?
    ensures ListItemsOf(kind, m, key).Success? ==> MappedFrom(kind, m[key], List(ListItemsOf(kind, m, key).value))
  {
    if key in m && m[key].List? {
      MapEachElementwise(Factory(kind), m[key].items);
    }
  }

  /** A SearchResultStudentItem renames `student_code` and `class` and encodes the student id. */
  lemma SearchStudentItemIds(x: Value)
    requires SearchStudentItemOf(x).Success?
    ensures var o, m := SearchStudentItemOf(x).value, x.entries;
      o.Object? && o.cls == "SearchResultStudentItem" && o.attrs.Keys == SearchStudentClass.fields &&
      o.attrs["student_id"] == m["student_code"] &&
      Decrypt(o.attrs["student_id_encoded"], "student") == Some(m["student_code"]) &&
      o.attrs["klass"] == m["class"]
  {
    RoundTrip("student", x.entries["student_code"]);
  }

  /** A SearchResultStudentItem copies `name` and `deputy`. */
  lemma SearchStudentItemCopies(x: Value)
    requires SearchStudentItemOf(x).Success?
    ensures var o, m := SearchStudentItemOf(x).value, x.entries;
      o.Object? && "name" in m && o.attrs["name"] == m["name"] && "deputy" in m && o.attrs["deputy"] == m["deputy"]
  {
    var m := x.entries;
    var rest := m - {"semester_list"} - {"student_code"} - {"class"};
    var computed := map[
      "semesters" := SortedSemesters(m["semester_list"]),
      "student_id" := m["student_code"],
      "student_id_encoded" := Encrypt("student", m["student_code"]),
      "klass" := m["class"]];
    assert SearchStudentItemOf(x) == SlotsRecord(SearchStudentClass, rest, computed);
    assert "name" !in computed && "deputy" !in computed;
  }

  /** The semesters of a SearchResultStudentItem are the upstream ones in ascending order. */
  lemma SearchStudentItemSemesters(x: Value)
    requires SearchStudentItemOf(x).Success?
    ensures SearchStudentItemOf(x).value.Object? && x.Dict? && "semester_list" in x.entries
    ensures SortedFrom(SearchStudentItemOf(x).value.attrs["semesters"], x.entries["semester_list"])
  {
  }

  /** The attributes of a SearchResultTeacherItem. */
  lemma SearchTeacherItemFields(x: Value)
    requires SearchTeacherItemOf(x).Success?
    ensures var o, m := SearchTeacherItemOf(x).value, x.entries;
      o.Object? && o.cls == "SearchResultTeacherItem" && o.attrs.Keys == SearchTeacherClass.fields &&
      o.attrs["teacher_id"] == m["teacher_code"] &&
      Decrypt(o.attrs["teacher_id_encoded"], "teacher") == Some(m["teacher_code"]) &&
      o.attrs["name"] == m["name"] && o.attrs["deputy"] == m["deputy"] &&
      SortedFrom(o.attrs["semesters"], m["semester_list"])
  {
    RoundTrip("teacher", x.entries["teacher_code"]);
  }

  /** The attributes of a SearchResultClassroomItem. */
  lemma SearchClassroomItemFields(x: Value)
    requires SearchClassroomItemOf(x).Success?
    ensures var o, m := SearchClassroomItemOf(x).value, x.entries;
      o.Object? && o.cls == "SearchResultClassroomItem" && o.attrs.Keys == SearchClassroomClass.fields &&
      o.attrs["room_id"] == m["room_code"] &&
      Decrypt(o.attrs["room_id_encoded"], "room") == Some(m["room_code"]) &&
      o.attrs["name"] == m["name"] &&
      SortedFrom(o.attrs["semesters"], m["semester_list"])
  {
    RoundTrip("room", x.entries["room_code"]);
  }

  /**
   * SearchResult.make succeeds exactly when `status` and `info` are present and every element of
   * the three lists maps; `status` and `info` are not carried over.
   */
  lemma SearchResultSucceeds(m: map<string, Value>)
    ensures SearchResultOf(m).Success? <==>
      "status" in m && "info" in m &&
      ListItemsOf(SearchStudent, m, "student_list").Success? &&
      ListItemsOf(SearchTeacher, m, "teacher_list").Success? &&
      ListItemsOf(SearchClassroom, m, "room_list").Success?
    ensures SearchResultOf(m).Success? ==>
      SearchResultOf(m).value.attrs.Keys == {"students", "teachers", "classrooms"}
  {
  }

  /** The three lists of a SearchResult are the comprehensions over the upstream lists. */
  lemma SearchResultLists(m: map<string, Value>)
    requires SearchResultOf(m).Success?
    ensures var o := SearchResultOf(m).value;
      ListItemsOf(SearchStudent, m, "student_list").Success? &&
      ListItemsOf(SearchTeacher, m, "teacher_list").Success? &&
      ListItemsOf(SearchClassroom, m, "room_list").Success? &&
      o.attrs["students"] == List(ListItemsOf(SearchStudent, m, "student_list").value) &&
      o.attrs["teachers"] == List(ListItemsOf(SearchTeacher, m, "teacher_list").value) &&
      o.attrs["classrooms"] == List(ListItemsOf(SearchClassroom, m, "room_list").value)
  {
  }

  /** The three lists of a SearchResult are the upstream lists mapped element-wise, in order. */
  lemma SearchResultElementwise(m: map<string, Value>)
    requires SearchResultOf(m).Success?
    ensures var o := SearchResultOf(m).value;
      "student_list" in m && MappedFrom(SearchStudent, m["student_list"], o.attrs["students"]) &&
      "teacher_list" in m && MappedFrom(SearchTeacher, m["teacher_list"], o.attrs["teachers"]) &&
      "room_list" in m && MappedFrom(SearchClassroom, m["room_list"], o.attrs["classrooms"])
  {
    SearchResultLists(m);
    ListItemsMapped(SearchStudent, m, "student_list");
    ListItemsMapped(SearchTeacher, m, "teacher_list");
    ListItemsMapped(SearchClassroom, m, "room_list");
  }

  /**
   * The teachers of a CourseItem are the upstream teachers without repeated `teacher_code`s, every
   * code still present; both identifiers decrypt with the tags the pages use.
   */
  lemma CourseItemFields(x: Value)
    requires CourseItemOf(x).Success?
    ensures var o, m := CourseItemOf(x).value, x.entries;
      "teacher_list" in m && m["teacher_list"].List? && AllCoded(m["teacher_list"].items) &&
      o.attrs["teachers"].List? && AllCoded(o.attrs["teachers"].items) &&
      Codes(o.attrs["teachers"].items) == Codes(m["teacher_list"].items) &&
      (forall i, j :: 0 <= i < j < |o.attrs["teachers"].items| ==>
        Code(o.attrs["teachers"].items[i]) != Code(o.attrs["teachers"].items[j])) &&
      Decrypt(o.attrs["room_id_encoded"], "room") == Some(m["room_code"]) &&
      Decrypt(o.attrs["course_id_encoded"], "klass") == Some(m["course_code"])
  {
    var m := x.entries;
    DedupSucceeds(m["teacher_list"].items);
    DedupUniqueAndComplete(m["teacher_list"].items);
    RoundTrip("room", m["room_code"]);
    RoundTrip("klass", m["course_code"]);
  }

  /** CourseResult.make maps both lists before it looks at the codes. */
  lemma CourseResultStages(m: map<string, Value>)
    requires CourseResultOf(m).Success?
    ensures ListItemsOf(CourseTeacher, m, "teacher_list").Success?
    ensures ListItemsOf(CourseStudent, m, "student_list").Success?
    ensures CourseResultOf(m) == CourseResultWith(m,
      ListItemsOf(CourseTeacher, m, "teacher_list").value, ListItemsOf(CourseStudent, m, "student_list").value)
  {
  }

  /** The six fields the rest of CourseResult.make computes. */
  function CourseResultComputed(m: map<string, Value>, teachers: seq<Value>, students: seq<Value>): map<string, Value>
    requires "course_code" in m && "room_code" in m
  {
    map[
      "teachers" := List(teachers),
      "students" := List(students),
      "course_id" := m["course_code"],
      "course_id_encoded" := Encrypt("klass", m["course_code"]),
      "room_id" := m["room_code"],
      "room_id_encoded" := Encrypt("room", m["room_code"])]
  }

  /** The rest of CourseResult.make copies the payload minus the popped keys and adds the computed fields. */
  lemma CourseResultWithSlots(m: map<string, Value>, teachers: seq<Value>, students: seq<Value>)
    requires CourseResultWith(m, teachers, students).Success?
    ensures "course_code" in m && "room_code" in m
    ensures CourseResultComputed(m, teachers, students).Keys <= CourseResultClass.fields
    ensures CourseResultWith(m, teachers, students) == SlotsRecord(CourseResultClass,
      m - {"status"} - {"teacher_list"} - {"student_list"} - {"course_code"} - {"room_code"},
      CourseResultComputed(m, teachers, students))
  {
  }

  /** The rest of CourseResult.make stores the mapped lists as `teachers` and `students`. */
  lemma CourseResultWithLists(m: map<string, Value>, teachers: seq<Value>, students: seq<Value>)
    requires CourseResultWith(m, teachers, students).Success?
    ensures var o := CourseResultWith(m, teachers, students).value;
      o.attrs["teachers"] == List(teachers) && o.attrs["students"] == List(students)
  {
    CourseResultWithSlots(m, teachers, students);
    var rest := m - {"status"} - {"teacher_list"} - {"student_list"} - {"course_code"} - {"room_code"};
    var computed := CourseResultComputed(m, teachers, students);
    SlotsRecordComputed(CourseResultClass, rest, computed, "teachers");
    SlotsRecordComputed(CourseResultClass, rest, computed, "students");
  }

  /** The rest of CourseResult.make renames `course_code` to `course_id` and encodes it as 'klass'. */
  lemma CourseResultWithCourseCode(m: map<string, Value>, teachers: seq<Value>, students: seq<Value>)
    requires CourseResultWith(m, teachers, students).Success? && "course_code" in m
    ensures CourseResultWith(m, teachers, students).value.attrs["course_id"] == m["course_code"]
    ensures CourseResultWith(m, teachers, students).value.attrs["course_id_encoded"] == Encrypt("klass", m["course_code"])
  {
    CourseResultWithSlots(m, teachers, students);
    var rest := m - {"status"} - {"teacher_list"} - {"student_list"} - {"course_code"} - {"room_code"};
    var computed := CourseResultComputed(m, teachers, students);
    SlotsRecordComputed(CourseResultClass, rest, computed, "course_id");
    SlotsRecordComputed(CourseResultClass, rest, computed, "course_id_encoded");
  }

  /** The rest of CourseResult.make renames `room_code` to `room_id` and encodes it as 'room'. */
  lemma CourseResultWithRoomCode(m: map<string, Value>, teachers: seq<Value>, students: seq<Value>)
    requires CourseResultWith(m, teachers, students).Success? && "room_code" in m
    ensures CourseResultWith(m, teachers, students).value.attrs["room_id"] == m["room_code"]
    ensures CourseResultWith(m, teachers, students).value.attrs["room_id_encoded"] == Encrypt("room", m["room_code"])
  {
    CourseResultWithSlots(m, teachers, students);
    var rest := m - {"status"} - {"teacher_list"} - {"student_list"} - {"course_code"} - {"room_code"};
    var computed := CourseResultComputed(m, teachers, students);
    SlotsRecordComputed(CourseResultClass, rest, computed, "room_id");
    SlotsRecordComputed(CourseResultClass, rest, computed, "room_id_encoded");
  }

  /**
   * CourseResult.make maps both lists element-wise, in order, and renames both codes; the course
   * identifier decrypts as 'klass' and not as 'room', the room identifier as 'room' and not as 'klass'.
   */
  lemma CourseResultFields(m: map<string, Value>)
    requires CourseResultOf(m).Success?
    ensures var o := CourseResultOf(m).value;
      "teacher_list" in m && MappedFrom(CourseTeacher, m["teacher_list"], o.attrs["teachers"]) &&
      "student_list" in m && MappedFrom(CourseStudent, m["student_list"], o.attrs["students"]) &&
      "course_code" in m && "room_code" in m &&
      o.attrs["course_id"] == m["course_code"] && o.attrs["room_id"] == m["room_code"] &&
      Decrypt(o.attrs["course_id_encoded"], "klass") == Some(m["course_code"]) &&
      Decrypt(o.attrs["course_id_encoded"], "room") == None &&
      Decrypt(o.attrs["room_id_encoded"], "room") == Some(m["room_code"]) &&
      Decrypt(o.attrs["room_id_encoded"], "klass") == None
  {
    CourseResultStages(m);
    var teachers := ListItemsOf(CourseTeacher, m, "teacher_list").value;
    var students := ListItemsOf(CourseStudent, m, "student_list").value;
    CourseResultWithLists(m, teachers, students);
    CourseResultWithCourseCode(m, teachers, students);
    CourseResultWithRoomCode(m, teachers, students);
    ListItemsMapped(CourseTeacher, m, "teacher_list");
    ListItemsMapped(CourseStudent, m, "student_list");
    RoundTrip("klass", m["course_code"]);
    RoundTrip("room", m["room_code"]);
    NoTypeConfusion("klass", "room", m["course_code"]);
    NoTypeConfusion("room", "klass", m["room_code"]);
  }

  /** The rest of ClassroomTimetableResult.make stores the courses and the sorted semesters. */
  lemma ClassroomTimetableWithAttrs(m: map<string, Value>, courses: seq<Value>)
    requires ClassroomTimetableWith(m, courses).Success? && "semester_list" in m && IsStrList(m["semester_list"])
    ensures ClassroomTimetableWith(m, courses).value.attrs["courses"] == List(courses)
    ensures ClassroomTimetableWith(m, courses).value.attrs["semesters"] == SortedSemesters(m["semester_list"])
  {
    var rest := m - {"status"} - {"course_list"} - {"semester_list"};
    var computed := map[
      "courses" := List(courses),
      "semesters" := SortedSemesters(m["semester_list"]),
      "room_id" := m["room_code"],
      "room_id_encoded" := Encrypt("room", m["room_code"])];
    assert ClassroomTimetableWith(m, courses) == SlotsRecord(ClassroomTimetableClass, rest, computed);
    assert computed.Keys <= ClassroomTimetableClass.fields;
    SlotsRecordComputed(ClassroomTimetableClass, rest, computed, "courses");
    SlotsRecordComputed(ClassroomTimetableClass, rest, computed, "semesters");
  }

  /** A classroom whose upstream response has no `course_list` is shown with no courses. */
  lemma ClassroomTimetableWithoutCourses(m: map<string, Value>)
    requires "status" in m && "course_list" !in m
    ensures ClassroomTimetableOf(m) == ClassroomTimetableWith(m, [])
    ensures ClassroomTimetableOf(m).Success? ==>
      "semester_list" in m && ClassroomTimetableOf(m).value.attrs["courses"] == List([]) &&
      SortedFrom(ClassroomTimetableOf(m).value.attrs["semesters"], m["semester_list"])
  {
    assert ItemsOf(Course, []) == Success([]);
    if ClassroomTimetableOf(m).Success? {
      ClassroomTimetableWithAttrs(m, []);
    }
  }

  /**
   * The student and teacher pages pass no `ensure_slots`: a response carrying any key the result
   * does not declare is rejected as an unexpected argument.
   */
  lemma StudentResultRejectsExtraKeys(m: map<string, Value>, k: string)
    requires {"status", "semester_list", "student_code", "class"} <= m.Keys
    requires k in m && k !in StudentResultClass.fields && k !in {"status", "semester_list", "student_code", "class"}
    ensures StudentResultOf(m).Failure? && StudentResultOf(m).error.UnexpectedField?
    ensures k in StudentResultOf(m).error.names
  {
    var rest := m - {"status"} - {"semester_list"} - {"student_code"} - {"class"};
    assert k in rest;
  }

  /** A CourseResultTeacherItem renames `teacher_code` to `teacher_id` and copies name, title and unit. */
  lemma CourseTeacherItemFields(x: Value)
    requires CourseTeacherItemOf(x).Success?
    ensures var o, m := CourseTeacherItemOf(x).value, x.entries;
      o.Object? && o.cls == "CourseResultTeacherItem" && o.attrs.Keys == CourseTeacherClass.fields &&
      o.attrs["teacher_id"] == m["teacher_code"] &&
      "name" in m && o.attrs["name"] == m["name"] && "title" in m && o.attrs["title"] == m["title"] &&
      "unit" in m && o.attrs["unit"] == m["unit"]
  {
    var m := x.entries;
    assert CourseTeacherItemOf(x) == SlotsRecord(CourseTeacherClass, m - {"teacher_code"}, map["teacher_id" := m["teacher_code"]]);
  }

  /**
   * A CourseResultStudentItem keeps the student number as `student_id` beside its 'student'
   * encoding, and renames `class` to `klass`.
   */
  lemma CourseStudentItemFields(x: Value)
    requires CourseStudentItemOf(x).Success?
    ensures var o, m := CourseStudentItemOf(x).value, x.entries;
      o.Object? && o.cls == "CourseResultStudentItem" && o.attrs.Keys == CourseStudentClass.fields &&
      o.attrs["student_id"] == m["student_code"] &&
      Decrypt(o.attrs["student_id_encoded"], "student") == Some(m["student_code"]) &&
      o.attrs["klass"] == m["class"]
  {
    RoundTrip("student", x.entries["student_code"]);
  }

  /**
   * StudentResult.make keeps the upstream semesters as they are, renames `student_code` and
   * `class`, encodes the student id as 'student' and copies `name` and `deputy`.
   */
  lemma StudentResultFields(m: map<string, Value>)
    requires StudentResultOf(m).Success?
    ensures var o := StudentResultOf(m).value;
      o.Object? && o.cls == "StudentResult" && o.attrs.Keys == StudentResultClass.fields &&
      "semester_list" in m && o.attrs["semesters"] == m["semester_list"] &&
      "student_code" in m && o.attrs["student_id"] == m["student_code"] &&
      Decrypt(o.attrs["student_id_encoded"], "student") == Some(m["student_code"]) &&
      "class" in m && o.attrs["klass"] == m["class"] &&
      "name" in m && o.attrs["name"] == m["name"] && "deputy" in m && o.attrs["deputy"] == m["deputy"]
  {
    var rest := m - {"status"} - {"semester_list"} - {"student_code"} - {"class"};
    var computed := map[
      "semesters" := m["semester_list"],
      "student_id" := m["student_code"],
      "student_id_encoded" := Encrypt("student", m["student_code"]),
      "klass" := m["class"]];
    assert StudentResultOf(m) == DirectRecord(StudentResultClass, rest, computed);
    assert "name" !in computed && "deputy" !in computed;
    RoundTrip("student", m["student_code"]);
  }

  /** StudentTimetableResult.make maps `course_list` before it looks at the other keys. */
  lemma StudentTimetableStages(m: map<string, Value>)
    requires StudentTimetableOf(m).Success?
    ensures ListItemsOf(Course, m, "course_list").Success?
    ensures StudentTimetableOf(m) == StudentTimetableWith(m, ListItemsOf(Course, m, "course_list").value)
  {
  }

  /** The rest of StudentTimetableResult.make stores the courses, the semesters and the identifiers. */
  lemma StudentTimetableWithAttrs(m: map<string, Value>, courses: seq<Value>)
    requires StudentTimetableWith(m, courses).Success?
    ensures var o := StudentTimetableWith(m, courses).value;
      o.Object? && o.cls == "StudentTimetableResult" && o.attrs.Keys == StudentTimetableClass.fields &&
      o.attrs["courses"] == List(courses) &&
      "semester_list" in m && o.attrs["semesters"] == m["semester_list"] &&
      "student_code" in m && o.attrs["student_id"] == m["student_code"] &&
      o.attrs["student_id_encoded"] == Encrypt("student", m["student_code"]) &&
      "class" in m && o.attrs["klass"] == m["class"]
  {
  }

  /**
   * StudentTimetableResult.make maps `course_list` element-wise into `courses`, keeps the
   * semesters and encodes the student id as 'student'.
   */
  lemma StudentTimetableFields(m: map<string, Value>)
    requires StudentTimetableOf(m).Success?
    ensures var o := StudentTimetableOf(m).value;
      o.Object? && o.cls == "StudentTimetableResult" &&
      "course_list" in m && MappedFrom(Course, m["course_list"], o.attrs["courses"]) &&
      "semester_list" in m && o.attrs["semesters"] == m["semester_list"] &&
      "student_code" in m && o.attrs["student_id"] == m["student_code"] &&
      Decrypt(o.attrs["student_id_encoded"], "student") == Some(m["student_code"])
  {
    StudentTimetableStages(m);
    var courses := ListItemsOf(Course, m, "course_list").value;
    StudentTimetableWithAttrs(m, courses);
    ListItemsMapped(Course, m, "course_list");
    RoundTrip("student", m["student_code"]);
  }

  /** TeacherTimetableResult.make maps `course_list` before it looks at the other keys. */
  lemma TeacherTimetableStages(m: map<string, Value>)
    requires TeacherTimetableOf(m).Success?
    ensures ListItemsOf(Course, m, "course_list").Success?
    ensures TeacherTimetableOf(m) == TeacherTimetableWith(m, ListItemsOf(Course, m, "course_list").value)
  {
  }

  /** The rest of TeacherTimetableResult.make stores the courses, the sorted semesters and the identifiers. */
  lemma TeacherTimetableWithAttrs(m: map<string, Value>, courses: seq<Value>)
    requires TeacherTimetableWith(m, courses).Success?
    ensures var o := TeacherTimetableWith(m, courses).value;
      o.Object? && o.cls == "TeacherTimetableResult" && o.attrs.Keys == TeacherTimetableClass.fields &&
      o.attrs["courses"] == List(courses) &&
      "semester_list" in m && IsStrList(m["semester_list"]) &&
      o.attrs["semesters"] == SortedSemesters(m["semester_list"]) &&
      "teacher_code" in m && o.attrs["teacher_id"] == m["teacher_code"] &&
      o.attrs["teacher_id_encoded"] == Encrypt("teacher", m["teacher_code"])
  {
  }

  /**
   * TeacherTimetableResult.make maps `course_list` element-wise into `courses`, stores the
   * upstream semesters in ascending order and encodes the teacher id as 'teacher'.
   */
  lemma TeacherTimetableFields(m: map<string, Value>)
    requires TeacherTimetableOf(m).Success?
    ensures var o := TeacherTimetableOf(m).value;
      o.Object? && o.cls == "TeacherTimetableResult" &&
      "course_list" in m && MappedFrom(Course, m["course_list"], o.attrs["courses"]) &&
      "semester_list" in m && SortedFrom(o.attrs["semesters"], m["semester_list"]) &&
      "teacher_code" in m && o.attrs["teacher_id"] == m["teacher_code"] &&
      Decrypt(o.attrs["teacher_id_encoded"], "teacher") == Some(m["teacher_code"])
  {
    TeacherTimetableStages(m);
    var courses := ListItemsOf(Course, m, "course_list").value;
    TeacherTimetableWithAttrs(m, courses);
    ListItemsMapped(Course, m, "course_list");
    RoundTrip("teacher", m["teacher_code"]);
  }

  /**
   * ClassroomTimetableResult.make maps `course_list` element-wise into `courses`, stores the
   * upstream semesters in ascending order and encodes the room id as 'room'.
   */
  lemma ClassroomTimetableFields(m: map<string, Value>)
    requires ClassroomTimetableOf(m).Success? && "course_list" in m
    ensures var o := ClassroomTimetableOf(m).value;
      o.Object? && o.cls == "ClassroomTimetableResult" &&
      MappedFrom(Course, m["course_list"], o.attrs["courses"]) &&
      "semester_list" in m && SortedFrom(o.attrs["semesters"], m["semester_list"]) &&
      "room_code" in m && o.attrs["room_id"] == m["room_code"] &&
      Decrypt(o.attrs["room_id_encoded"], "room") == Some(m["room_code"])
  {
    var courses := ItemsOf(Course, m["course_list"].items).value;
    assert ClassroomTimetableOf(m) == ClassroomTimetableWith(m, courses);
    ClassroomTimetableWithAttrs(m, courses);
    MapEachElementwise(Factory(Course), m["course_list"].items);
    RoundTrip("room", m["room_code"]);
  }
}
