/**
 * The factories of everyclass/server/rpc/api_server.py as they run: each pops, renames and
 * deletes keys of the incoming dict in place and then builds the dataclass. The dict is tracked
 * as `rest + assigns`: what is left of the payload after the pops, overridden by the keys the
 * factory assigned.
 */
module ApiServer {
  import opened Wrappers
  import opened Payload
  import opened Identifier
  import opened Semesters
  import opened CourseTeachers
  import opened Records

  /** `semester_list.sort()` as intended: the sorted list itself. */
  method SortSemesters(v: Value) returns (r: Result<Value, MapError>)
    ensures IsStrList(v) ==>
      r.Success? && IsStrList(r.value) && Ascending(Strings(r.value)) &&
      multiset(Strings(r.value)) == multiset(Strings(v))
    ensures !IsStrList(v) ==> r == Failure(WrongShape("semester_list"))
  {
    if !IsStrList(v) {
      return Failure(WrongShape("semester_list"));
    }
    r := Success(SortedSemesters(v));
  }

  /** SearchResultStudentItem.make */
  method MakeSearchStudentItem(x: Value) returns (r: Result<Value, MapError>)
    ensures r == SearchStudentItemOf(x)
  {
    if !x.Dict? {
      return Failure(WrongShape("student_list"));
    }
    ghost var rest := x.entries;
    ghost var assigns: map<string, Value> := map[];
    var dct := new Dict(x.entries);
    assert dct.entries == rest + assigns;
    assert "student_code" in x.entries - {"semester_list"} <==> "student_code" in x.entries;
    assert "class" in x.entries - {"semester_list"} - {"student_code"} <==> "class" in x.entries;
    var semesterList :- PopTracked(dct, rest, assigns, "semester_list");
    rest := rest - {"semester_list"};
    var semesters :- SortSemesters(semesterList);
    SortedSemestersUnique(semesterList, semesters);
    SetTracked(dct, rest, assigns, "semesters", semesters);
    assigns := assigns["semesters" := semesters];
    var code :- PopTracked(dct, rest, assigns, "student_code");
    rest := rest - {"student_code"};
    SetTracked(dct, rest, assigns, "student_id", code);
    assigns := assigns["student_id" := code];
    SetTracked(dct, rest, assigns, "student_id_encoded", Encrypt("student", code));
    assigns := assigns["student_id_encoded" := Encrypt("student", code)];
    var klass :- PopTracked(dct, rest, assigns, "class");
    rest := rest - {"class"};
    SetTracked(dct, rest, assigns, "klass", klass);
    assigns := assigns["klass" := klass];
    r := BuildSlotsRecord(SearchStudentClass, dct, rest, assigns);
  }

  /** SearchResultTeacherItem.make */
  method MakeSearchTeacherItem(x: Value) returns (r: Result<Value, MapError>)
    ensures r == SearchTeacherItemOf(x)
  {
    if !x.Dict? {
      return Failure(WrongShape("teacher_list"));
    }
    ghost var rest := x.entries;
    ghost var assigns: map<string, Value> := map[];
    var dct := new Dict(x.entries);
    assert dct.entries == rest + assigns;
    assert "teacher_code" in x.entries - {"semester_list"} <==> "teacher_code" in x.entries;
    var semesterList :- PopTracked(dct, rest, assigns, "semester_list");
    rest := rest - {"semester_list"};
    var semesters :- SortSemesters(semesterList);
    SortedSemestersUnique(semesterList, semesters);
    SetTracked(dct, rest, assigns, "semesters", semesters);
    assigns := assigns["semesters" := semesters];
    var code :- PopTracked(dct, rest, assigns, "teacher_code");
    rest := rest - {"teacher_code"};
    SetTracked(dct, rest, assigns, "teacher_id", code);
    assigns := assigns["teacher_id" := code];
    SetTracked(dct, rest, assigns, "teacher_id_encoded", Encrypt("teacher", code));
    assigns := assigns["teacher_id_encoded" := Encrypt("teacher", code)];
    r := BuildSlotsRecord(SearchTeacherClass, dct, rest, assigns);
  }

  /** SearchResultClassroomItem.make */
  method MakeSearchClassroomItem(x: Value) returns (r: Result<Value, MapError>)
    ensures r == SearchClassroomItemOf(x)
  {
    if !x.Dict? {
      return Failure(WrongShape("room_list"));
    }
    ghost var rest := x.entries;
    ghost var assigns: map<string, Value> := map[];
    var dct := new Dict(x.entries);
    assert dct.entries == rest + assigns;
    assert "room_code" in x.entries - {"semester_list"} <==> "room_code" in x.entries;
    var semesterList :- PopTracked(dct, rest, assigns, "semester_list");
    rest := rest - {"semester_list"};
    var semesters :- SortSemesters(semesterList);
    SortedSemestersUnique(semesterList, semesters);
    SetTracked(dct, rest, assigns, "semesters", semesters);
    assigns := assigns["semesters" := semesters];
    var code :- PopTracked(dct, rest, assigns, "room_code");
    rest := rest - {"room_code"};
    SetTracked(dct, rest, assigns, "room_id", code);
    assigns := assigns["room_id" := code];
    SetTracked(dct, rest, assigns, "room_id_encoded", Encrypt("room", code));
    assigns := assigns["room_id_encoded" := Encrypt("room", code)];
    r := BuildSlotsRecord(SearchClassroomClass, dct, rest, assigns);
  }

  /** TeacherItem.make: `teacher_code` is read, not popped. */
  method MakeTeacherItem(x: Value) returns (r: Result<Value, MapError>)
    ensures r == TeacherItemOf(x)
  {
    if !x.Dict? {
      return Failure(WrongShape("teacher"));
    }
    ghost var rest := x.entries;
    ghost var assigns: map<string, Value> := map[];
    var dct := new Dict(x.entries);
    assert dct.entries == rest + assigns;
    var code :- GetTracked(dct, rest, assigns, "teacher_code");
    SetTracked(dct, rest, assigns, "teacher_id", code);
    assigns := assigns["teacher_id" := code];
    SetTracked(dct, rest, assigns, "teacher_id_encoded", Encrypt("teacher", code));
    assigns := assigns["teacher_id_encoded" := Encrypt("teacher", code)];
    r := BuildSlotsRecord(TeacherItemClass, dct, rest, assigns);
  }

  /** CourseItem.make, with the de-duplication loop of UniqueTeachers and the tags 'room' and 'klass'. */
  method MakeCourseItem(x: Value) returns (r: Result<Value, MapError>)
    ensures r == CourseItemOf(x)
  {
    if !x.Dict? {
      return Failure(WrongShape("course_list"));
    }
    ghost var rest := x.entries;
    ghost var assigns: map<string, Value> := map[];
    var dct := new Dict(x.entries);
    assert dct.entries == rest + assigns;
    assert "room_code" in x.entries - {"teacher_list"} <==> "room_code" in x.entries;
    assert "course_code" in x.entries - {"teacher_list"} - {"room_code"} <==> "course_code" in x.entries;
    var teacherList :- GetTracked(dct, rest, assigns, "teacher_list");
    if !teacherList.List? {
      return Failure(WrongShape("teacher_list"));
    }
    var unique :- UniqueTeachers(teacherList.items);
    SetTracked(dct, rest, assigns, "teachers", List(unique));
    assigns := assigns["teachers" := List(unique)];
    var deleted := DeleteTracked(dct, rest, assigns, "teacher_list");
    rest := rest - {"teacher_list"};
    var roomCode :- PopTracked(dct, rest, assigns, "room_code");
    rest := rest - {"room_code"};
    SetTracked(dct, rest, assigns, "room_id", roomCode);
    assigns := assigns["room_id" := roomCode];
    var courseCode :- PopTracked(dct, rest, assigns, "course_code");
    rest := rest - {"course_code"};
    SetTracked(dct, rest, assigns, "course_id", courseCode);
    assigns := assigns["course_id" := courseCode];
    SetTracked(dct, rest, assigns, "room_id_encoded", Encrypt("room", roomCode));
    assigns := assigns["room_id_encoded" := Encrypt("room", roomCode)];
    SetTracked(dct, rest, assigns, "course_id_encoded", Encrypt("klass", courseCode));
    assigns := assigns["course_id_encoded" := Encrypt("klass", courseCode)];
    r := BuildSlotsRecord(CourseItemClass, dct, rest, assigns);
  }

  /** CourseResultTeacherItem.make */
  method MakeCourseTeacherItem(x: Value) returns (r: Result<Value, MapError>)
    ensures r == CourseTeacherItemOf(x)
  {
    if !x.Dict? {
      return Failure(WrongShape("teacher_list"));
    }
    ghost var rest := x.entries;
    ghost var assigns: map<string, Value> := map[];
    var dct := new Dict(x.entries);
    assert dct.entries == rest + assigns;
    var code :- PopTracked(dct, rest, assigns, "teacher_code");
    rest := rest - {"teacher_code"};
    SetTracked(dct, rest, assigns, "teacher_id", code);
    assigns := assigns["teacher_id" := code];
    r := BuildSlotsRecord(CourseTeacherClass, dct, rest, assigns);
  }

  /** CourseResultStudentItem.make as intended: `student_code` is renamed, not dropped. */
  method MakeCourseStudentItem(x: Value) returns (r: Result<Value, MapError>)
    ensures r == CourseStudentItemOf(x)
  {
    if !x.Dict? {
      return Failure(WrongShape("student_list"));
    }
    ghost var rest := x.entries;
    ghost var assigns: map<string, Value> := map[];
    var dct := new Dict(x.entries);
    assert dct.entries == rest + assigns;
    assert "student_code" in x.entries - {"class"} <==> "student_code" in x.entries;
    var klass :- PopTracked(dct, rest, assigns, "class");
    rest := rest - {"class"};
    SetTracked(dct, rest, assigns, "klass", klass);
    assigns := assigns["klass" := klass];
    var code :- PopTracked(dct, rest, assigns, "student_code");
    rest := rest - {"student_code"};
    SetTracked(dct, rest, assigns, "student_id", code);
    assigns := assigns["student_id" := code];
    SetTracked(dct, rest, assigns, "student_id_encoded", Encrypt("student", code));
    assigns := assigns["student_id_encoded" := Encrypt("student", code)];
    r := BuildSlotsRecord(CourseStudentClass, dct, rest, assigns);
  }

  /** The `make` of `kind`. */
  method MakeItem(kind: ItemKind, x: Value) returns (r: Result<Value, MapError>)
    ensures r == ItemOf(kind, x)
  {
    match kind
    case SearchStudent => r := MakeSearchStudentItem(x);
    case SearchTeacher => r := MakeSearchTeacherItem(x);
    case SearchClassroom => r := MakeSearchClassroomItem(x);
    case Course => r := MakeCourseItem(x);
    case CourseTeacher => r := MakeCourseTeacherItem(x);
    case CourseStudent => r := MakeCourseStudentItem(x);
  }

  /** `[X.make(x) for x in xs]`, element by element. */
  method MakeItems(kind: ItemKind, xs: seq<Value>) returns (r: Result<seq<Value>, MapError>)
    ensures r == ItemsOf(kind, xs)
  {
    var items: seq<Value> := [];
    for i := 0 to |xs|
      invariant ItemsOf(kind, xs[..i]) == Success(items)
    {
      var item := MakeItem(kind, xs[i]);
      assert xs[..i + 1][..i] == xs[..i];
      if item.Failure? {
        MapEachElementwise(Factory(kind), xs[..i]);
        assert forall j :: 0 <= j < i ==> xs[..i][j] == xs[j];
        MapEachFirstFailure(Factory(kind), xs, i);
        return Failure(item.error);
      }
      items := items + [item.value];
    }
    assert xs[..|xs|] == xs;
    r := Success(items);
  }

  /** `[X.make(x) for x in dct.pop(key)]` on a dict tracked as `rest + assigns`. */
  method MakeListItems(kind: ItemKind, dct: Dict, ghost rest: map<string, Value>, ghost assigns: map<string, Value>, key: string)
    returns (r: Result<seq<Value>, MapError>)
    requires dct.entries == rest + assigns && key !in assigns
    modifies dct
    ensures r == ListItemsOf(kind, rest, key)
    ensures dct.entries == (rest - {key}) + assigns
  {
    var xs :- PopTracked(dct, rest, assigns, key);
    if !xs.List? {
      return Failure(WrongShape(key));
    }
    r := MakeItems(kind, xs.items);
  }

  /** A comprehension over `key` depends only on the value stored under `key`. */
  lemma ListItemsFrame(kind: ItemKind, m1: map<string, Value>, m2: map<string, Value>, key: string)
    requires key in m1 <==> key in m2
    requires key in m1 ==> m1[key] == m2[key]
    ensures ListItemsOf(kind, m1, key) == ListItemsOf(kind, m2, key)
  {
  }

  /** SearchResult.make: `status` and `info` deleted, then the three lists mapped. */
  method MakeSearchResult(resp: map<string, Value>) returns (r: Result<Value, MapError>)
    ensures r == SearchResultOf(resp)
  {
    ghost var rest := resp;
    ghost var assigns: map<string, Value> := map[];
    var dct := new Dict(resp);
    assert dct.entries == rest + assigns;
    assert "info" in resp - {"status"} <==> "info" in resp;
    :- DeleteTracked(dct, rest, assigns, "status");
    rest := rest - {"status"};
    :- DeleteTracked(dct, rest, assigns, "info");
    rest := rest - {"info"};
    ListItemsFrame(SearchStudent, rest, resp, "student_list");
    var students :- MakeListItems(SearchStudent, dct, rest, assigns, "student_list");
    rest := rest - {"student_list"};
    SetTracked(dct, rest, assigns, "students", List(students));
    assigns := assigns["students" := List(students)];
    ListItemsFrame(SearchTeacher, rest, resp, "teacher_list");
    var teachers :- MakeListItems(SearchTeacher, dct, rest, assigns, "teacher_list");
    rest := rest - {"teacher_list"};
    SetTracked(dct, rest, assigns, "teachers", List(teachers));
    r := FinishSearchResult(resp, dct, students, teachers);
  }

  /** The rest of SearchResult.make once `students` and `teachers` are set. */
  method FinishSearchResult(ghost m: map<string, Value>, dct: Dict, students: seq<Value>, teachers: seq<Value>)
    returns (r: Result<Value, MapError>)
    requires "status" in m && "info" in m && ListItemsOf(SearchStudent, m, "student_list") == Success(students)
    requires ListItemsOf(SearchTeacher, m, "teacher_list") == Success(teachers)
    requires dct.entries == (m - {"status"} - {"info"} - {"student_list"} - {"teacher_list"})
      + map["students" := List(students), "teachers" := List(teachers)]
    modifies dct
    ensures r == SearchResultOf(m)
  {
    ghost var rest := m - {"status"} - {"info"} - {"student_list"} - {"teacher_list"};
    ghost var assigns := map["students" := List(students), "teachers" := List(teachers)];
    ListItemsFrame(SearchClassroom, rest, m, "room_list");
    var classrooms :- MakeListItems(SearchClassroom, dct, rest, assigns, "room_list");
    rest := rest - {"room_list"};
    SetTracked(dct, rest, assigns, "classrooms", List(classrooms));
    assigns := assigns["classrooms" := List(classrooms)];
    r := BuildSlotsRecord(SearchResultClass, dct, rest, assigns);
  }

  /** ClassroomTimetableResult.make as intended: `course_list` is mapped when present. */
  method MakeClassroomTimetable(resp: map<string, Value>) returns (r: Result<Value, MapError>)
    ensures r == ClassroomTimetableOf(resp)
  {
    ghost var rest := resp;
    ghost var assigns: map<string, Value> := map[];
    var dct := new Dict(resp);
    assert dct.entries == rest + assigns;
    assert "course_list" in resp - {"status"} <==> "course_list" in resp;
    :- DeleteTracked(dct, rest, assigns, "status");
    rest := rest - {"status"};
    var courseList := PopOrTracked(dct, rest, assigns, "course_list", List([]));
    rest := rest - {"course_list"};
    if !courseList.List? {
      return Failure(WrongShape("course_list"));
    }
    var courses :- MakeItems(Course, courseList.items);
    SetTracked(dct, rest, assigns, "courses", List(courses));
    r := FinishClassroomTimetable(resp, dct, courses);
  }

  /** The rest of ClassroomTimetableResult.make once `courses` is set. */
  method FinishClassroomTimetable(ghost m: map<string, Value>, dct: Dict, courses: seq<Value>) returns (r: Result<Value, MapError>)
    requires dct.entries == (m - {"status"} - {"course_list"}) + map["courses" := List(courses)]
    modifies dct
    ensures r == ClassroomTimetableWith(m, courses)
  {
    ghost var rest := m - {"status"} - {"course_list"};
    ghost var assigns := map["courses" := List(courses)];
    assert "semester_list" in m - {"status"} - {"course_list"} <==> "semester_list" in m;
    assert "room_code" in m - {"status"} - {"course_list"} - {"semester_list"} <==> "room_code" in m;
    var semesterList :- PopTracked(dct, rest, assigns, "semester_list");
    rest := rest - {"semester_list"};
    var semesters :- SortSemesters(semesterList);
    SortedSemestersUnique(semesterList, semesters);
    SetTracked(dct, rest, assigns, "semesters", semesters);
    assigns := assigns["semesters" := semesters];
    var roomCode :- GetTracked(dct, rest, assigns, "room_code");
    SetTracked(dct, rest, assigns, "room_id", roomCode);
    assigns := assigns["room_id" := roomCode];
    SetTracked(dct, rest, assigns, "room_id_encoded", Encrypt("room", roomCode));
    assigns := assigns["room_id_encoded" := Encrypt("room", roomCode)];
    r := BuildSlotsRecord(ClassroomTimetableClass, dct, rest, assigns);
  }

  /** StudentResult.make as intended: `semester_list` taken as it is. */
  method MakeStudentResult(resp: map<string, Value>) returns (r: Result<Value, MapError>)
    ensures r == StudentResultOf(resp)
  {
    ghost var rest := resp;
    ghost var assigns: map<string, Value> := map[];
    var dct := new Dict(resp);
    assert dct.entries == rest + assigns;
    assert "semester_list" in resp - {"status"} <==> "semester_list" in resp;
    assert "student_code" in resp - {"status"} - {"semester_list"} <==> "student_code" in resp;
    assert "class" in resp - {"status"} - {"semester_list"} - {"student_code"} <==> "class" in resp;
    :- DeleteTracked(dct, rest, assigns, "status");
    rest := rest - {"status"};
    var semesterList :- PopTracked(dct, rest, assigns, "semester_list");
    rest := rest - {"semester_list"};
    SetTracked(dct, rest, assigns, "semesters", semesterList);
    assigns := assigns["semesters" := semesterList];
    var code :- PopTracked(dct, rest, assigns, "student_code");
    rest := rest - {"student_code"};
    SetTracked(dct, rest, assigns, "student_id", code);
    assigns := assigns["student_id" := code];
    SetTracked(dct, rest, assigns, "student_id_encoded", Encrypt("student", code));
    assigns := assigns["student_id_encoded" := Encrypt("student", code)];
    var klass :- PopTracked(dct, rest, assigns, "class");
    rest := rest - {"class"};
    SetTracked(dct, rest, assigns, "klass", klass);
    assigns := assigns["klass" := klass];
    r := BuildDirectRecord(StudentResultClass, dct, rest, assigns);
  }

  /** StudentTimetableResult.make as intended: `semester_list` taken as it is. */
  method MakeStudentTimetable(resp: map<string, Value>) returns (r: Result<Value, MapError>)
    ensures r == StudentTimetableOf(resp)
  {
    ghost var rest := resp;
    ghost var assigns: map<string, Value> := map[];
    var dct := new Dict(resp);
    assert dct.entries == rest + assigns;
    assert "course_list" in resp - {"status"} <==> "course_list" in resp;
    assert "semester_list" in resp - {"status"} - {"course_list"} <==> "semester_list" in resp;
    :- DeleteTracked(dct, rest, assigns, "status");
    rest := rest - {"status"};
    ListItemsFrame(Course, rest, resp, "course_list");
    var courses :- MakeListItems(Course, dct, rest, assigns, "course_list");
    rest := rest - {"course_list"};
    SetTracked(dct, rest, assigns, "courses", List(courses));
    assigns := assigns["courses" := List(courses)];
    var semesterList :- PopTracked(dct, rest, assigns, "semester_list");
    rest := rest - {"semester_list"};
    SetTracked(dct, rest, assigns, "semesters", semesterList);
    r := FinishStudentTimetable(resp, dct, courses);
  }

  /** The rest of StudentTimetableResult.make once `courses` and `semesters` are set. */
  method FinishStudentTimetable(ghost m: map<string, Value>, dct: Dict, courses: seq<Value>) returns (r: Result<Value, MapError>)
    requires "semester_list" in m
    requires dct.entries == (m - {"status"} - {"course_list"} - {"semester_list"})
      + map["courses" := List(courses), "semesters" := m["semester_list"]]
    modifies dct
    ensures r == StudentTimetableWith(m, courses)
  {
    ghost var rest := m - {"status"} - {"course_list"} - {"semester_list"};
    ghost var assigns := map["courses" := List(courses), "semesters" := m["semester_list"]];
    assert "student_code" in rest <==> "student_code" in m;
    assert "class" in rest - {"student_code"} <==> "class" in m;
    var code :- PopTracked(dct, rest, assigns, "student_code");
    rest := rest - {"student_code"};
    SetTracked(dct, rest, assigns, "student_id", code);
    assigns := assigns["student_id" := code];
    SetTracked(dct, rest, assigns, "student_id_encoded", Encrypt("student", code));
    assigns := assigns["student_id_encoded" := Encrypt("student", code)];
    var klass :- PopTracked(dct, rest, assigns, "class");
    rest := rest - {"class"};
    SetTracked(dct, rest, assigns, "klass", klass);
    assigns := assigns["klass" := klass];
    r := BuildDirectRecord(StudentTimetableClass, dct, rest, assigns);
  }

  /** TeacherTimetableResult.make as intended: `semester_list` sorted. */
  method MakeTeacherTimetable(resp: map<string, Value>) returns (r: Result<Value, MapError>)
    ensures r == TeacherTimetableOf(resp)
  {
    ghost var rest := resp;
    ghost var assigns: map<string, Value> := map[];
    var dct := new Dict(resp);
    assert dct.entries == rest + assigns;
    assert "course_list" in resp - {"status"} <==> "course_list" in resp;
    :- DeleteTracked(dct, rest, assigns, "status");
    rest := rest - {"status"};
    ListItemsFrame(Course, rest, resp, "course_list");
    var courses :- MakeListItems(Course, dct, rest, assigns, "course_list");
    rest := rest - {"course_list"};
    SetTracked(dct, rest, assigns, "courses", List(courses));
    r := FinishTeacherTimetable(resp, dct, courses);
  }

  /** The rest of TeacherTimetableResult.make once `courses` is set. */
  method FinishTeacherTimetable(ghost m: map<string, Value>, dct: Dict, courses: seq<Value>) returns (r: Result<Value, MapError>)
    requires dct.entries == (m - {"status"} - {"course_list"}) + map["courses" := List(courses)]
    modifies dct
    ensures r == TeacherTimetableWith(m, courses)
  {
    ghost var rest := m - {"status"} - {"course_list"};
    ghost var assigns := map["courses" := List(courses)];
    assert "semester_list" in m - {"status"} - {"course_list"} <==> "semester_list" in m;
    assert "teacher_code" in m - {"status"} - {"course_list"} - {"semester_list"} <==> "teacher_code" in m;
    var semesterList :- PopTracked(dct, rest, assigns, "semester_list");
    rest := rest - {"semester_list"};
    var semesters :- SortSemesters(semesterList);
    SortedSemestersUnique(semesterList, semesters);
    SetTracked(dct, rest, assigns, "semesters", semesters);
    assigns := assigns["semesters" := semesters];
    var code :- PopTracked(dct, rest, assigns, "teacher_code");
    rest := rest - {"teacher_code"};
    SetTracked(dct, rest, assigns, "teacher_id", code);
    assigns := assigns["teacher_id" := code];
    SetTracked(dct, rest, assigns, "teacher_id_encoded", Encrypt("teacher", code));
    assigns := assigns["teacher_id_encoded" := Encrypt("teacher", code)];
    r := BuildDirectRecord(TeacherTimetableClass, dct, rest, assigns);
  }

  /** CourseResult.make: both lists mapped, then the codes renamed and encoded. */
  method MakeCourseResult(resp: map<string, Value>) returns (r: Result<Value, MapError>)
    ensures r == CourseResultOf(resp)
  {
    ghost var rest := resp;
    ghost var assigns: map<string, Value> := map[];
    var dct := new Dict(resp);
    assert dct.entries == rest + assigns;
    assert "teacher_list" in resp - {"status"} <==> "teacher_list" in resp;
    assert "student_list" in resp - {"status"} - {"teacher_list"} <==> "student_list" in resp;
    :- DeleteTracked(dct, rest, assigns, "status");
    rest := rest - {"status"};
    ListItemsFrame(CourseTeacher, rest, resp, "teacher_list");
    var teachers :- MakeListItems(CourseTeacher, dct, rest, assigns, "teacher_list");
    rest := rest - {"teacher_list"};
    SetTracked(dct, rest, assigns, "teachers", List(teachers));
    assigns := assigns["teachers" := List(teachers)];
    ListItemsFrame(CourseStudent, rest, resp, "student_list");
    var students :- MakeListItems(CourseStudent, dct, rest, assigns, "student_list");
    rest := rest - {"student_list"};
    SetTracked(dct, rest, assigns, "students", List(students));
    r := FinishCourseResult(resp, dct, teachers, students);
  }

  /** The rest of CourseResult.make once `teachers` and `students` are set. */
  method FinishCourseResult(ghost m: map<string, Value>, dct: Dict, teachers: seq<Value>, students: seq<Value>)
    returns (r: Result<Value, MapError>)
    requires dct.entries == (m - {"status"} - {"teacher_list"} - {"student_list"})
      + map["teachers" := List(teachers), "students" := List(students)]
    modifies dct
    ensures r == CourseResultWith(m, teachers, students)
  {
    ghost var rest := m - {"status"} - {"teacher_list"} - {"student_list"};
    ghost var assigns := map["teachers" := List(teachers), "students" := List(students)];
    assert "course_code" in m - {"status"} - {"teacher_list"} - {"student_list"} <==> "course_code" in m;
    assert "room_code" in m - {"status"} - {"teacher_list"} - {"student_list"} - {"course_code"} <==> "room_code" in m;
    var courseCode :- PopTracked(dct, rest, assigns, "course_code");
    rest := rest - {"course_code"};
    SetTracked(dct, rest, assigns, "course_id", courseCode);
    assigns := assigns["course_id" := courseCode];
    SetTracked(dct, rest, assigns, "course_id_encoded", Encrypt("klass", courseCode));
    assigns := assigns["course_id_encoded" := Encrypt("klass", courseCode)];
    var roomCode :- PopTracked(dct, rest, assigns, "room_code");
    rest := rest - {"room_code"};
    SetTracked(dct, rest, assigns, "room_id", roomCode);
    assigns := assigns["room_id" := roomCode];
    SetTracked(dct, rest, assigns, "room_id_encoded", Encrypt("room", roomCode));
    assigns := assigns["room_id_encoded" := Encrypt("room", roomCode)];
    r := BuildSlotsRecord(CourseResultClass, dct, rest, assigns);
  }

  /** `teacher.name + teacher.title` is defined for a teacher item whose name and title are strings. */
  predicate Labelled(t: Value) {
    t.Object? && "name" in t.attrs && t.attrs["name"].Str? && "title" in t.attrs && t.attrs["title"].Str?
  }

  function Label(t: Value): string
    requires Labelled(t)
  {
    t.attrs["name"].s + t.attrs["title"].s
  }

  function Labels(teachers: seq<Value>): (ls: seq<string>)
    requires forall i :: 0 <= i < |teachers| ==> Labelled(teachers[i])
    ensures |ls| == |teachers| && forall i :: 0 <= i < |teachers| ==> ls[i] == Label(teachers[i])
  {
    seq(|teachers|, i requires 0 <= i < |teachers| && Labelled(teachers[i]) => Label(teachers[i]))
  }

  /** The labels with '、' between consecutive ones; the empty string for no labels. */
  function JoinLabels(ls: seq<string>): string {
    if |ls| == 0 then ""
    else if |ls| == 1 then ls[0]
    else JoinLabels(ls[..|ls| - 1]) + "、" + ls[|ls| - 1]
  }

  /** Every label followed by '、': what the loop of teacher_list_to_str accumulates. */
  function Terminated(ls: seq<string>): string {
    if |ls| == 0 then "" else Terminated(ls[..|ls| - 1]) + ls[|ls| - 1] + "、"
  }

  lemma {:induction false} TerminatedIsJoinedPlusSeparator(ls: seq<string>)
    requires |ls| > 0
    ensures Terminated(ls) == JoinLabels(ls) + "、"
    decreases |ls|
  {
    if |ls| > 1 {
      TerminatedIsJoinedPlusSeparator(ls[..|ls| - 1]);
    }
  }

  /**
   * Joining n labels none of which contains '、' puts exactly n - 1 separators into the result,
   * so the labels can be told apart again.
   */
  lemma {:induction false} JoinLabelsSeparators(ls: seq<string>)
    requires |ls| > 0
    requires forall i :: 0 <= i < |ls| ==> '、' !in ls[i]
    ensures multiset(JoinLabels(ls))['、'] == |ls| - 1
    decreases |ls|
  {
    if |ls| == 1 {
      assert '、' !in ls[0];
    } else {
      var init := ls[..|ls| - 1];
      forall i | 0 <= i < |init| ensures '、' !in init[i] {
        assert init[i] == ls[i];
      }
      JoinLabelsSeparators(init);
      assert '、' !in ls[|ls| - 1];
      assert multiset(JoinLabels(ls)) == multiset(JoinLabels(init)) + multiset("、") + multiset(ls[|ls| - 1]);
    }
  }

  /**
   * teacher_list_to_str: each name and title followed by '、', then the last character dropped.
   * A teacher whose name or title is missing or not a string raises (AttributeError/TypeError).
   */
  method TeacherListToStr(teachers: seq<Value>) returns (r: Result<string, MapError>)
    ensures r.Success? <==> forall i :: 0 <= i < |teachers| ==> Labelled(teachers[i])
    ensures r.Failure? ==> r.error == WrongShape("teachers")
    ensures r.Success? ==> r.value == JoinLabels(Labels(teachers))
  {
    var s := "";
    for i := 0 to |teachers|
      invariant forall j :: 0 <= j < i ==> Labelled(teachers[j])
      invariant s == Terminated(Labels(teachers[..i]))
    {
      if !Labelled(teachers[i]) {
        return Failure(WrongShape("teachers"));
      }
      assert Labels(teachers[..i + 1])[..i] == Labels(teachers[..i]);
      s := s + teachers[i].attrs["name"].s + teachers[i].attrs["title"].s + "、";
    }
    assert teachers[..|teachers|] == teachers;
    ghost var ls := Labels(teachers);
    if |s| == 0 {
      // Python's `string[:-1]` on the empty string is the empty string.
      r := Success("");
    } else {
      TerminatedIsJoinedPlusSeparator(ls);
      r := Success(s[..|s| - 1]);
      assert r.value == JoinLabels(ls);
    }
  }

  /** `keyword.replace("/", "")`. */
  function StripSlashes(s: string): (r: string)
    ensures '/' !in r
    ensures multiset(r) == multiset(s)['/' := 0]
    ensures '/' !in s ==> r == s
  {
    if |s| == 0 then ""
    else
      assert s == [s[0]] + s[1..];
      if s[0] == '/' then StripSlashes(s[1..]) else [s[0]] + StripSlashes(s[1..])
  }

  /** Stripping works piece by piece, so the characters kept stay in their order. */
  lemma {:induction false} StripSlashesConcat(a: string, b: string)
    ensures StripSlashes(a + b) == StripSlashes(a) + StripSlashes(b)
    decreases |a|
  {
    if |a| > 0 {
      assert (a + b)[0] == a[0] && (a + b)[1..] == a[1..] + b;
      StripSlashesConcat(a[1..], b);
      if a[0] == '/' {
        assert StripSlashes(a + b) == StripSlashes(a[1..] + b);
        assert StripSlashes(a) == StripSlashes(a[1..]);
      } else {
        assert StripSlashes(a + b) == [a[0]] + StripSlashes(a[1..] + b);
        assert StripSlashes(a) == [a[0]] + StripSlashes(a[1..]);
      }
    } else {
      assert a + b == b;
    }
  }

  /** The exception the status check of every APIServer call raises. */
  function StatusError(resp: map<string, Value>): (e: MapError)
    requires !StatusOk(resp)
    ensures "status" !in resp <==> e == KeyMissing("status")
    ensures "status" in resp <==> e == NonSuccessStatus
  {
    if "status" !in resp then KeyMissing("status") else NonSuccessStatus
  }

  /** `if resp["status"] != "success": raise RpcException(...)` */
  method CheckStatus(resp: map<string, Value>) returns (c: Check<MapError>)
    ensures c.Pass? <==> StatusOk(resp)
    ensures c.Fail? ==> c.error == StatusError(resp)
  {
    if "status" !in resp {
      return Fail(KeyMissing("status"));
    }
    if resp["status"] != Str("success") {
      return Fail(NonSuccessStatus);
    }
    return Pass;
  }

  /*
   * The APIServer class methods. `upstream(path)` stands for the parsed JSON body the upstream
   * service returns for a GET of `path` below the configured base URL.
   */

  /** What APIServer.search returns or raises for `keyword`, as one value. */
  function SearchOutcome(keyword: string, upstream: string -> map<string, Value>): Result<Value, MapError> {
    var resp := upstream("/v2/search/" + StripSlashes(keyword));
    if StatusOk(resp) then SearchResultOf(resp) else Failure(StatusError(resp))
  }

  /** APIServer.search: slashes are removed from the keyword before it becomes part of the path. */
  method Search(keyword: string, upstream: string -> map<string, Value>) returns (r: Result<Value, MapError>)
    ensures var resp := upstream("/v2/search/" + StripSlashes(keyword));
      if StatusOk(resp) then r == SearchResultOf(resp) else r == Failure(StatusError(resp))
    ensures r == SearchOutcome(keyword, upstream)
  {
    var resp := upstream("/v2/search/" + StripSlashes(keyword));
    :- CheckStatus(resp);
    r := MakeSearchResult(resp);
  }

  /** APIServer.get_student */
  method GetStudent(studentId: string, upstream: string -> map<string, Value>) returns (r: Result<Value, MapError>)
    ensures var resp := upstream("/v2/student/" + studentId);
      if StatusOk(resp) then r == StudentResultOf(resp) else r == Failure(StatusError(resp))
  {
    var resp := upstream("/v2/student/" + studentId);
    :- CheckStatus(resp);
    r := MakeStudentResult(resp);
  }

  /** APIServer.get_student_timetable */
  method GetStudentTimetable(studentId: string, semester: string, upstream: string -> map<string, Value>)
    returns (r: Result<Value, MapError>)
    ensures var resp := upstream("/v2/student/" + studentId + "/timetable/" + semester);
      if StatusOk(resp) then r == StudentTimetableOf(resp) else r == Failure(StatusError(resp))
  {
    var resp := upstream("/v2/student/" + studentId + "/timetable/" + semester);
    :- CheckStatus(resp);
    r := MakeStudentTimetable(resp);
  }

  /** APIServer.get_teacher_timetable */
  method GetTeacherTimetable(teacherId: string, semester: string, upstream: string -> map<string, Value>)
    returns (r: Result<Value, MapError>)
    ensures var resp := upstream("/v2/teacher/" + teacherId + "/timetable/" + semester);
      if StatusOk(resp) then r == TeacherTimetableOf(resp) else r == Failure(StatusError(resp))
  {
    var resp := upstream("/v2/teacher/" + teacherId + "/timetable/" + semester);
    :- CheckStatus(resp);
    r := MakeTeacherTimetable(resp);
  }

  /** APIServer.get_classroom_timetable: note the room comes before the semester in the path. */
  method GetClassroomTimetable(semester: string, roomId: string, upstream: string -> map<string, Value>)
    returns (r: Result<Value, MapError>)
    ensures var resp := upstream("/v2/room/" + roomId + "/timetable/" + semester);
      if StatusOk(resp) then r == ClassroomTimetableOf(resp) else r == Failure(StatusError(resp))
  {
    var resp := upstream("/v2/room/" + roomId + "/timetable/" + semester);
    :- CheckStatus(resp);
    r := MakeClassroomTimetable(resp);
  }

  /** APIServer.get_course */
  method GetCourse(semester: string, courseId: string, upstream: string -> map<string, Value>)
    returns (r: Result<Value, MapError>)
    ensures var resp := upstream("/v2/course/" + semester + "/" + courseId);
      if StatusOk(resp) then r == CourseResultOf(resp) else r == Failure(StatusError(resp))
  {
    var resp := upstream("/v2/course/" + semester + "/" + courseId);
    :- CheckStatus(resp);
    r := MakeCourseResult(resp);
  }
}
