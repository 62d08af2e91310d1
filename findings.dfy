/**
 * The factories of everyclass/server/rpc/api_server.py as they are written, where they differ
 * from what the rest of the code expects of them, each with a lemma that exhibits the
 * difference against the intended definition in Records (see Findings in README.md).
 */
module Findings {
  import opened Wrappers
  import opened Payload
  import opened Identifier
  import opened Semesters
  import opened CourseTeachers
  import opened Records
  import opened Query

  /**
   * SearchResultClassroomItem.make as written (lines 67-71): `list.sort()` sorts in place and
   * returns None, and None is what is stored as `semesters`. The student and teacher items
   * (lines 36, 53) and the timetables (lines 152, 241) do the same.
   */
  function SearchClassroomItemAsWritten(x: Value): Result<Value, MapError> {
    if !x.Dict? then Failure(WrongShape("room_list"))
    else
      var m := x.entries;
      if "semester_list" !in m then Failure(KeyMissing("semester_list"))
      else if !IsStrList(m["semester_list"]) then Failure(WrongShape("semester_list"))
      else if "room_code" !in m then Failure(KeyMissing("room_code"))
      else SlotsRecord(SearchClassroomClass, m - {"semester_list"} - {"room_code"}, map[
        "semesters" := Null,
        "room_id" := m["room_code"],
        "room_id_encoded" := Encrypt("room", m["room_code"])])
  }

  /**
   * Whenever the item is built, the written code stores None as its semesters, so the search
   * resolver cannot open it (`semesters[-1]` raises), while the intended item holds the sorted list.
   */
  lemma SortStoresNone(x: Value)
    requires SearchClassroomItemOf(x).Success?
    ensures SearchClassroomItemAsWritten(x).Success?
    ensures SearchClassroomItemAsWritten(x).value.attrs["semesters"] == Null
    ensures !Navigable(SearchClassroomItemAsWritten(x).value, "room_id_encoded")
    ensures Navigable(SearchClassroomItemOf(x).value, "room_id_encoded")
  {
  }

  /**
   * The de-duplication loop of CourseItem.make as written (lines 121-128): the membership test
   * reads `teacher["teacher_code"]` but the set is grown with `teacher.tid`, an attribute a dict
   * does not have, so the first unseen teacher raises AttributeError and `seen` never grows.
   */
  function DedupAsWritten(ts: seq<Value>, seen: set<Value>): Result<seq<Value>, MapError>
  {
    if |ts| == 0 then Success([])
    else
      var t := ts[0];
      if !t.Dict? then Failure(WrongShape("teacher_list"))
      else if "teacher_code" !in t.entries then Failure(KeyMissing("teacher_code"))
      else if t.entries["teacher_code"] in seen then DedupAsWritten(ts[1..], seen)
      else Failure(WrongShape("tid"))
  }

  /** Every course with at least one well-formed teacher fails as written, and succeeds as intended. */
  lemma TidRaises(ts: seq<Value>)
    requires |ts| > 0 && AllCoded(ts)
    ensures DedupAsWritten(ts, {}) == Failure(WrongShape("tid"))
    ensures Dedup(ts).Success?
  {
    DedupSucceeds(ts);
  }

  /**
   * CourseResultStudentItem.make as written (lines 180-184): `student_id` is popped again to be
   * encoded, so it is missing when the dataclass is built.
   */
  function CourseStudentItemAsWritten(x: Value): Result<Value, MapError> {
    if !x.Dict? then Failure(WrongShape("student_list"))
    else
      var m := x.entries;
      if "class" !in m then Failure(KeyMissing("class"))
      else if "student_code" !in m then Failure(KeyMissing("student_code"))
      else SlotsRecord(CourseStudentClass, m - {"class"} - {"student_code"} - {"student_id"}, map[
        "klass" := m["class"],
        "student_id_encoded" := Encrypt("student", m["student_code"])])
  }

  /** Every student entry that the intended factory accepts makes the written one raise TypeError. */
  lemma StudentIdPoppedTwice(x: Value)
    requires CourseStudentItemOf(x).Success?
    ensures CourseStudentItemAsWritten(x).Failure?
    ensures CourseStudentItemAsWritten(x).error.FieldMissing?
    ensures "student_id" in CourseStudentItemAsWritten(x).error.names
  {
    assert "student_id" in CourseStudentClass.fields;
  }

  /**
   * StudentResult.make as written (lines 197-203): each semester name is passed to
   * CourseItem.make, which indexes it like a dict. StudentTimetableResult.make (line 220) does
   * the same.
   */
  function StudentResultAsWritten(m: map<string, Value>): Result<Value, MapError> {
    if "status" !in m then Failure(KeyMissing("status"))
    else if "semester_list" !in m then Failure(KeyMissing("semester_list"))
    else if !m["semester_list"].List? then Failure(WrongShape("semester_list"))
    else
      var semesters :- ItemsOf(Course, m["semester_list"].items);
      if "student_code" !in m then Failure(KeyMissing("student_code"))
      else if "class" !in m then Failure(KeyMissing("class"))
      else DirectRecord(StudentResultClass, m - {"status"} - {"semester_list"} - {"student_code"} - {"class"}, map[
        "semesters" := List(semesters),
        "student_id" := m["student_code"],
        "student_id_encoded" := Encrypt("student", m["student_code"]),
        "klass" := m["class"]])
  }

  /** A student with at least one semester cannot be looked up as written. */
  lemma SemesterNamesAreNotCourses(m: map<string, Value>)
    requires StudentResultOf(m).Success?
    requires IsStrList(m["semester_list"]) && |m["semester_list"].items| > 0
    ensures StudentResultAsWritten(m) == Failure(WrongShape("course_list"))
  {
    var xs := m["semester_list"].items;
    assert Factory(Course)(xs[0]) == CourseItemOf(xs[0]) == Failure(WrongShape("course_list"));
    MapEachFirstFailure(Factory(Course), xs, 0);
  }

  /** ClassroomTimetableResult as declared in the source: there is no `semesters` field. */
  const ClassroomTimetableAsDeclared := Dataclass("ClassroomTimetableResult",
    {"room_id", "room_id_encoded", "name", "building", "campus", "semester", "courses"}, map[])

  /**
   * ClassroomTimetableResult.make as written (lines 149-155): `course_list` is never turned into
   * `courses`, so `ensure_slots` drops it (and the undeclared `semesters`) and `courses` is missing.
   */
  function ClassroomTimetableAsWritten(m: map<string, Value>): Result<Value, MapError> {
    if "status" !in m then Failure(KeyMissing("status"))
    else if "semester_list" !in m then Failure(KeyMissing("semester_list"))
    else if !IsStrList(m["semester_list"]) then Failure(WrongShape("semester_list"))
    else if "room_code" !in m then Failure(KeyMissing("room_code"))
    else SlotsRecord(ClassroomTimetableAsDeclared, m - {"status"} - {"semester_list"}, map[
      "room_id" := m["room_code"],
      "room_id_encoded" := Encrypt("room", m["room_code"])])
  }

  /** Every response the intended factory accepts (it sends `course_list`, not `courses`) fails as written. */
  lemma CoursesNeverSet(m: map<string, Value>)
    requires ClassroomTimetableOf(m).Success? && "courses" !in m
    ensures ClassroomTimetableAsWritten(m).Failure?
    ensures ClassroomTimetableAsWritten(m).error.FieldMissing?
    ensures "courses" in ClassroomTimetableAsWritten(m).error.names
  {
    assert "semester_list" in m && "room_code" in m;
    assert "courses" in ClassroomTimetableAsDeclared.fields;
  }

  /**
   * Even a response that carried its own `courses` would not give the classroom page what it
   * reads: the declared class has no `semesters` field, so `ensure_slots` drops the sorted list
   * and `room.semesters` (query.py line 285) raises AttributeError. The intended class keeps it.
   */
  lemma SemestersNotDeclared(m: map<string, Value>)
    requires ClassroomTimetableAsWritten(m).Success?
    ensures ClassroomTimetableAsWritten(m).value.Object?
    ensures "semesters" !in ClassroomTimetableAsWritten(m).value.attrs
    ensures ClassroomTimetableOf(m).Success? ==> "semesters" in ClassroomTimetableOf(m).value.attrs
  {
    assert "semesters" !in ClassroomTimetableAsDeclared.fields;
    assert "semesters" in ClassroomTimetableClass.fields;
  }

  /**
   * CourseItem.make as written (lines 119-136), with its de-duplication loop as written and the
   * identifiers encoded as 'klass' (the room) and 'class' (the course).
   */
  function CourseItemAsWritten(x: Value): Result<Value, MapError> {
    if !x.Dict? then Failure(WrongShape("course_list"))
    else
      var m := x.entries;
      if "teacher_list" !in m then Failure(KeyMissing("teacher_list"))
      else if !m["teacher_list"].List? then Failure(WrongShape("teacher_list"))
      else
        var teachers :- DedupAsWritten(m["teacher_list"].items, {});
        if "room_code" !in m then Failure(KeyMissing("room_code"))
        else if "course_code" !in m then Failure(KeyMissing("course_code"))
        else SlotsRecord(CourseItemClass, m - {"teacher_list"} - {"room_code"} - {"course_code"}, map[
          "teachers" := List(teachers),
          "room_id" := m["room_code"],
          "course_id" := m["course_code"],
          "room_id_encoded" := Encrypt("klass", m["room_code"]),
          "course_id_encoded" := Encrypt("class", m["course_code"])])
  }

  /**
   * A course without teachers is built as written, but the classroom page (decrypting with
   * 'room') and the course page (decrypting with 'klass') reject the identifiers it links to.
   */
  lemma CourseLinksRejected(x: Value)
    requires CourseItemOf(x).Success? && x.entries["teacher_list"] == List([])
    ensures CourseItemAsWritten(x).Success?
    ensures Decrypt(CourseItemAsWritten(x).value.attrs["room_id_encoded"], "room") == None
    ensures Decrypt(CourseItemAsWritten(x).value.attrs["course_id_encoded"], "klass") == None
  {
    var m := x.entries;
    assert "room_code" in m && "course_code" in m;
    NoTypeConfusion("klass", "room", m["room_code"]);
    NoTypeConfusion("class", "klass", m["course_code"]);
  }
}
