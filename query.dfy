/**
 * The search resolver of everyclass/server/query.py: how the `/query` page normalises the
 * keyword and turns the three lists of a search result into one navigation decision, and the
 * observability tags it picks on the way.
 */
module Query {
  import opened Wrappers
  import opened Payload
  import opened Semesters
  import opened Records
  import opened RecordProperties
  import opened ApiServer

  /** A character of the class `[A-Za-z0-9]`. */
  predicate IsAsciiAlnum(c: char) {
    'A' <= c <= 'Z' || 'a' <= c <= 'z' || '0' <= c <= '9'
  }

  /**
   * `re.match('^[A-Za-z0-9]*$', s)`: Python's `$` also matches just before a newline that ends
   * the string, so one trailing '\n' is accepted.
   */
  predicate MatchesIdPattern(s: string) {
    (forall i :: 0 <= i < |s| ==> IsAsciiAlnum(s[i])) ||
    (|s| > 0 && s[|s| - 1] == '\n' && forall i :: 0 <= i < |s| - 1 ==> IsAsciiAlnum(s[i]))
  }

  predicate IsAsciiUpper(c: char) {
    'A' <= c <= 'Z'
  }

  /** `str.lower()` on a character of an ASCII keyword. */
  function LowerChar(c: char): (r: char)
    ensures !IsAsciiUpper(r)
    ensures IsAsciiUpper(c) ==> r as int == c as int + 32
    ensures !IsAsciiUpper(c) ==> r == c
  {
    if IsAsciiUpper(c) then (c as int + 32) as char else c
  }

  /**
   * The keyword after line 43-44: a student or staff number (only letters and digits) is
   * lowercased, anything else (a name, a room) is passed through unchanged.
   */
  function NormalizeKeyword(s: string): (r: string)
    ensures |r| == |s|
    ensures MatchesIdPattern(s) ==> forall i :: 0 <= i < |r| ==> !IsAsciiUpper(r[i]) && LowerChar(s[i]) == r[i]
    ensures !MatchesIdPattern(s) ==> r == s
  {
    if MatchesIdPattern(s) then seq(|s|, i requires 0 <= i < |s| => LowerChar(s[i])) else s
  }

  /** Normalising twice is normalising once: a lowercased number still matches the pattern. */
  lemma NormalizeKeywordIdempotent(s: string)
    ensures NormalizeKeyword(NormalizeKeyword(s)) == NormalizeKeyword(s)
  {
    var r := NormalizeKeyword(s);
    if MatchesIdPattern(s) {
      if forall i :: 0 <= i < |s| ==> IsAsciiAlnum(s[i]) {
        assert forall i :: 0 <= i < |r| ==> IsAsciiAlnum(r[i]);
      } else {
        assert r[|r| - 1] == '\n';
        assert forall i :: 0 <= i < |r| - 1 ==> IsAsciiAlnum(r[i]);
      }
      assert MatchesIdPattern(r);
      assert NormalizeKeyword(r) == r;
    }
  }

  /** The page the resolver leads to. */
  datatype Decision =
    | MaintenancePage                                              // maintenance.html
    | PromptForKeyword                                             // flash "please enter" and back to the main page
    | ErrorPage(error: MapError)                                   // the search raised: error page
    | ClassroomChoice(name: string, classrooms: seq<Value>)        // several rooms: let the user choose
    | Redirect(resource: string, id: Value, semester: Value)       // /<resource>/<id>/<semester>
    | NoSemester                                                   // flash "no available semester"
    | SameName(name: string, students: seq<Value>, teachers: seq<Value>) // people with the same name
    | NotFound(rawKeyword: string)                                 // flash "nothing found for ..."
    | IndexFault                                                   // `semesters[-1]` on an empty list raises

  /** The values of the `query_resource_type` and `query_type` tags. */
  datatype Tags = Tags(resourceType: string, queryType: string)

  /** A search item the resolver can navigate to: it has its encoded id and a list of semesters. */
  predicate Navigable(v: Value, idKey: string) {
    v.Object? && idKey in v.attrs && "semesters" in v.attrs && v.attrs["semesters"].List?
  }

  predicate AllNavigable(vs: seq<Value>, idKey: string) {
    forall i :: 0 <= i < |vs| ==> Navigable(vs[i], idKey)
  }

  function SemesterItems(v: Value): seq<Value>
    requires v.Object? && "semesters" in v.attrs && v.attrs["semesters"].List?
  {
    v.attrs["semesters"].items
  }

  /** `xs[-1]`. */
  function Last(xs: seq<Value>): Value
    requires |xs| > 0
  {
    xs[|xs| - 1]
  }

  /**
   * Lines 54-107: classrooms first; then a single student or a single teacher; then everyone with
   * that name; then nothing found. A single match is opened at its last semester.
   */
  function Classify(keyword: string, rawKeyword: string, students: seq<Value>, teachers: seq<Value>, classrooms: seq<Value>)
    : (d: Decision)
    requires AllNavigable(students, "student_id_encoded") && AllNavigable(teachers, "teacher_id_encoded")
    requires AllNavigable(classrooms, "room_id_encoded")
    ensures d.ClassroomChoice? <==> |classrooms| > 1
    ensures d.ClassroomChoice? ==> d == ClassroomChoice(keyword, classrooms)
    ensures d.IndexFault? <==> |classrooms| == 1 && |SemesterItems(classrooms[0])| == 0
    ensures d.Redirect? && d.resource == "classroom" <==> |classrooms| == 1 && |SemesterItems(classrooms[0])| > 0
    ensures d.Redirect? && d.resource == "student" <==>
      |classrooms| == 0 && |students| == 1 && |teachers| == 0 && |SemesterItems(students[0])| > 0
    ensures d.Redirect? && d.resource == "teacher" <==>
      |classrooms| == 0 && |teachers| == 1 && |students| == 0 && |SemesterItems(teachers[0])| > 0
    ensures d.Redirect? ==> d.resource in {"classroom", "student", "teacher"}
    ensures d.Redirect? && d.resource == "classroom" ==>
      d.id == classrooms[0].attrs["room_id_encoded"] && d.semester == Last(SemesterItems(classrooms[0]))
    ensures d.Redirect? && d.resource == "student" ==>
      d.id == students[0].attrs["student_id_encoded"] && d.semester == Last(SemesterItems(students[0]))
    ensures d.Redirect? && d.resource == "teacher" ==>
      d.id == teachers[0].attrs["teacher_id_encoded"] && d.semester == Last(SemesterItems(teachers[0]))
    ensures d.NoSemester? <==> (|classrooms| == 0 &&
      ((|students| == 1 && |teachers| == 0 && |SemesterItems(students[0])| == 0) ||
       (|teachers| == 1 && |students| == 0 && |SemesterItems(teachers[0])| == 0)))
    ensures d.SameName? <==> |classrooms| == 0 && |students| + |teachers| >= 2
    ensures d.SameName? ==> d == SameName(keyword, students, teachers)
    ensures d.NotFound? <==> |classrooms| == 0 && |students| == 0 && |teachers| == 0
    ensures d.NotFound? ==> d.rawKeyword == rawKeyword
    ensures !d.MaintenancePage? && !d.PromptForKeyword? && !d.ErrorPage?
  {
    if |classrooms| >= 1 then
      if |classrooms| > 1 then ClassroomChoice(keyword, classrooms)
      else
        var sems := SemesterItems(classrooms[0]);
        if |sems| == 0 then IndexFault
        else Redirect("classroom", classrooms[0].attrs["room_id_encoded"], Last(sems))
    else if |students| == 1 && |teachers| == 0 then
      var sems := SemesterItems(students[0]);
      if |sems| < 1 then NoSemester
      else Redirect("student", students[0].attrs["student_id_encoded"], Last(sems))
    else if |teachers| == 1 && |students| == 0 then
      var sems := SemesterItems(teachers[0]);
      if |sems| < 1 then NoSemester
      else Redirect("teacher", teachers[0].attrs["teacher_id_encoded"], Last(sems))
    else if |teachers| >= 1 || |students| >= 1 then
      SameName(keyword, students, teachers)
    else
      NotFound(rawKeyword)
  }

  /**
   * The tags of lines 56-57, 66-70, 79-83, 93-97 and 104-105; `byName` is `contains_chinese(keyword)`.
   */
  function SearchTags(students: nat, teachers: nat, classrooms: nat, byName: bool): (t: Tags)
    ensures t.resourceType == "classroom" <==> classrooms >= 1
    ensures t.resourceType == "single_student" <==> classrooms == 0 && students == 1 && teachers == 0
    ensures t.resourceType == "single_teacher" <==> classrooms == 0 && teachers == 1 && students == 0
    ensures t.resourceType == "multiple_people" <==> classrooms == 0 && students + teachers >= 2
    ensures t.resourceType == "not_exist" <==> classrooms == 0 && students == 0 && teachers == 0
    ensures t.queryType == "other" <==> t.resourceType == "not_exist"
    ensures t.resourceType == "classroom" ==> t.queryType == "by_name"
    ensures t.queryType == "by_id" <==> t.resourceType != "classroom" && t.resourceType != "not_exist" && !byName
  {
    var personQuery := if byName then "by_name" else "by_id";
    if classrooms >= 1 then Tags("classroom", "by_name")
    else if students == 1 && teachers == 0 then Tags("single_student", personQuery)
    else if teachers == 1 && students == 0 then Tags("single_teacher", personQuery)
    else if teachers >= 1 || students >= 1 then Tags("multiple_people", personQuery)
    else Tags("not_exist", "other")
  }

  /** The items of a successful SearchResult are navigable, each with its own kind of id. */
  lemma SearchResultNavigable(m: map<string, Value>)
    requires SearchResultOf(m).Success?
    ensures var o := SearchResultOf(m).value;
      o.Object? && "students" in o.attrs && "teachers" in o.attrs && "classrooms" in o.attrs &&
      o.attrs["students"].List? && o.attrs["teachers"].List? && o.attrs["classrooms"].List? &&
      AllNavigable(o.attrs["students"].items, "student_id_encoded") &&
      AllNavigable(o.attrs["teachers"].items, "teacher_id_encoded") &&
      AllNavigable(o.attrs["classrooms"].items, "room_id_encoded")
  {
    SearchResultSucceeds(m);
    SearchResultElementwise(m);
    var o := SearchResultOf(m).value;
    StudentsNavigable(m["student_list"], o.attrs["students"]);
    TeachersNavigable(m["teacher_list"], o.attrs["teachers"]);
    ClassroomsNavigable(m["room_list"], o.attrs["classrooms"]);
  }

  lemma StudentsNavigable(src: Value, dst: Value)
    requires MappedFrom(SearchStudent, src, dst)
    ensures AllNavigable(dst.items, "student_id_encoded")
  {
    forall i | 0 <= i < |dst.items| ensures Navigable(dst.items[i], "student_id_encoded") {
      assert SearchStudentItemOf(src.items[i]) == Success(dst.items[i]);
      SearchStudentItemIds(src.items[i]);
      SearchStudentItemSemesters(src.items[i]);
    }
  }

  lemma TeachersNavigable(src: Value, dst: Value)
    requires MappedFrom(SearchTeacher, src, dst)
    ensures AllNavigable(dst.items, "teacher_id_encoded")
  {
    forall i | 0 <= i < |dst.items| ensures Navigable(dst.items[i], "teacher_id_encoded") {
      assert SearchTeacherItemOf(src.items[i]) == Success(dst.items[i]);
      SearchTeacherItemFields(src.items[i]);
    }
  }

  lemma ClassroomsNavigable(src: Value, dst: Value)
    requires MappedFrom(SearchClassroom, src, dst)
    ensures AllNavigable(dst.items, "room_id_encoded")
  {
    forall i | 0 <= i < |dst.items| ensures Navigable(dst.items[i], "room_id_encoded") {
      assert SearchClassroomItemOf(src.items[i]) == Success(dst.items[i]);
      SearchClassroomItemFields(src.items[i]);
    }
  }

  /** The semester a single search match is opened at is the latest of its upstream semesters. */
  lemma LastSemesterIsLatest(v: Value, source: Value)
    requires SortedFrom(v, source) && |v.items| > 0
    ensures v.items[|v.items| - 1].Str?
    ensures var last := v.items[|v.items| - 1].s;
      last in Strings(source) && forall x :: x in Strings(source) ==> StrLe(x, last)
  {
    SortUnique(Strings(source), Strings(v));
    LastIsLatest(Strings(source));
  }

  /**
   * The `/query` view (lines 19-107): the maintenance switch, the empty-keyword prompt, the
   * normalisation, the search and the classification. `containsChinese` stands for
   * `contains_chinese`; the tags are only set once a search result is in hand.
   */
  /** A search result the resolver can classify: three lists of navigable items. */
  predicate Classifiable(res: Value) {
    res.Object? && "students" in res.attrs && "teachers" in res.attrs && "classrooms" in res.attrs &&
    res.attrs["students"].List? && res.attrs["teachers"].List? && res.attrs["classrooms"].List? &&
    AllNavigable(res.attrs["students"].items, "student_id_encoded") &&
    AllNavigable(res.attrs["teachers"].items, "teacher_id_encoded") &&
    AllNavigable(res.attrs["classrooms"].items, "room_id_encoded")
  }

  /** The decision and tags the resolver derives from a classifiable search result. */
  function Resolve(keyword: string, rawKeyword: string, res: Value, byName: bool): (Decision, Tags)
    requires Classifiable(res)
  {
    var students := res.attrs["students"].items;
    var teachers := res.attrs["teachers"].items;
    var classrooms := res.attrs["classrooms"].items;
    (Classify(keyword, rawKeyword, students, teachers, classrooms),
     SearchTags(|students|, |teachers|, |classrooms|, byName))
  }

  function QueryPage(maintenance: bool, id: Option<string>, upstream: string -> map<string, Value>,
                     containsChinese: string -> bool): (o: (Decision, Option<Tags>))
    ensures maintenance ==> o == (MaintenancePage, None)
    ensures !maintenance && (id.None? || id.value == "") ==> o == (PromptForKeyword, None)
    ensures o.0.ErrorPage? ==> (o.1.None? && id.Some? &&
      SearchOutcome(NormalizeKeyword(id.value), upstream) == Failure(o.0.error))
    ensures !maintenance && id.Some? && id.value != "" ==> o.0.ErrorPage? || o.1.Some?
    ensures o.1.Some? ==> id.Some? && SearchOutcome(NormalizeKeyword(id.value), upstream).Success?
    ensures o.1.Some? ==> (o.1.value.resourceType == "not_exist" <==> o.0.NotFound?)
    ensures o.1.Some? ==> (o.1.value.resourceType == "multiple_people" <==> o.0.SameName?)
    ensures o.1.Some? ==> (o.1.value.resourceType == "classroom" <==>
      o.0.ClassroomChoice? || o.0.IndexFault? || (o.0.Redirect? && o.0.resource == "classroom"))
    ensures o.1.Some? ==>
      var keyword := NormalizeKeyword(id.value);
      var res := SearchOutcome(keyword, upstream).value;
      Classifiable(res) && (o.0, o.1.value) == Resolve(keyword, id.value, res, containsChinese(keyword))
  {
    if maintenance then (MaintenancePage, None)
    else if id.None? || id.value == "" then (PromptForKeyword, None)
    else
      var keyword := NormalizeKeyword(id.value);
      var result := SearchOutcome(keyword, upstream);
      if result.Failure? then (ErrorPage(result.error), None)
      else
        var resp := upstream("/v2/search/" + StripSlashes(keyword));
        SearchResultNavigable(resp);
        var (decision, tags) := Resolve(keyword, id.value, result.value, containsChinese(keyword));
        (decision, Some(tags))
  }

  /** A logged-in user, as kept in the session: `StudentSession(sid_orig, sid, name)`. */
  datatype Viewer = Viewer(sidOrig: Value, sid: Value, name: Value)

  /** The student page is shown, or the blocked page at level 1, 2 or 3. */
  datatype Access = Visible | Blocked(level: int)

  /**
   * The privacy gate of `get_student` (lines 146-169). `levelOf` stands for
   * `PrivacySettingsDAO.get_level`; `viewer` is the logged-in user, if any.
   */
  function Gate(levelOf: Value -> int, viewer: Option<Viewer>, studentId: Value): (a: Access)
    ensures a == Blocked(2) <==> levelOf(studentId) == 2 && (viewer.None? || viewer.value.sidOrig != studentId)
    ensures a == Blocked(1) <==> levelOf(studentId) == 1 && viewer.None?
    ensures a == Blocked(3) <==> levelOf(studentId) == 1 && viewer.Some? && levelOf(viewer.value.sidOrig) == 2
    ensures a.Blocked? ==> a.level in {1, 2, 3}
    ensures levelOf(studentId) !in {1, 2} ==> a == Visible
  {
    var level := levelOf(studentId);
    if level == 2 && (viewer.None? || viewer.value.sidOrig != studentId) then Blocked(2)
    else if level == 1 && viewer.None? then Blocked(1)
    else if level == 1 && levelOf(viewer.value.sidOrig) == 2 then Blocked(3)
    else Visible
  }

  /** Whatever the privacy level, a student logged in as themself sees their own page. */
  lemma OwnerAlwaysSees(levelOf: Value -> int, viewer: Viewer, studentId: Value)
    requires viewer.sidOrig == studentId
    ensures Gate(levelOf, Some(viewer), studentId) == Visible
  {
    if levelOf(studentId) == 1 {
      assert levelOf(viewer.sidOrig) == 1;
    }
  }

  /** Anonymous visitors see exactly the pages whose level is neither 1 nor 2. */
  lemma AnonymousSeesPublicOnly(levelOf: Value -> int, studentId: Value)
    ensures Gate(levelOf, None, studentId) == Visible <==> levelOf(studentId) !in {1, 2}
  {
  }

  /** What a request for the student page does: who sees it, and whether the visit is recorded. */
  datatype Visit = Visit(access: Access, tracked: bool)

  /**
   * `get_student` from the gate to the visitor track (lines 138-140, 146-169 and 182-186): the
   * page's own session entry is `StudentSession(student_id, student_id_encoded, name)`, and a
   * visit is recorded only for a shown page, at a level other than 2, by a logged-in viewer whose
   * session differs from that entry.
   */
  function StudentVisit(levelOf: Value -> int, viewer: Option<Viewer>, studentId: Value, encoded: Value, name: Value)
    : (v: Visit)
    ensures v.access == Gate(levelOf, viewer, studentId)
    ensures v.tracked ==> v.access == Visible && viewer.Some? && levelOf(studentId) != 2
    ensures v.tracked <==> (v.access == Visible && levelOf(studentId) != 2 && viewer.Some? &&
      viewer.value != Viewer(studentId, encoded, name))
  {
    var access := Gate(levelOf, viewer, studentId);
    if access.Blocked? then Visit(access, false)
    else Visit(access, levelOf(studentId) != 2 && viewer.Some? && viewer.value != Viewer(studentId, encoded, name))
  }

  /** A student's own visit is never recorded as a visit to their page. */
  lemma OwnVisitNotTracked(levelOf: Value -> int, studentId: Value, encoded: Value, name: Value)
    ensures !StudentVisit(levelOf, Some(Viewer(studentId, encoded, name)), studentId, encoded, name).tracked
  {
  }

  /**
   * The course type shown on the course page (lines 326-328): a non-empty type not ending in
   * '课' gets '课' appended; an empty or missing type is left alone.
   */
  function TypeWithSuffix(t: Value): (r: Value)
    ensures !t.Str? || t.s == [] ==> r == t
    ensures t.Str? && t.s != [] ==> r.Str? && |r.s| > 0 && r.s[|r.s| - 1] == '课' && t.s <= r.s && |r.s| <= |t.s| + 1
    ensures t.Str? && t.s != [] && t.s[|t.s| - 1] == '课' ==> r == t
  {
    if t.Str? && t.s != [] && t.s[|t.s| - 1] != '课' then Str(t.s + "课") else t
  }

  /** Applying the rule a second time changes nothing. */
  lemma TypeWithSuffixIdempotent(t: Value)
    ensures TypeWithSuffix(TypeWithSuffix(t)) == TypeWithSuffix(t)
  {
  }

  /** `course.type = course.type + '课'` on the course record, when the rule applies. */
  function AddTypeSuffix(course: Value): (c: Value)
    requires course.Object? && "type" in course.attrs
    ensures c.Object? && c.cls == course.cls && c.attrs.Keys == course.attrs.Keys
    ensures c.attrs["type"] == TypeWithSuffix(course.attrs["type"])
    ensures forall k :: k in course.attrs && k != "type" ==> c.attrs[k] == course.attrs[k]
  {
    Object(course.cls, course.attrs["type" := TypeWithSuffix(course.attrs["type"])])
  }
}
