/** The teacher's dashboard: the roster of students, the form that appends a
    student, removal by id, and the guard in front of the lesson-plan
    generator. Every handler produces a new state instead of mutating the old
    one, so the state is a value and each handler a function. */
module Dashboard {
  import opened Types

  /** The three students the roster starts with. */
  const MockStudents: seq<Student> := [
    Student("1", "Ana Pérez", "ana@example.com", "Piano", Intermedio, "2024-01-15"),
    Student("2", "Carlos Díaz", "carlos@example.com", "Guitarra", Principiante, "2024-03-10"),
    Student("3", "Lucía Silva", "lucia@example.com", "Flauta", Avanzado, "2023-11-05")
  ]

  /** The fields of the "new student" form. */
  datatype StudentForm = StudentForm(name: string, email: string, instrument: string, level: Level)

  /** The form as it is opened and as it is left after saving. */
  const EmptyForm := StudentForm("", "", "", Principiante)

  /** What the generator is asked for: the student's name, instrument and
      level, and the topic of the lesson. */
  datatype LessonRequest = LessonRequest(name: string, instrument: string, level: Level, topic: string)

  /** The dashboard's state: the roster, the modal, the form, the selected
      student, the last plan, the busy flag and the topic typed in. */
  datatype DashboardState = DashboardState(
    students: seq<Student>,
    modalOpen: bool,
    form: StudentForm,
    selectedId: Option<string>,
    lessonPlan: string,
    isGenerating: bool,
    topic: string)

  const InitialState := DashboardState(MockStudents, false, EmptyForm, None, "", false, "")

  /** No two students of the roster share an id. */
  predicate UniqueIds(students: seq<Student>)
  {
    forall i, j | 0 <= i < j < |students| :: students[i].id != students[j].id
  }

  /** Some student of the roster has this id. */
  predicate HasId(students: seq<Student>, id: string)
  {
    exists x | x in students :: x.id == id
  }

  /** The roster starts with three students whose ids are distinct. */
  lemma InitialRoster()
    ensures |InitialState.students| == 3 && UniqueIds(InitialState.students)
    ensures !InitialState.modalOpen && InitialState.form == EmptyForm
    ensures InitialState.selectedId == None && !InitialState.isGenerating
  {
  }

  // ------------------------------------------------------------------
  // Adding a student
  // ------------------------------------------------------------------

  /** handleAddStudent: a student made of the form's fields, a fresh id and
      today's date is appended; the modal closes and the form is emptied.
      The id (random) and the date (the clock) are parameters. */
  function AddStudent(s: DashboardState, id: string, today: string): (r: DashboardState)
    ensures |r.students| == |s.students| + 1
    ensures r.students[..|s.students|] == s.students
    ensures var x := r.students[|s.students|];
      x.id == id && x.name == s.form.name && x.email == s.form.email &&
      x.instrument == s.form.instrument && x.level == s.form.level && x.joinedDate == today
    ensures !r.modalOpen && r.form == EmptyForm
    ensures r.selectedId == s.selectedId && r.lessonPlan == s.lessonPlan
    ensures r.isGenerating == s.isGenerating && r.topic == s.topic
  {
    var f := s.form;
    var student := Student(id, f.name, f.email, f.instrument, f.level, today);
    s.(students := s.students + [student], modalOpen := false, form := EmptyForm)
  }

  /** The "new student" button opens the modal; nothing else changes. */
  function OpenModal(s: DashboardState): (r: DashboardState)
    ensures r.modalOpen && r.students == s.students && r.form == s.form
    ensures r.selectedId == s.selectedId && r.lessonPlan == s.lessonPlan
    ensures r.isGenerating == s.isGenerating && r.topic == s.topic
  {
    s.(modalOpen := true)
  }

  /** An id not yet in the roster keeps the ids distinct. */
  lemma AddFreshKeepsUnique(s: DashboardState, id: string, today: string)
    requires UniqueIds(s.students) && !HasId(s.students, id)
    ensures UniqueIds(AddStudent(s, id, today).students)
  {
    var r := AddStudent(s, id, today).students;
    var n := |s.students|;
    forall i, j | 0 <= i < j < |r|
      ensures r[i].id != r[j].id
    {
      assert r[i] == s.students[i];
      if j < n {
        assert r[j] == s.students[j];
      } else {
        assert s.students[i] in s.students;
      }
    }
  }

  // ------------------------------------------------------------------
  // Removing a student
  // ------------------------------------------------------------------

  /** removeStudent: the roster without the students of that id. */
  function RemoveStudent(students: seq<Student>, id: string): (r: seq<Student>)
    ensures |r| <= |students|
    ensures forall x :: x in r <==> x in students && x.id != id
  {
    if |students| == 0 then []
    else
      var rest := RemoveStudent(students[1..], id);
      assert forall x :: x in students <==> x == students[0] || x in students[1..];
      if students[0].id == id then rest else [students[0]] + rest
  }

  /** Removal distributes over concatenation, so the kept students stay in
      their original order. */
  lemma {:induction false} RemoveAppend(a: seq<Student>, b: seq<Student>, id: string)
    ensures RemoveStudent(a + b, id) == RemoveStudent(a, id) + RemoveStudent(b, id)
  {
    if |a| == 0 {
      assert a + b == b;
    } else {
      assert (a + b)[0] == a[0];
      assert (a + b)[1..] == a[1..] + b;
      RemoveAppend(a[1..], b, id);
    }
  }

  /** A student is kept exactly when the id differs. */
  lemma RemoveSingle(x: Student, id: string)
    ensures RemoveStudent([x], id) == if x.id == id then [] else [x]
  {
    assert [x][1..] == [];
  }

  /** Nothing is removed when no student has the id. */
  lemma {:induction false} RemoveAbsent(students: seq<Student>, id: string)
    requires !HasId(students, id)
    ensures RemoveStudent(students, id) == students
  {
    if |students| > 0 {
      assert students[0] in students;
      assert forall x | x in students[1..] :: x in students;
      RemoveAbsent(students[1..], id);
      assert students == [students[0]] + students[1..];
    }
  }

  /** Removing twice is removing once. */
  lemma RemoveIdempotent(students: seq<Student>, id: string)
    ensures RemoveStudent(RemoveStudent(students, id), id) == RemoveStudent(students, id)
  {
    RemoveAbsent(RemoveStudent(students, id), id);
  }

  /** The number of students carrying an id. */
  function CountId(students: seq<Student>, id: string): nat
  {
    if |students| == 0 then 0
    else (if students[0].id == id then 1 else 0) + CountId(students[1..], id)
  }

  /** Exactly the students of that id are dropped. */
  lemma {:induction false} RemoveCount(students: seq<Student>, id: string)
    ensures |RemoveStudent(students, id)| + CountId(students, id) == |students|
  {
    if |students| > 0 {
      RemoveCount(students[1..], id);
    }
  }

  /** Removal keeps the ids distinct. */
  lemma {:induction false} RemoveKeepsUnique(students: seq<Student>, id: string)
    requires UniqueIds(students)
    ensures UniqueIds(RemoveStudent(students, id))
  {
    if |students| > 0 {
      var x, tail := students[0], students[1..];
      TailUnique(students);
      RemoveKeepsUnique(tail, id);
      var rest := RemoveStudent(tail, id);
      if x.id != id {
        forall y | y in rest
          ensures y.id != x.id
        {
          var k :| 0 <= k < |tail| && tail[k] == y;
          assert students[k + 1] == y;
        }
        ConsUnique(x, rest);
      }
    }
  }

  lemma TailUnique(students: seq<Student>)
    requires UniqueIds(students) && |students| > 0
    ensures UniqueIds(students[1..])
  {
    var tail := students[1..];
    forall i, j | 0 <= i < j < |tail|
      ensures tail[i].id != tail[j].id
    {
      assert tail[i] == students[i + 1] && tail[j] == students[j + 1];
    }
  }

  lemma ConsUnique(x: Student, rest: seq<Student>)
    requires UniqueIds(rest) && forall y | y in rest :: y.id != x.id
    ensures UniqueIds([x] + rest)
  {
    var r := [x] + rest;
    forall i, j | 0 <= i < j < |r|
      ensures r[i].id != r[j].id
    {
      assert r[j] == rest[j - 1];
      if i > 0 {
        assert r[i] == rest[i - 1];
      }
    }
  }

  /** Removing the student just added gives the old roster back, when the
      new id was not already in use. */
  lemma AddThenRemove(s: DashboardState, id: string, today: string)
    requires !HasId(s.students, id)
    ensures RemoveStudent(AddStudent(s, id, today).students, id) == s.students
  {
    var r := AddStudent(s, id, today).students;
    var n := |s.students|;
    assert r == s.students + [r[n]];
    RemoveAppend(s.students, [r[n]], id);
    RemoveAbsent(s.students, id);
    RemoveSingle(r[n], id);
  }

  // ------------------------------------------------------------------
  // The lesson-plan generator
  // ------------------------------------------------------------------

  /** students.find: the first student of that id, if any. */
  function FindStudent(students: seq<Student>, id: string): (r: Option<Student>)
    ensures r.None? <==> !HasId(students, id)
    ensures r.Some? ==> exists i | 0 <= i < |students| ::
      (students[i] == r.value && r.value.id == id && forall j | 0 <= j < i :: students[j].id != id)
  {
    if |students| == 0 then None
    else if students[0].id == id then Some(students[0])
    else
      var r := FindStudent(students[1..], id);
      assert forall x :: x in students <==> x == students[0] || x in students[1..];
      if r.Some? then
        var i :| 0 <= i < |students[1..]| && students[1..][i] == r.value &&
          r.value.id == id && forall j | 0 <= j < i :: students[1..][j].id != id;
        assert students[i + 1] == r.value;
        assert forall j | 0 <= j < i + 1 :: students[j].id != id by {
          forall j | 0 <= j < i + 1
            ensures students[j].id != id
          {
            if j > 0 {
              assert students[j] == students[1..][j - 1];
            }
          }
        }
        r
      else r
  }

  /** The wand button of a row selects that student; nothing else changes. */
  function SelectStudent(s: DashboardState, id: string): (r: DashboardState)
    ensures r.selectedId == Some(id) && r.students == s.students && r.topic == s.topic
    ensures r.modalOpen == s.modalOpen && r.form == s.form
    ensures r.lessonPlan == s.lessonPlan && r.isGenerating == s.isGenerating
  {
    s.(selectedId := Some(id))
  }

  /** The guard of handleGenerateAI: a non-empty selected id, a non-empty
      topic and a student of that id still in the roster. When it passes, the
      request names that student. */
  function GenerationRequest(s: DashboardState): (r: Option<LessonRequest>)
    ensures r.Some? <==>
      (s.selectedId.Some? && s.selectedId.value != "" && s.topic != "" && HasId(s.students, s.selectedId.value))
    ensures r.Some? ==> exists x | x in s.students ::
      (x.id == s.selectedId.value && r.value == LessonRequest(x.name, x.instrument, x.level, s.topic))
  {
    if s.selectedId.None? || s.selectedId.value == "" || s.topic == "" then None
    else
      match FindStudent(s.students, s.selectedId.value)
      case None => None
      case Some(x) => Some(LessonRequest(x.name, x.instrument, x.level, s.topic))
  }

  /** handleGenerateAI: the states the dashboard passes through. A failed
      guard leaves no trace; otherwise the dashboard is busy while the
      generator runs, then shows its plan and is no longer busy. The
      generator is a parameter. */
  function HandleGenerateAI(s: DashboardState, generate: LessonRequest -> string): (trace: seq<DashboardState>)
    ensures |trace| == 0 <==> GenerationRequest(s).None?
    ensures |trace| > 0 ==>
      (|trace| == 2 && trace[0].isGenerating && !trace[1].isGenerating &&
       trace[1].lessonPlan == generate(GenerationRequest(s).value))
    ensures forall k | 0 <= k < |trace| ::
      (trace[k].students == s.students && trace[k].selectedId == s.selectedId && trace[k].topic == s.topic)
    ensures forall k | 0 <= k < |trace| :: trace[k].modalOpen == s.modalOpen && trace[k].form == s.form
    ensures |trace| > 0 ==> trace[0].lessonPlan == s.lessonPlan
  {
    match GenerationRequest(s)
    case None => []
    case Some(req) =>
      var busy := s.(isGenerating := true);
      [busy, busy.(lessonPlan := generate(req), isGenerating := false)]
  }

  /** Selecting a student of a roster with distinct ids and typing a topic
      lets generation go ahead for exactly that student. */
  lemma SelectThenGenerate(s: DashboardState, i: nat)
    requires UniqueIds(s.students) && i < |s.students|
    requires s.students[i].id != "" && s.topic != ""
    ensures var x := s.students[i];
      GenerationRequest(SelectStudent(s, x.id)) == Some(LessonRequest(x.name, x.instrument, x.level, s.topic))
  {
    var x := s.students[i];
    assert x in s.students;
    var f := FindStudent(s.students, x.id);
    var k :| 0 <= k < |s.students| && s.students[k] == f.value &&
      f.value.id == x.id && forall j | 0 <= j < k :: s.students[j].id != x.id;
    assert k == i;
  }

  /** Once the selected student is removed, generation is refused. */
  lemma RemoveSelectedBlocksGeneration(s: DashboardState, id: string)
    requires s.selectedId == Some(id)
    ensures GenerationRequest(s.(students := RemoveStudent(s.students, id))).None?
  {
  }
}
