/** The page that owns the roster: the student list, whether the entry form is
    shown, and which student (if any) is being edited. */
module IndexPage {
  import opened Types
  import opened RiskCalculator

  // ---------------------------------------------------------------------------
  // The list values the handlers build.

  /** `students.map(s => s.id === id ? updated : s)`. */
  function ReplaceById(students: seq<Student>, id: string, updated: Student): (result: seq<Student>)
    ensures |result| == |students|
    ensures forall i :: 0 <= i < |students| ==>
      result[i] == if students[i].id == id then updated else students[i]
    decreases |students|
  {
    if students == [] then []
    else [if students[0].id == id then updated else students[0]]
         + ReplaceById(students[1..], id, updated)
  }

  /** `students.filter(s => s.id !== id)`. */
  function RemoveById(students: seq<Student>, id: string): (result: seq<Student>)
    ensures forall s :: s in result <==> s in students && s.id != id
    ensures |result| <= |students|
    decreases |students|
  {
    if students == [] then []
    else (if students[0].id == id then [] else [students[0]])
         + RemoveById(students[1..], id)
  }

  /** The ids of a list, in order. */
  function Ids(students: seq<Student>): (ids: seq<string>)
    ensures |ids| == |students|
    ensures forall i :: 0 <= i < |students| ==> ids[i] == students[i].id
  {
    seq(|students|, i requires 0 <= i < |students| => students[i].id)
  }

  /** The records that carry a given id, in order. */
  function WithId(students: seq<Student>, id: string): (matching: seq<Student>)
    ensures forall s :: s in matching <==> s in students && s.id == id
    decreases |students|
  {
    if students == [] then []
    else (if students[0].id == id then [students[0]] else [])
         + WithId(students[1..], id)
  }

  // ---------------------------------------------------------------------------
  // Properties of the list values.

  /** An update that keeps the edited id leaves the list of ids as it was. */
  lemma ReplaceKeepsIds(students: seq<Student>, id: string, updated: Student)
    requires updated.id == id
    ensures Ids(ReplaceById(students, id, updated)) == Ids(students)
  {
  }

  /** Updating an id no record carries changes nothing. */
  lemma ReplaceAbsentIsIdentity(students: seq<Student>, id: string, updated: Student)
    requires id !in Ids(students)
    ensures ReplaceById(students, id, updated) == students
  {
    assert forall i :: 0 <= i < |students| ==> students[i].id != id by {
      forall i | 0 <= i < |students| ensures students[i].id != id {
        assert Ids(students)[i] == students[i].id;
      }
    }
  }

  /** Deleting splits over concatenation, so the records kept stay in their
      relative order. */
  lemma {:induction false} RemoveDistributes(front: seq<Student>, back: seq<Student>, id: string)
    ensures RemoveById(front + back, id) == RemoveById(front, id) + RemoveById(back, id)
    decreases |front|
  {
    if front == [] {
      assert front + back == back;
    } else {
      assert (front + back)[0] == front[0];
      assert (front + back)[1..] == front[1..] + back;
      RemoveDistributes(front[1..], back, id);
    }
  }

  /** Deleting drops exactly the records with that id: their number is what
      the list loses. */
  lemma {:induction false} RemoveCount(students: seq<Student>, id: string)
    ensures |RemoveById(students, id)| == |students| - |WithId(students, id)|
    decreases |students|
  {
    if students != [] {
      RemoveCount(students[1..], id);
    }
  }

  /** Deleting an id no record carries changes nothing. */
  lemma {:induction false} RemoveAbsentIsIdentity(students: seq<Student>, id: string)
    requires forall s :: s in students ==> s.id != id
    ensures RemoveById(students, id) == students
    decreases |students|
  {
    if students != [] {
      assert students[0] in students;
      assert forall s :: s in students[1..] ==> s in students;
      RemoveAbsentIsIdentity(students[1..], id);
      assert students == [students[0]] + students[1..];
    }
  }

  /** Deleting twice is deleting once. */
  lemma RemoveIdempotent(students: seq<Student>, id: string)
    ensures RemoveById(RemoveById(students, id), id) == RemoveById(students, id)
  {
    RemoveAbsentIsIdentity(RemoveById(students, id), id);
  }

  // ---------------------------------------------------------------------------
  // The three records the page starts with.

  /** The three records the page starts with; each record's timestamp is
      taken separately. */
  function SeedStudents(first: string, second: string, third: string): (seed: seq<Student>)
    ensures Ids(seed) == ["1", "2", "3"]
    ensures seed[0].lastUpdated == first && seed[1].lastUpdated == second &&
      seed[2].lastUpdated == third
    ensures seed[0].currentGpa == Finite(2.1) && seed[0].attendanceRate == Finite(75.0) &&
      seed[0].absences == Finite(15.0)
    ensures seed[1].currentGpa == Finite(3.8) && seed[1].attendanceRate == Finite(95.0) &&
      seed[1].absences == Finite(3.0)
    ensures seed[2].currentGpa == Finite(2.5) && seed[2].attendanceRate == Finite(68.0) &&
      seed[2].absences == Finite(22.0)
  {
    [
      Student("1", "Emma Johnson", "Grade 10", Finite(2.1), Finite(75.0), Finite(15.0),
              "emma.johnson@school.edu", first),
      Student("2", "Marcus Chen", "Grade 11", Finite(3.8), Finite(95.0), Finite(3.0),
              "marcus.chen@school.edu", second),
      Student("3", "Sofia Rodriguez", "Grade 9", Finite(2.5), Finite(68.0), Finite(22.0),
              "sofia.rodriguez@school.edu", third)
    ]
  }

  /** The first seed record (GPA 2.1, attendance 75, 15 absences) scores
      20 + 20 + 5 = 45: high, exactly on the threshold (15 absences are more
      than 10). */
  lemma FirstSeedHigh(first: string, second: string, third: string)
    ensures Assess(SeedStudents(first, second, third)[0]).score == 45
    ensures Assess(SeedStudents(first, second, third)[0]).level == High
  {
    var s := SeedStudents(first, second, third)[0];
    ScoreByAxis(s);
    GpaAxis(s.currentGpa);
    AttendanceAxis(s.attendanceRate);
    AbsenceAxis(s.absences);
  }

  /** The second seed record (GPA 3.8, attendance 95, 3 absences) scores 0:
      low, with the good-standing pair alone. */
  lemma SecondSeedLow(first: string, second: string, third: string)
    ensures Assess(SeedStudents(first, second, third)[1]).score == 0
    ensures Assess(SeedStudents(first, second, third)[1]).level == Low
    ensures Assess(SeedStudents(first, second, third)[1]).factors == [GoodStanding]
    ensures Assess(SeedStudents(first, second, third)[1]).recommendations == [ContinuePerformance]
  {
    var s := SeedStudents(first, second, third)[1];
    HitsByAxis(s);
    GpaAxis(s.currentGpa);
    AttendanceAxis(s.attendanceRate);
    AbsenceAxis(s.absences);
  }

  /** The third seed record (GPA 2.5, attendance 68, 22 absences) scores
      10 + 30 + 15 = 55: high. */
  lemma ThirdSeedHigh(first: string, second: string, third: string)
    ensures Assess(SeedStudents(first, second, third)[2]).score == 55
    ensures Assess(SeedStudents(first, second, third)[2]).level == High
  {
    var s := SeedStudents(first, second, third)[2];
    ScoreByAxis(s);
    GpaAxis(s.currentGpa);
    AttendanceAxis(s.attendanceRate);
    AbsenceAxis(s.absences);
  }

  // ---------------------------------------------------------------------------
  // The page state and its handlers; each handler is one atomic transition.

  class Roster {
    var students: seq<Student>
    var showForm: bool
    var editingStudent: Option<Student>

    /** The seed records, with the timestamp each was created at. */
    constructor (first: string, second: string, third: string)
      ensures students == SeedStudents(first, second, third)
      ensures !showForm && editingStudent == None
    {
      students := SeedStudents(first, second, third);
      showForm := false;
      editingStudent := None;
    }

    /** The header's "Add Student" button. */
    method OpenForm()
      modifies this
      ensures showForm
      ensures students == old(students) && editingStudent == old(editingStudent)
    {
      showForm := true;
    }

    /** Appends the new record, with the id and timestamp supplied by the
        caller, and closes the form. */
    method AddStudent(data: StudentData, id: string, timestamp: string)
      modifies this
      ensures students == old(students) + [WithIdentity(data, id, timestamp)]
      ensures !showForm && editingStudent == old(editingStudent)
    {
      var newStudent := WithIdentity(data, id, timestamp);
      students := students + [newStudent];
      showForm := false;
    }

    method EditStudent(student: Student)
      modifies this
      ensures editingStudent == Some(student) && showForm
      ensures students == old(students)
    {
      editingStudent := Some(student);
      showForm := true;
    }

    /** Replaces every record with the edited id by the submitted data under
        that same id; does nothing when no student is being edited. */
    method UpdateStudent(data: StudentData, timestamp: string)
      modifies this
      ensures old(editingStudent) == None ==>
        students == old(students) && showForm == old(showForm) && editingStudent == None
      ensures old(editingStudent) != None ==>
        var id := old(editingStudent).value.id;
        && students == ReplaceById(old(students), id, WithIdentity(data, id, timestamp))
        && !showForm && editingStudent == None
    {
      if editingStudent == None {
        return;
      }
      var id := editingStudent.value.id;
      var updatedStudent := WithIdentity(data, id, timestamp);
      students := ReplaceById(students, id, updatedStudent);
      showForm := false;
      editingStudent := None;
    }

    method DeleteStudent(studentId: string)
      modifies this
      ensures students == RemoveById(old(students), studentId)
      ensures showForm == old(showForm) && editingStudent == old(editingStudent)
    {
      students := RemoveById(students, studentId);
    }

    method FormClose()
      modifies this
      ensures !showForm && editingStudent == None
      ensures students == old(students)
    {
      showForm := false;
      editingStudent := None;
    }

    /** The form's submit goes to the update handler while a student is being
        edited and to the add handler otherwise. */
    method SubmitForm(data: StudentData, id: string, timestamp: string)
      modifies this
      ensures old(editingStudent) == None ==>
        students == old(students) + [WithIdentity(data, id, timestamp)] && !showForm
      ensures old(editingStudent) != None ==>
        var editedId := old(editingStudent).value.id;
        students == ReplaceById(old(students), editedId, WithIdentity(data, editedId, timestamp))
      ensures !showForm && editingStudent == None
    {
      if editingStudent != None {
        UpdateStudent(data, timestamp);
      } else {
        AddStudent(data, id, timestamp);
      }
    }
  }
}
