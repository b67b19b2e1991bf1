/** The records shared by the scorer, the roster, the entry form and the charts. */
module Types {

  datatype Option<T> = None | Some(value: T)

  /** A JavaScript number as the model needs it: a finite value, or NaN.
      Every comparison with NaN is false. */
  datatype Num = Finite(value: real) | NaN

  /** `x < bound` under JavaScript comparison. */
  predicate Below(x: Num, bound: real) {
    x.Finite? && x.value < bound
  }

  /** `x > bound` under JavaScript comparison. */
  predicate Above(x: Num, bound: real) {
    x.Finite? && x.value > bound
  }

  /** The four risk levels, from least to most severe. */
  datatype RiskLevel = Low | Moderate | High | Critical

  /** Position of a level in the severity order low < moderate < high < critical. */
  function Severity(level: RiskLevel): (rank: nat)
    ensures rank <= 3
    ensures rank == 0 <==> level == Low
    ensures rank == 3 <==> level == Critical
  {
    match level
    case Low => 0
    case Moderate => 1
    case High => 2
    case Critical => 3
  }

  datatype Student = Student(
    id: string,
    name: string,
    grade: string,
    currentGpa: Num,
    attendanceRate: Num,
    absences: Num,
    email: string,
    lastUpdated: string)

  /** What the entry form submits: a student without `id` and `lastUpdated`. */
  datatype StudentData = StudentData(
    name: string,
    grade: string,
    currentGpa: Num,
    attendanceRate: Num,
    absences: Num,
    email: string)

  /** The record built from submitted data, an id and a timestamp. */
  function WithIdentity(data: StudentData, id: string, timestamp: string): (s: Student)
    ensures s.id == id && s.lastUpdated == timestamp
    ensures s.name == data.name && s.grade == data.grade && s.email == data.email
    ensures s.currentGpa == data.currentGpa && s.attendanceRate == data.attendanceRate
    ensures s.absences == data.absences
  {
    Student(id, data.name, data.grade, data.currentGpa, data.attendanceRate,
            data.absences, data.email, timestamp)
  }

  datatype RiskAssessment = RiskAssessment(
    level: RiskLevel,
    score: int,
    factors: seq<string>,
    recommendations: seq<string>)
}
