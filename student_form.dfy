/** The entry form: six text fields, a validation chain on submit, and a
    per-field change handler. Parsing the numeric fields happens outside the
    model; the parsed numbers are inputs. */
module StudentForm {
  import opened Types

  /** The form's text state, one string per input. */
  datatype FormData = FormData(
    name: string,
    grade: string,
    currentGpa: string,
    attendanceRate: string,
    absences: string,
    email: string)

  /** Blank fields, or the edited student's values; `numberText` stands for
      the number-to-text conversion, which is never empty. */
  function InitialFormData(initial: Option<Student>, numberText: Num -> string): (form: FormData)
    ensures initial == None ==> form == FormData("", "", "", "", "", "")
    ensures initial != None ==>
      form.name == initial.value.name && form.grade == initial.value.grade &&
      form.email == initial.value.email &&
      form.currentGpa == numberText(initial.value.currentGpa) &&
      form.attendanceRate == numberText(initial.value.attendanceRate) &&
      form.absences == numberText(initial.value.absences)
  {
    match initial
    case None => FormData("", "", "", "", "", "")
    case Some(s) =>
      FormData(s.name, s.grade, numberText(s.currentGpa), numberText(s.attendanceRate),
               numberText(s.absences), s.email)
  }

  // ---------------------------------------------------------------------------
  // Submitting.

  datatype Rejection = MissingField | GpaOutOfRange | AttendanceOutOfRange | NegativeAbsences

  /** The alert shown for each rejection. */
  function AlertMessage(reason: Rejection): (message: string)
    ensures reason == MissingField <==> message == "Please fill in all fields"
    ensures reason == GpaOutOfRange <==> message == "GPA must be between 0.0 and 4.0"
    ensures reason == AttendanceOutOfRange <==> message == "Attendance rate must be between 0 and 100"
    ensures reason == NegativeAbsences <==> message == "Absences cannot be negative"
  {
    match reason
    case MissingField => "Please fill in all fields"
    case GpaOutOfRange => "GPA must be between 0.0 and 4.0"
    case AttendanceOutOfRange => "Attendance rate must be between 0 and 100"
    case NegativeAbsences => "Absences cannot be negative"
  }

  /** Either the alert's reason, or the data handed to the submit callback. */
  datatype SubmitOutcome = Rejected(reason: Rejection) | Submitted(data: StudentData)

  /** No field is the empty string. */
  predicate AllPresent(form: FormData) {
    form.name != "" && form.grade != "" && form.currentGpa != "" &&
    form.attendanceRate != "" && form.absences != "" && form.email != ""
  }

  /** A number no range comparison rejects: within [low, high], or NaN, for
      which every comparison is false. */
  predicate WithinOrNaN(x: Num, low: real, high: real) {
    x == NaN || low <= x.value <= high
  }

  /** A number the "not negative" check lets through. */
  predicate NotNegative(x: Num) {
    x == NaN || x.value >= 0.0
  }

  /** The submit handler: presence, then GPA, then attendance, then absences;
      the first check that fails decides, and only when all pass is anything
      submitted. */
  function HandleSubmit(form: FormData, gpa: Num, attendance: Num, absences: Num): (outcome: SubmitOutcome)
    ensures outcome == Rejected(MissingField) <==> !AllPresent(form)
    ensures outcome == Rejected(GpaOutOfRange) <==>
      AllPresent(form) && !WithinOrNaN(gpa, 0.0, 4.0)
    ensures outcome == Rejected(AttendanceOutOfRange) <==>
      AllPresent(form) && WithinOrNaN(gpa, 0.0, 4.0) && !WithinOrNaN(attendance, 0.0, 100.0)
    ensures outcome == Rejected(NegativeAbsences) <==>
      AllPresent(form) && WithinOrNaN(gpa, 0.0, 4.0) && WithinOrNaN(attendance, 0.0, 100.0) &&
      !NotNegative(absences)
    ensures outcome.Submitted? <==>
      AllPresent(form) && WithinOrNaN(gpa, 0.0, 4.0) && WithinOrNaN(attendance, 0.0, 100.0) &&
      NotNegative(absences)
    ensures outcome.Submitted? ==>
      outcome.data == StudentData(form.name, form.grade, gpa, attendance, absences, form.email)
  {
    if !AllPresent(form) then Rejected(MissingField)
    else if Below(gpa, 0.0) || Above(gpa, 4.0) then Rejected(GpaOutOfRange)
    else if Below(attendance, 0.0) || Above(attendance, 100.0) then Rejected(AttendanceOutOfRange)
    else if Below(absences, 0.0) then Rejected(NegativeAbsences)
    else Submitted(StudentData(form.name, form.grade, gpa, attendance, absences, form.email))
  }

  /** The range bounds themselves are accepted. */
  lemma BoundsAccepted(form: FormData)
    requires AllPresent(form)
    ensures HandleSubmit(form, Finite(0.0), Finite(0.0), Finite(0.0)).Submitted?
    ensures HandleSubmit(form, Finite(4.0), Finite(100.0), Finite(0.0)).Submitted?
  {
  }

  /** Text that parses to NaN passes every range check and is submitted as NaN. */
  lemma NaNPassesRangeChecks(form: FormData)
    requires AllPresent(form)
    ensures HandleSubmit(form, NaN, NaN, NaN) ==
      Submitted(StudentData(form.name, form.grade, NaN, NaN, NaN, form.email))
  {
  }

  /** Whatever is submitted has its finite numbers in the declared domains. */
  lemma SubmittedInDomain(form: FormData, gpa: Num, attendance: Num, absences: Num)
    requires HandleSubmit(form, gpa, attendance, absences).Submitted?
    ensures var data := HandleSubmit(form, gpa, attendance, absences).data;
      && (data.currentGpa.Finite? ==> 0.0 <= data.currentGpa.value <= 4.0)
      && (data.attendanceRate.Finite? ==> 0.0 <= data.attendanceRate.value <= 100.0)
      && (data.absences.Finite? ==> data.absences.value >= 0.0)
      && data.name != "" && data.grade != "" && data.email != ""
  {
  }

  // ---------------------------------------------------------------------------
  // Editing one field.

  /** The value of the field with the given key, if the form has one. */
  function FieldValue(form: FormData, field: string): Option<string> {
    if field == "name" then Some(form.name)
    else if field == "grade" then Some(form.grade)
    else if field == "currentGPA" then Some(form.currentGpa)
    else if field == "attendanceRate" then Some(form.attendanceRate)
    else if field == "absences" then Some(form.absences)
    else if field == "email" then Some(form.email)
    else None
  }

  /** `{ ...prev, [field]: value }` on the six known keys. */
  function WithField(form: FormData, field: string, value: string): (updated: FormData)
    ensures FieldValue(form, field) != None ==> FieldValue(updated, field) == Some(value)
    ensures FieldValue(form, field) == None ==> updated == form
    ensures forall other :: other != field ==> FieldValue(updated, other) == FieldValue(form, other)
  {
    if field == "name" then form.(name := value)
    else if field == "grade" then form.(grade := value)
    else if field == "currentGPA" then form.(currentGpa := value)
    else if field == "attendanceRate" then form.(attendanceRate := value)
    else if field == "absences" then form.(absences := value)
    else if field == "email" then form.(email := value)
    else form
  }

  /** The form's state. */
  class FormState {
    var formData: FormData

    constructor (initial: Option<Student>, numberText: Num -> string)
      ensures formData == InitialFormData(initial, numberText)
    {
      formData := InitialFormData(initial, numberText);
    }

    /** Stores the new text of one field; every other field keeps its text. */
    method HandleInputChange(field: string, value: string)
      modifies this
      ensures formData == WithField(old(formData), field, value)
    {
      formData := WithField(formData, field, value);
    }
  }
}
