# Student risk assessment — a verified model

The application tracks a roster of students. It scores each student's academic
risk from three numbers: GPA, attendance rate and absences. It then shows the
roster with summary cards, a distribution pie, a bar chart ordered by score
and a GPA/attendance scatter plot. Students are added, edited and deleted
through an entry form that validates its fields.

This project models that behaviour in Dafny and proves properties of it:

- `types.dfy` (module `Types`) holds the records. These are the student, the
  data the form submits, the four risk levels and the assessment. A JavaScript
  number is `Num`: either a finite real or `NaN`, and every comparison with
  `NaN` is false.
- `risk_calculator.dfy` (module `RiskCalculator`) covers the scorer.
  - `CalculateRiskLevel` is written as in the source. It keeps a running score
    and appends to two lists, one axis at a time, then picks the level by an
    if-chain and appends the good-standing pair when the level is low.
  - It is proved equal to `Assess`, a table-driven reference. `Assess` uses
    three band tables (threshold, points, factor, recommendation) and takes
    the first band that triggers on each axis.
  - The properties listed below are proved about `Assess`. The module also
    holds the colour and label switches.
- `risk_summary.dfy` (module `RiskSummary`) covers the summary cards.
  - The tally is the per-level counter `reduce`, written as a loop over the
    roster.
  - It derives the at-risk and critical counts and the rounded at-risk
    percentage.
- `index_page.dfy` (module `IndexPage`) covers the page state: the roster, the
  form's visibility and the student being edited. The handlers are methods of
  the class `Roster`. The lists they build (`map` by id, `filter` by id) are
  functions with their own lemmas.
- `student_form.dfy` (module `StudentForm`) covers the entry form:
  - the initial field texts;
  - the submit handler's early-return validation chain;
  - the per-field change handler.
- `risk_chart.dfy` (module `RiskChart`) covers the chart panel:
  - the pie slices;
  - the per-student points, with the bar data sorted by descending score;
  - the label-to-level map;
  - the two click handlers that select a student for the detail dialog.

The first seed record has GPA 2.1, attendance 75 and 15 absences. It scores
20 + 20 + 5 = 45, which is high: 15 absences exceed the "more than 10" band.
Reading the absence band as not triggered would give 40 and moderate; the
code gives 45 and high (`IndexPage.FirstSeedHigh`).

## Model

| member | source | states |
|---|---|---|
| RiskCalculator.CalculateRiskLevel | src/utils/riskCalculator.ts:4-90 | The imperative scorer returns exactly the table-driven assessment `Assess`: first-match band per axis, summed points, level by threshold, good-standing pair for low. |
| RiskCalculator.AddGpaRisk | src/utils/riskCalculator.ts:10-26 | The GPA if-chain adds the first triggering GPA band's points to the score and appends that band's factor and recommendation (nothing when none triggers). |
| RiskCalculator.AddAttendanceRisk | src/utils/riskCalculator.ts:29-45 | The attendance if-chain adds the first triggering attendance band's points and texts. |
| RiskCalculator.AddAbsenceRisk | src/utils/riskCalculator.ts:48-64 | The absence if-chain adds the first triggering absence band's points and texts. |
| RiskCalculator.FirstMatchIsFirst | src/utils/riskCalculator.ts:10-64 | An axis contributes nothing iff no band triggers; otherwise it contributes exactly the first band that triggers, and no earlier band triggers. |
| RiskCalculator.GpaAxis | src/utils/riskCalculator.ts:10-26 | GPA below 1.5, 2.0, 2.5, 3.0 gives the 40, 30, 20, 10 band respectively (first test that holds), otherwise no band. |
| RiskCalculator.AttendanceAxis | src/utils/riskCalculator.ts:29-45 | Attendance strictly below 60, 70, 80, 90 gives 40, 30, 20, 10 points respectively, otherwise no band. |
| RiskCalculator.AbsenceAxis | src/utils/riskCalculator.ts:48-64 | Absences strictly above 30, 20, 15, 10 give 20, 15, 10, 5 points respectively, otherwise no band. |
| RiskCalculator.BandBoundaries | src/utils/riskCalculator.ts:22-64 | The boundaries are strict: GPA 2.5 gives 10 and 3.0 gives 0; attendance 90 gives 0 and 89.5 gives 10; absences 10 give 0 and 11 give 5. |
| RiskCalculator.NaNTriggersNothing | src/utils/riskCalculator.ts:10-64 | A NaN value triggers no band of any axis, because every comparison with NaN is false. |
| RiskCalculator.ScoreByAxis | src/utils/riskCalculator.ts:5-64 | The score is the sum of the three axes' points. |
| RiskCalculator.AxisPoints | src/utils/riskCalculator.ts:9-64 | GPA contributes at most 40, attendance at most 40, absences at most 20. |
| RiskCalculator.ScoreInRange | src/utils/riskCalculator.ts:5-64 | The score always lies in [0, 100]. |
| RiskCalculator.TotalPointsAppend | src/utils/riskCalculator.ts:11-61 | Points accumulated over consecutive axes add up: the total of a concatenation is the sum of the totals. |
| RiskCalculator.HitsByAxis | src/utils/riskCalculator.ts:5-64 | Score, factors and recommendations are the GPA axis's, then attendance's, then absences', in that order. |
| RiskCalculator.LevelFor | src/utils/riskCalculator.ts:67-76 | Critical iff score >= 70, high iff 45 <= score < 70, moderate iff 20 <= score < 45, low iff score < 20. |
| RiskCalculator.LevelMonotone | src/utils/riskCalculator.ts:67-76 | A higher score never gives a less severe level. |
| RiskCalculator.FactorsPaired | src/utils/riskCalculator.ts:6-82 | Factors and recommendations have equal length; the i-th pair is one band's factor and recommendation, or the final good-standing pair of a low assessment. |
| RiskCalculator.HitsFromTables | src/utils/riskCalculator.ts:10-64 | Every band that scores comes from one of the three tables. |
| RiskCalculator.FactorOrder | src/utils/riskCalculator.ts:10-82 | Factors are the GPA factor, then attendance, then absences (each when present), then the good-standing factor when low. |
| RiskCalculator.GoodStandingIffLow | src/utils/riskCalculator.ts:79-82 | "Good academic standing" is among the factors iff the level is low; when low it is the last factor, paired with "Continue current performance"; factors are never empty. |
| RiskCalculator.GoodStandingNotABand | src/utils/riskCalculator.ts:10-64 | No band carries the good-standing texts, so they can only come from the low-level step. |
| RiskCalculator.LowWithFactors | src/utils/riskCalculator.ts:66-82 | A low assessment with real risk factors besides good standing has a score between 5 and 15. |
| RiskCalculator.LowWithFactorsExample | src/utils/riskCalculator.ts:22-82 | GPA 2.9, attendance 95, 11 absences: score 15, low, factors low-average GPA, some absences, good standing. |
| RiskCalculator.WorstCaseExample | src/utils/riskCalculator.ts:10-76 | GPA 1.0, attendance 50, 35 absences: score 100, critical, the three most severe factors. |
| RiskCalculator.RiskColorInjective | src/utils/riskCalculator.ts:92-105 | The colour switch (green, yellow, orange, red) gives distinct levels distinct colours. |
| RiskCalculator.RiskLabelInjective | src/utils/riskCalculator.ts:107-120 | The label switch ("Low Risk" … "Critical Risk") gives distinct levels distinct labels. |
| RiskCalculator.RiskColor | src/utils/riskCalculator.ts:92-105 | Low, moderate, high and critical map to green, yellow, orange and red, each colour to exactly one level. |
| RiskCalculator.RiskLabel | src/utils/riskCalculator.ts:107-120 | Low, moderate, high and critical map to "Low Risk", "Moderate Risk", "High Risk" and "Critical Risk", each label to exactly one level. |
| RiskSummary.LevelCounts.Increment | src/components/RiskSummary.tsx:15 | `counts[level]++` raises that level's counter by one and leaves the other three unchanged. |
| RiskSummary.TallyLevels | src/components/RiskSummary.tsx:12-19 | The reduce from all-zero counters, one increment per student at its computed level, yields the tally of the roster. |
| RiskSummary.CountsOfCounts | src/components/RiskSummary.tsx:12-19 | Each counter of the reduce equals the number of occurrences of its level. |
| RiskSummary.CountsOfTotal | src/components/RiskSummary.tsx:12-19 | The four counters add up to the number of levels counted. |
| RiskSummary.TallyCounts | src/components/RiskSummary.tsx:12-19 | Each counter of the tally is the number of students at that level. |
| RiskSummary.TallyTotal | src/components/RiskSummary.tsx:12-21 | low + moderate + high + critical equals the roster size. |
| RiskSummary.RoundedPercent | src/components/RiskSummary.tsx:41 | 0 for an empty roster; otherwise the integer nearest part·100/whole, halves up; within [0, 100] when part <= whole. |
| RiskSummary.Summarize | src/components/RiskSummary.tsx:12-54 | Total is the roster size; at-risk = moderate + high + critical = total - low; critical and low are their level counts; the percentage is the rounded share, in [0, 100]. |
| Types.WithIdentity | src/pages/Index.tsx:47-51 | The new record carries the submitted fields unchanged, with the given id and timestamp. |
| IndexPage.ReplaceById | src/pages/Index.tsx:70 | The update's `map` keeps length and order; each record with the edited id becomes the new record, every other record is unchanged. |
| IndexPage.RemoveById | src/pages/Index.tsx:76 | The delete's `filter` keeps exactly the records whose id differs, and never grows the list. |
| IndexPage.ReplaceKeepsIds | src/pages/Index.tsx:64-70 | An update that keeps the edited id leaves the list of ids unchanged. |
| IndexPage.ReplaceAbsentIsIdentity | src/pages/Index.tsx:70 | Updating an id no record carries leaves the list unchanged. |
| IndexPage.RemoveDistributes | src/pages/Index.tsx:76 | Delete splits over concatenation, so the records kept stay in their relative order. |
| IndexPage.RemoveCount | src/pages/Index.tsx:76 | Delete shortens the list by exactly the number of records with that id. |
| IndexPage.RemoveAbsentIsIdentity | src/pages/Index.tsx:76 | Deleting an id no record carries is the identity. |
| IndexPage.RemoveIdempotent | src/pages/Index.tsx:75-77 | Deleting the same id twice is the same as deleting it once. |
| IndexPage.SeedStudents | src/pages/Index.tsx:10-41 | Three records with ids "1", "2", "3", the listed GPA, attendance and absences, and each its own creation timestamp. |
| IndexPage.FirstSeedHigh | src/pages/Index.tsx:11-20 | The first seed record scores 45, high. |
| IndexPage.SecondSeedLow | src/pages/Index.tsx:21-30 | The second seed record scores 0, low, with only the good-standing pair. |
| IndexPage.ThirdSeedHigh | src/pages/Index.tsx:31-40 | The third seed record scores 55, high. |
| IndexPage.Roster.constructor | src/pages/Index.tsx:10-44 | The page starts with the three seed records (one timestamp each), the form hidden and nobody being edited. |
| IndexPage.Roster.OpenForm | src/pages/Index.tsx:100 | The header button shows the form and changes nothing else. |
| IndexPage.Roster.AddStudent | src/pages/Index.tsx:46-54 | The new list is the old list followed by the submitted data under the given id and timestamp; the form closes. |
| IndexPage.Roster.EditStudent | src/pages/Index.tsx:56-59 | Editing records the student and opens the form; the list is unchanged. |
| IndexPage.Roster.UpdateStudent | src/pages/Index.tsx:61-73 | With nobody being edited nothing changes; otherwise every record with the edited id becomes the submitted data under that id, and the form closes and forgets the edited student. |
| IndexPage.Roster.DeleteStudent | src/pages/Index.tsx:75-77 | The list loses exactly the records with that id; form state is unchanged. |
| IndexPage.Roster.FormClose | src/pages/Index.tsx:79-82 | Closing hides the form and forgets the edited student; the list is unchanged. |
| IndexPage.Roster.SubmitForm | src/pages/Index.tsx:129 | The form's submit updates while a student is being edited and adds otherwise; either way the form ends closed. |
| StudentForm.InitialFormData | src/components/StudentForm.tsx:16-23 | Blank texts for a new student; the edited student's texts and number texts otherwise. |
| StudentForm.HandleSubmit | src/components/StudentForm.tsx:25-60 | Presence, then GPA in [0, 4], then attendance in [0, 100], then absences >= 0; the first failing check is the rejection; only if all pass are name, grade, email and the parsed numbers submitted. |
| StudentForm.AlertMessage | src/components/StudentForm.tsx:29-48 | Each rejection has its own alert text: missing fields, GPA range, attendance range, negative absences. |
| StudentForm.BoundsAccepted | src/components/StudentForm.tsx:37-50 | GPA 0 and 4, attendance 0 and 100, absences 0 are accepted. |
| StudentForm.NaNPassesRangeChecks | src/components/StudentForm.tsx:33-50 | Unparseable numbers (NaN) pass every range check and are submitted as NaN. |
| StudentForm.SubmittedInDomain | src/components/StudentForm.tsx:28-59 | Submitted data has non-empty texts and every finite number in its range. |
| StudentForm.WithField | src/components/StudentForm.tsx:63 | Spreading `[field]: value` sets the named field and no other; an unknown key changes none of the six fields. |
| StudentForm.FormState.constructor | src/components/StudentForm.tsx:16-23 | The form state starts as the initial texts: blank for a new student, the edited student's values otherwise. |
| StudentForm.FormState.HandleInputChange | src/components/StudentForm.tsx:62-64 | The change handler stores the new text of that field only. |
| RiskChart.PointFill | src/components/StudentRiskChart.tsx:72-75 | Point fills are red, orange, yellow, green for critical, high, moderate, low, one distinct fill per level. |
| RiskChart.PieData | src/components/StudentRiskChart.tsx:56-61 | The four slices in order low, moderate, high, critical: each is named by the level's label, holds its counter, and has the fill of that level's points. |
| RiskChart.DistributionPie | src/components/StudentRiskChart.tsx:47-61 | The pie is built from the same per-level reduce as the summary tally. |
| RiskChart.PieCountsStudents | src/components/StudentRiskChart.tsx:47-54 | The slice values add up to the roster size, and each counts the students at its level. |
| RiskChart.PointOf | src/components/StudentRiskChart.tsx:64-76 | A point carries the student's name, GPA and attendance with the assessed score, level and that level's fill. |
| RiskChart.ScatterData | src/components/StudentRiskChart.tsx:80-93 | The scatter data has one point per student, in roster order. |
| RiskChart.InsertByScore | src/components/StudentRiskChart.tsx:77 | An insertion adds exactly the one point. |
| RiskChart.InsertKeepsOrder | src/components/StudentRiskChart.tsx:77 | Inserting into a descending sequence keeps it descending. |
| RiskChart.SortByScore | src/components/StudentRiskChart.tsx:77 | The sort by `b.riskScore - a.riskScore` gives a permutation of its input with non-increasing scores. |
| RiskChart.StudentRiskData | src/components/StudentRiskChart.tsx:64-77 | The bar data is a permutation of the students' points ordered by non-increasing score. |
| RiskChart.FirstBarIsMaximal | src/components/StudentRiskChart.tsx:64-77 | For a non-empty roster the first bar's score is at least every student's score. |
| RiskChart.LevelOfLabel | src/components/StudentRiskChart.tsx:29-34 | `levelMap` gives a level exactly for the text that is that level's label, and nothing for any other text. |
| RiskChart.LevelOfLabelInvertsLabel | src/components/StudentRiskChart.tsx:29-34 | The label map sends each level's label back to that level. |
| RiskChart.LabelInvertsLevelOfLabel | src/components/StudentRiskChart.tsx:29-34 | Every label the map knows is the label of the level it maps to. |
| RiskChart.FindByName | src/components/StudentRiskChart.tsx:21 | `find` by name finds nothing iff no student has the name; otherwise a student with that name. |
| RiskChart.FindByNameIsFirst | src/components/StudentRiskChart.tsx:21 | What `find` returns is the first student with that name. |
| RiskChart.StudentsInLevel | src/components/StudentRiskChart.tsx:36-39 | The filter keeps exactly the students whose computed level is the mapped level. |
| RiskChart.StudentsInLevelHeadIsFirst | src/components/StudentRiskChart.tsx:36-42 | The filter's head is the first student in the roster at the mapped level. |
| RiskChart.ChartState.constructor | src/components/StudentRiskChart.tsx:16-18 | The panel starts with nobody selected and the dialog closed. |
| RiskChart.ChartState.HandleStudentClick | src/components/StudentRiskChart.tsx:20-26 | With a match, the first student of that name is selected and the dialog opens; with none, nothing changes. |
| RiskChart.ChartState.HandleRiskLevelClick | src/components/StudentRiskChart.tsx:28-45 | With students at the clicked level, the first is selected and the dialog opens; otherwise (including an unknown label) nothing changes. |

## Left out

- Rendering: JSX, tabs, cards, badges, dialogs and the recharts charts. Only the data the charts are given is modelled.
- `alert` and `window.confirm` are user I/O. A rejected submit is the value `Rejected(reason)`, and `AlertMessage` gives its text.
- `Date.now()` ids and `toISOString()` timestamps are parameters. Nothing makes ids unique, and the model does not assume they are.
- `parseFloat` and `parseInt` on the form texts are not modelled. The parsed values are parameters of `HandleSubmit`, and `NaN` is representable. `parseInt` truncation of attendance and absences is therefore not captured.
- Infinities and floating-point rounding are not modelled. Numbers are exact reals, and `Math.round` of the percentage is exact rounding (`RoundedPercent`).
- The pie's percentage label (`toFixed(0)`) is presentation and is not modelled.
- The `default` branches of the colour and label switches ("gray", "Unknown") cannot be reached with a typed level and are not modelled.
- StudentForm.WithField: an unknown field name adds an extra key to the form object in the source. The model keeps the six known fields and leaves them unchanged.
- StudentForm.InitialFormData: number-to-text conversion is the parameter `numberText`.
- RiskChart.SortByScore: the sort is modelled as a stable insertion sort. Stability itself is not stated as a property; the order and permutation are.
- React state scheduling is not modelled. Each handler is one atomic transition of its state.
- The student card and dashboard components are display only and are not modelled. They hold a badge switch that repeats the colour mapping, a slice of two factors, and plural wording.
- The dialog's own open/close toggling in the chart panel is not modelled. Only the two click handlers that open it are.
