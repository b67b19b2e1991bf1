/** The student risk scorer: three threshold axes, a total score, a level,
    and paired factor/recommendation texts. */
module RiskCalculator {
  import opened Types

  // Factor and recommendation texts, one pair per band.
  const CriticallyLowGpa := "Critically low GPA"
  const ImmediateAcademicIntervention := "Immediate academic intervention required"
  const VeryLowGpa := "Very low GPA"
  const AcademicSupport := "Academic support and tutoring needed"
  const BelowAverageGpa := "Below average GPA"
  const MonitorAcademicProgress := "Monitor academic progress closely"
  const LowAverageGpa := "Low-average GPA"
  const EncourageStudyHabits := "Encourage study habits improvement"

  const CriticallyLowAttendance := "Critically low attendance"
  const ImmediateAttendanceIntervention := "Immediate attendance intervention required"
  const VeryLowAttendance := "Very low attendance"
  const AttendanceCounseling := "Attendance counseling needed"
  const BelowAverageAttendance := "Below average attendance"
  const MonitorAttendancePatterns := "Monitor attendance patterns"
  const ModerateAttendanceConcerns := "Moderate attendance concerns"
  const EncourageBetterAttendance := "Encourage better attendance"

  const ExcessiveAbsences := "Excessive absences"
  const ReviewAbsenceReasons := "Review reasons for frequent absences"
  const HighAbsences := "High number of absences"
  const TrackAbsencePatterns := "Track absence patterns"
  const ModerateAbsences := "Moderate absences"
  const MonitorAbsenceTrends := "Monitor absence trends"
  const SomeAbsences := "Some absences noted"
  const KeepAttendanceOnTrack := "Keep attendance on track"

  const GoodStanding := "Good academic standing"
  const ContinuePerformance := "Continue current performance"

  // ---------------------------------------------------------------------------
  // Reference definition: each axis is a table of bands, most severe first,
  // and the first band whose test holds is the one that applies.

  datatype Comparison = LessThan | GreaterThan

  datatype Band = Band(test: Comparison, threshold: real, points: nat,
                       factor: string, recommendation: string)

  predicate Triggers(band: Band, x: Num) {
    match band.test
    case LessThan => Below(x, band.threshold)
    case GreaterThan => Above(x, band.threshold)
  }

  // One band per row of the three tables: test, threshold, points and texts.
  const GpaCritical := Band(LessThan, 1.5, 40, CriticallyLowGpa, ImmediateAcademicIntervention)
  const GpaVeryLow := Band(LessThan, 2.0, 30, VeryLowGpa, AcademicSupport)
  const GpaBelowAverage := Band(LessThan, 2.5, 20, BelowAverageGpa, MonitorAcademicProgress)
  const GpaLowAverage := Band(LessThan, 3.0, 10, LowAverageGpa, EncourageStudyHabits)

  const AttendanceCritical := Band(LessThan, 60.0, 40, CriticallyLowAttendance, ImmediateAttendanceIntervention)
  const AttendanceVeryLow := Band(LessThan, 70.0, 30, VeryLowAttendance, AttendanceCounseling)
  const AttendanceBelowAverage := Band(LessThan, 80.0, 20, BelowAverageAttendance, MonitorAttendancePatterns)
  const AttendanceModerate := Band(LessThan, 90.0, 10, ModerateAttendanceConcerns, EncourageBetterAttendance)

  const AbsencesExcessive := Band(GreaterThan, 30.0, 20, ExcessiveAbsences, ReviewAbsenceReasons)
  const AbsencesHigh := Band(GreaterThan, 20.0, 15, HighAbsences, TrackAbsencePatterns)
  const AbsencesModerate := Band(GreaterThan, 15.0, 10, ModerateAbsences, MonitorAbsenceTrends)
  const AbsencesSome := Band(GreaterThan, 10.0, 5, SomeAbsences, KeepAttendanceOnTrack)

  const GpaBands: seq<Band> := [GpaCritical, GpaVeryLow, GpaBelowAverage, GpaLowAverage]

  const AttendanceBands: seq<Band> := [AttendanceCritical, AttendanceVeryLow, AttendanceBelowAverage, AttendanceModerate]

  const AbsenceBands: seq<Band> := [AbsencesExcessive, AbsencesHigh, AbsencesModerate, AbsencesSome]

  /** The first band of `bands[from..]` whose test holds for `x`, as a sequence
      of zero or one bands. */
  function FirstMatch(bands: seq<Band>, x: Num, from: nat := 0): (hit: seq<Band>)
    requires from <= |bands|
    ensures |hit| <= 1
    decreases |bands| - from
  {
    if from == |bands| then []
    else if Triggers(bands[from], x) then [bands[from]]
    else FirstMatch(bands, x, from + 1)
  }

  /** FirstMatch finds nothing exactly when no band applies, and otherwise the
      band at the lowest position that applies. */
  lemma {:induction false} FirstMatchIsFirst(bands: seq<Band>, x: Num, from: nat)
    requires from <= |bands|
    ensures FirstMatch(bands, x, from) == [] <==>
      forall j :: from <= j < |bands| ==> !Triggers(bands[j], x)
    ensures FirstMatch(bands, x, from) != [] ==>
      exists j :: (from <= j < |bands| && FirstMatch(bands, x, from) == [bands[j]] &&
                   Triggers(bands[j], x) && forall k :: from <= k < j ==> !Triggers(bands[k], x))
    decreases |bands| - from
  {
    if from < |bands| && !Triggers(bands[from], x) {
      FirstMatchIsFirst(bands, x, from + 1);
    }
  }

  /** A band of one of the three tables. */
  predicate InTables(band: Band) {
    band in GpaBands || band in AttendanceBands || band in AbsenceBands
  }

  /** The bands a student triggers: at most one per axis, in the order
      GPA, attendance, absences. */
  function Hits(s: Student): seq<Band> {
    FirstMatch(GpaBands, s.currentGpa)
      + FirstMatch(AttendanceBands, s.attendanceRate)
      + FirstMatch(AbsenceBands, s.absences)
  }

  function TotalPoints(hits: seq<Band>): nat {
    if hits == [] then 0 else hits[0].points + TotalPoints(hits[1..])
  }

  function FactorsOf(hits: seq<Band>): (texts: seq<string>)
    ensures |texts| == |hits|
    ensures forall i :: 0 <= i < |hits| ==> texts[i] == hits[i].factor
  {
    seq(|hits|, i requires 0 <= i < |hits| => hits[i].factor)
  }

  function RecommendationsOf(hits: seq<Band>): (texts: seq<string>)
    ensures |texts| == |hits|
    ensures forall i :: 0 <= i < |hits| ==> texts[i] == hits[i].recommendation
  {
    seq(|hits|, i requires 0 <= i < |hits| => hits[i].recommendation)
  }

  /** The level a total score falls into; each level is an interval of scores. */
  function LevelFor(score: int): (level: RiskLevel)
    ensures level == Critical <==> 70 <= score
    ensures level == High <==> 45 <= score < 70
    ensures level == Moderate <==> 20 <= score < 45
    ensures level == Low <==> score < 20
  {
    if score >= 70 then Critical
    else if score >= 45 then High
    else if score >= 20 then Moderate
    else Low
  }

  /** The assessment of one student, from the band tables. */
  function Assess(s: Student): RiskAssessment {
    Assessment(Hits(s))
  }

  /** The assessment that a sequence of triggered bands gives. */
  function Assessment(hits: seq<Band>): RiskAssessment {
    var score := TotalPoints(hits);
    var level := LevelFor(score);
    if level == Low then
      RiskAssessment(level, score, FactorsOf(hits) + [GoodStanding],
                     RecommendationsOf(hits) + [ContinuePerformance])
    else
      RiskAssessment(level, score, FactorsOf(hits), RecommendationsOf(hits))
  }

  // ---------------------------------------------------------------------------
  // The scorer as written: a score accumulator and two lists that each axis's
  // if-chain adds to, then an if-chain for the level.

  method CalculateRiskLevel(student: Student) returns (r: RiskAssessment)
    ensures r == Assess(student)
  {
    var riskScore := 0;
    var factors: seq<string> := [];
    var recommendations: seq<string> := [];
    riskScore, factors, recommendations := AddGpaRisk(student.currentGpa, riskScore, factors, recommendations);
    assert [] + FactorsOf(FirstMatch(GpaBands, student.currentGpa)) == FactorsOf(FirstMatch(GpaBands, student.currentGpa));
    assert [] + RecommendationsOf(FirstMatch(GpaBands, student.currentGpa)) == RecommendationsOf(FirstMatch(GpaBands, student.currentGpa));
    riskScore, factors, recommendations := AddAttendanceRisk(student.attendanceRate, riskScore, factors, recommendations);
    riskScore, factors, recommendations := AddAbsenceRisk(student.absences, riskScore, factors, recommendations);
    HitsByAxis(student);
    ghost var hits := Hits(student);
    assert riskScore == TotalPoints(hits) && factors == FactorsOf(hits) && recommendations == RecommendationsOf(hits);
    assert Assess(student) == Assessment(hits);

    var level: RiskLevel;
    if riskScore >= 70 {
      level := Critical;
    } else if riskScore >= 45 {
      level := High;
    } else if riskScore >= 20 {
      level := Moderate;
    } else {
      level := Low;
    }

    if level == Low {
      factors := factors + [GoodStanding];
      recommendations := recommendations + [ContinuePerformance];
    }

    r := RiskAssessment(level, riskScore, factors, recommendations);
  }

  /** The GPA if-chain: adds the points, factor and recommendation of the
      first GPA band that applies. */
  method AddGpaRisk(gpa: Num, riskScore: int, factors: seq<string>, recommendations: seq<string>)
    returns (riskScore': int, factors': seq<string>, recommendations': seq<string>)
    ensures riskScore' == riskScore + TotalPoints(FirstMatch(GpaBands, gpa))
    ensures factors' == factors + FactorsOf(FirstMatch(GpaBands, gpa))
    ensures recommendations' == recommendations + RecommendationsOf(FirstMatch(GpaBands, gpa))
  {
    GpaAxis(gpa);
    riskScore', factors', recommendations' := riskScore, factors, recommendations;
    if Below(gpa, 1.5) {
      riskScore' := riskScore' + 40;
      factors' := factors' + [CriticallyLowGpa];
      recommendations' := recommendations' + [ImmediateAcademicIntervention];
    } else if Below(gpa, 2.0) {
      riskScore' := riskScore' + 30;
      factors' := factors' + [VeryLowGpa];
      recommendations' := recommendations' + [AcademicSupport];
    } else if Below(gpa, 2.5) {
      riskScore' := riskScore' + 20;
      factors' := factors' + [BelowAverageGpa];
      recommendations' := recommendations' + [MonitorAcademicProgress];
    } else if Below(gpa, 3.0) {
      riskScore' := riskScore' + 10;
      factors' := factors' + [LowAverageGpa];
      recommendations' := recommendations' + [EncourageStudyHabits];
    }
  }

  /** The attendance if-chain. */
  method AddAttendanceRisk(rate: Num, riskScore: int, factors: seq<string>, recommendations: seq<string>)
    returns (riskScore': int, factors': seq<string>, recommendations': seq<string>)
    ensures riskScore' == riskScore + TotalPoints(FirstMatch(AttendanceBands, rate))
    ensures factors' == factors + FactorsOf(FirstMatch(AttendanceBands, rate))
    ensures recommendations' == recommendations + RecommendationsOf(FirstMatch(AttendanceBands, rate))
  {
    AttendanceAxis(rate);
    riskScore', factors', recommendations' := riskScore, factors, recommendations;
    if Below(rate, 60.0) {
      riskScore' := riskScore' + 40;
      factors' := factors' + [CriticallyLowAttendance];
      recommendations' := recommendations' + [ImmediateAttendanceIntervention];
    } else if Below(rate, 70.0) {
      riskScore' := riskScore' + 30;
      factors' := factors' + [VeryLowAttendance];
      recommendations' := recommendations' + [AttendanceCounseling];
    } else if Below(rate, 80.0) {
      riskScore' := riskScore' + 20;
      factors' := factors' + [BelowAverageAttendance];
      recommendations' := recommendations' + [MonitorAttendancePatterns];
    } else if Below(rate, 90.0) {
      riskScore' := riskScore' + 10;
      factors' := factors' + [ModerateAttendanceConcerns];
      recommendations' := recommendations' + [EncourageBetterAttendance];
    }
  }

  /** The absence if-chain. */
  method AddAbsenceRisk(absences: Num, riskScore: int, factors: seq<string>, recommendations: seq<string>)
    returns (riskScore': int, factors': seq<string>, recommendations': seq<string>)
    ensures riskScore' == riskScore + TotalPoints(FirstMatch(AbsenceBands, absences))
    ensures factors' == factors + FactorsOf(FirstMatch(AbsenceBands, absences))
    ensures recommendations' == recommendations + RecommendationsOf(FirstMatch(AbsenceBands, absences))
  {
    AbsenceAxis(absences);
    riskScore', factors', recommendations' := riskScore, factors, recommendations;
    if Above(absences, 30.0) {
      riskScore' := riskScore' + 20;
      factors' := factors' + [ExcessiveAbsences];
      recommendations' := recommendations' + [ReviewAbsenceReasons];
    } else if Above(absences, 20.0) {
      riskScore' := riskScore' + 15;
      factors' := factors' + [HighAbsences];
      recommendations' := recommendations' + [TrackAbsencePatterns];
    } else if Above(absences, 15.0) {
      riskScore' := riskScore' + 10;
      factors' := factors' + [ModerateAbsences];
      recommendations' := recommendations' + [MonitorAbsenceTrends];
    } else if Above(absences, 10.0) {
      riskScore' := riskScore' + 5;
      factors' := factors' + [SomeAbsences];
      recommendations' := recommendations' + [KeepAttendanceOnTrack];
    }
  }

  /** Score and texts of all hits are those of the three axes, in order. */
  lemma HitsByAxis(s: Student)
    ensures var g, a, b := FirstMatch(GpaBands, s.currentGpa),
      FirstMatch(AttendanceBands, s.attendanceRate), FirstMatch(AbsenceBands, s.absences);
      && TotalPoints(Hits(s)) == TotalPoints(g) + TotalPoints(a) + TotalPoints(b)
      && FactorsOf(Hits(s)) == FactorsOf(g) + FactorsOf(a) + FactorsOf(b)
      && RecommendationsOf(Hits(s)) == RecommendationsOf(g) + RecommendationsOf(a) + RecommendationsOf(b)
  {
    var g, a, b := FirstMatch(GpaBands, s.currentGpa),
      FirstMatch(AttendanceBands, s.attendanceRate), FirstMatch(AbsenceBands, s.absences);
    TotalPointsAppend(g, a);
    TotalPointsAppend(g + a, b);
    TextsAppend(g, a);
    TextsAppend(g + a, b);
  }

  lemma TextsAppend(a: seq<Band>, b: seq<Band>)
    ensures FactorsOf(a + b) == FactorsOf(a) + FactorsOf(b)
    ensures RecommendationsOf(a + b) == RecommendationsOf(a) + RecommendationsOf(b)
  {
    assert forall i :: 0 <= i < |a + b| ==> FactorsOf(a + b)[i] == (FactorsOf(a) + FactorsOf(b))[i];
    assert forall i :: 0 <= i < |a + b| ==>
      RecommendationsOf(a + b)[i] == (RecommendationsOf(a) + RecommendationsOf(b))[i];
  }

  /** Total points distribute over concatenation. */
  lemma {:induction false} TotalPointsAppend(a: seq<Band>, b: seq<Band>)
    ensures TotalPoints(a + b) == TotalPoints(a) + TotalPoints(b)
  {
    if a != [] {
      assert (a + b)[0] == a[0] && (a + b)[1..] == a[1..] + b;
      TotalPointsAppend(a[1..], b);
      calc {
        TotalPoints(a + b);
        a[0].points + TotalPoints(a[1..] + b);
        a[0].points + TotalPoints(a[1..]) + TotalPoints(b);
      }
    } else {
      assert a + b == b;
    }
  }

  // ---------------------------------------------------------------------------
  // The three axes, band by band.

  /** GPA: first of < 1.5, < 2.0, < 2.5, < 3.0 gives 40, 30, 20, 10 points. */
  lemma GpaAxis(gpa: Num)
    ensures FirstMatch(GpaBands, gpa) ==
      if Below(gpa, 1.5) then [GpaCritical]
      else if Below(gpa, 2.0) then [GpaVeryLow]
      else if Below(gpa, 2.5) then [GpaBelowAverage]
      else if Below(gpa, 3.0) then [GpaLowAverage]
      else []
  {
    assert FirstMatch(GpaBands, gpa, 4) == [];
    assert FirstMatch(GpaBands, gpa, 3) == if Below(gpa, 3.0) then [GpaBands[3]] else [];
    assert FirstMatch(GpaBands, gpa, 2) ==
      if Below(gpa, 2.5) then [GpaBands[2]] else FirstMatch(GpaBands, gpa, 3);
    assert FirstMatch(GpaBands, gpa, 1) ==
      if Below(gpa, 2.0) then [GpaBands[1]] else FirstMatch(GpaBands, gpa, 2);
  }

  /** Attendance: first of < 60, < 70, < 80, < 90 gives 40, 30, 20, 10 points. */
  lemma AttendanceAxis(rate: Num)
    ensures FirstMatch(AttendanceBands, rate) ==
      if Below(rate, 60.0) then [AttendanceCritical]
      else if Below(rate, 70.0) then [AttendanceVeryLow]
      else if Below(rate, 80.0) then [AttendanceBelowAverage]
      else if Below(rate, 90.0) then [AttendanceModerate]
      else []
  {
    assert FirstMatch(AttendanceBands, rate, 4) == [];
    assert FirstMatch(AttendanceBands, rate, 3) == if Below(rate, 90.0) then [AttendanceBands[3]] else [];
    assert FirstMatch(AttendanceBands, rate, 2) ==
      if Below(rate, 80.0) then [AttendanceBands[2]] else FirstMatch(AttendanceBands, rate, 3);
    assert FirstMatch(AttendanceBands, rate, 1) ==
      if Below(rate, 70.0) then [AttendanceBands[1]] else FirstMatch(AttendanceBands, rate, 2);
  }

  /** Absences: first of > 30, > 20, > 15, > 10 gives 20, 15, 10, 5 points. */
  lemma AbsenceAxis(absences: Num)
    ensures FirstMatch(AbsenceBands, absences) ==
      if Above(absences, 30.0) then [AbsencesExcessive]
      else if Above(absences, 20.0) then [AbsencesHigh]
      else if Above(absences, 15.0) then [AbsencesModerate]
      else if Above(absences, 10.0) then [AbsencesSome]
      else []
  {
    assert FirstMatch(AbsenceBands, absences, 4) == [];
    assert FirstMatch(AbsenceBands, absences, 3) == if Above(absences, 10.0) then [AbsenceBands[3]] else [];
    assert FirstMatch(AbsenceBands, absences, 2) ==
      if Above(absences, 15.0) then [AbsenceBands[2]] else FirstMatch(AbsenceBands, absences, 3);
    assert FirstMatch(AbsenceBands, absences, 1) ==
      if Above(absences, 20.0) then [AbsenceBands[1]] else FirstMatch(AbsenceBands, absences, 2);
  }

  // ---------------------------------------------------------------------------
  // Properties of the assessment.

  /** The score is the sum of the three axes' points. */
  lemma ScoreByAxis(s: Student)
    ensures Assess(s).score == TotalPoints(FirstMatch(GpaBands, s.currentGpa))
      + TotalPoints(FirstMatch(AttendanceBands, s.attendanceRate))
      + TotalPoints(FirstMatch(AbsenceBands, s.absences))
  {
    HitsByAxis(s);
  }

  /** The score lies in [0, 100]. */
  lemma ScoreInRange(s: Student)
    ensures 0 <= Assess(s).score <= 100
  {
    ScoreByAxis(s);
    AxisPoints(s);
  }

  /** The points one axis can contribute. */
  lemma AxisPoints(s: Student)
    ensures TotalPoints(FirstMatch(GpaBands, s.currentGpa)) <= 40
    ensures TotalPoints(FirstMatch(AttendanceBands, s.attendanceRate)) <= 40
    ensures TotalPoints(FirstMatch(AbsenceBands, s.absences)) <= 20
  {
    GpaAxis(s.currentGpa);
    AttendanceAxis(s.attendanceRate);
    AbsenceAxis(s.absences);
  }

  /** A higher score never gives a less severe level. */
  lemma LevelMonotone(lower: int, higher: int)
    requires lower <= higher
    ensures Severity(LevelFor(lower)) <= Severity(LevelFor(higher))
  {
  }

  /** Factors and recommendations have equal length and correspond position by
      position: each pair is one band's pair, except a closing good-standing
      pair for a low level. */
  lemma FactorsPaired(s: Student, i: nat)
    requires i < |Assess(s).factors|
    ensures |Assess(s).recommendations| == |Assess(s).factors|
    ensures
      || (exists band :: InTables(band) &&
           Assess(s).factors[i] == band.factor && Assess(s).recommendations[i] == band.recommendation)
      || (i == |Assess(s).factors| - 1 && Assess(s).level == Low &&
          Assess(s).factors[i] == GoodStanding && Assess(s).recommendations[i] == ContinuePerformance)
  {
    var hits := Hits(s);
    if i < |hits| {
      HitsFromTables(s, i);
      assert Assess(s).factors[i] == hits[i].factor;
      assert Assess(s).recommendations[i] == hits[i].recommendation;
    }
  }

  /** Every triggered band comes from one of the three tables. */
  lemma HitsFromTables(s: Student, i: nat)
    requires i < |Hits(s)|
    ensures InTables(Hits(s)[i])
  {
    GpaAxis(s.currentGpa);
    AttendanceAxis(s.attendanceRate);
    AbsenceAxis(s.absences);
  }

  /** The factors appear axis by axis: the GPA factor (if any) first, then the
      attendance factor, then the absence factor, then the good-standing note. */
  lemma FactorOrder(s: Student)
    ensures Assess(s).factors ==
      FactorsOf(FirstMatch(GpaBands, s.currentGpa))
      + FactorsOf(FirstMatch(AttendanceBands, s.attendanceRate))
      + FactorsOf(FirstMatch(AbsenceBands, s.absences))
      + (if Assess(s).level == Low then [GoodStanding] else [])
  {
    HitsByAxis(s);
  }

  /** The good-standing pair is present exactly for a low level, and then it is
      the last pair; so there is always at least one factor. */
  lemma GoodStandingIffLow(s: Student)
    ensures GoodStanding in Assess(s).factors <==> Assess(s).level == Low
    ensures Assess(s).level == Low ==>
      Assess(s).factors[|Assess(s).factors| - 1] == GoodStanding &&
      Assess(s).recommendations[|Assess(s).recommendations| - 1] == ContinuePerformance
    ensures Assess(s).factors != []
  {
    var hits := Hits(s);
    forall i | 0 <= i < |hits| ensures hits[i].factor != GoodStanding {
      HitsFromTables(s, i);
    }
    if Assess(s).level != Low {
      ScoreInRange(s);
      assert hits != [];
    }
  }

  /** Band texts never collide with the good-standing note. */
  lemma GoodStandingNotABand(band: Band)
    requires InTables(band)
    ensures band.factor != GoodStanding && band.recommendation != ContinuePerformance
  {
  }

  /** A low-level student with real risk factors scores between 5 and 15. */
  lemma LowWithFactors(s: Student)
    requires Assess(s).level == Low && |Assess(s).factors| > 1
    ensures 5 <= Assess(s).score <= 15
  {
    ScoreByAxis(s);
    HitsByAxis(s);
    GpaAxis(s.currentGpa);
    AttendanceAxis(s.attendanceRate);
    AbsenceAxis(s.absences);
  }

  /** A NaN value triggers no band on its axis. */
  lemma NaNTriggersNothing(bands: seq<Band>)
    ensures FirstMatch(bands, NaN) == []
  {
    FirstMatchIsFirst(bands, NaN, 0);
  }

  /** Band boundaries: GPA 2.5 is in the 10-point band and 3.0 in none;
      10 absences give nothing and 11 give 5 points. */
  lemma BandBoundaries()
    ensures TotalPoints(FirstMatch(GpaBands, Finite(2.5))) == 10
    ensures TotalPoints(FirstMatch(GpaBands, Finite(3.0))) == 0
    ensures TotalPoints(FirstMatch(AttendanceBands, Finite(90.0))) == 0
    ensures TotalPoints(FirstMatch(AttendanceBands, Finite(89.5))) == 10
    ensures TotalPoints(FirstMatch(AbsenceBands, Finite(10.0))) == 0
    ensures TotalPoints(FirstMatch(AbsenceBands, Finite(11.0))) == 5
  {
    GpaAxis(Finite(2.5));
    GpaAxis(Finite(3.0));
    AttendanceAxis(Finite(90.0));
    AttendanceAxis(Finite(89.5));
    AbsenceAxis(Finite(10.0));
    AbsenceAxis(Finite(11.0));
  }

  /** Worst case on every axis: 40 + 40 + 20 points, critical. */
  lemma WorstCaseExample(s: Student)
    requires s.currentGpa == Finite(1.0) && s.attendanceRate == Finite(50.0)
    requires s.absences == Finite(35.0)
    ensures Assess(s).score == 100 && Assess(s).level == Critical
    ensures Assess(s).factors == [CriticallyLowGpa, CriticallyLowAttendance, ExcessiveAbsences]
  {
    ScoreByAxis(s);
    FactorOrder(s);
    GpaAxis(s.currentGpa);
    AttendanceAxis(s.attendanceRate);
    AbsenceAxis(s.absences);
  }

  /** The good-standing note can follow real risk factors: GPA 2.9 and 11
      absences score 15, which is still low. */
  lemma LowWithFactorsExample(s: Student)
    requires s.currentGpa == Finite(2.9) && s.attendanceRate == Finite(95.0)
    requires s.absences == Finite(11.0)
    ensures Assess(s).score == 15 && Assess(s).level == Low
    ensures Assess(s).factors == [LowAverageGpa, SomeAbsences, GoodStanding]
    ensures Assess(s).recommendations == [EncourageStudyHabits, KeepAttendanceOnTrack, ContinuePerformance]
  {
    ScoreByAxis(s);
    HitsByAxis(s);
    GpaAxis(s.currentGpa);
    AttendanceAxis(s.attendanceRate);
    AbsenceAxis(s.absences);
  }

  // ---------------------------------------------------------------------------
  // Display lookups on the level.

  /** The badge colour of a level: one colour per level, no two alike. */
  function RiskColor(level: RiskLevel): (color: string)
    ensures level == Low <==> color == "green"
    ensures level == Moderate <==> color == "yellow"
    ensures level == High <==> color == "orange"
    ensures level == Critical <==> color == "red"
  {
    match level
    case Low => "green"
    case Moderate => "yellow"
    case High => "orange"
    case Critical => "red"
  }

  /** The display label of a level: one label per level, no two alike. */
  function RiskLabel(level: RiskLevel): (text: string)
    ensures level == Low <==> text == "Low Risk"
    ensures level == Moderate <==> text == "Moderate Risk"
    ensures level == High <==> text == "High Risk"
    ensures level == Critical <==> text == "Critical Risk"
  {
    match level
    case Low => "Low Risk"
    case Moderate => "Moderate Risk"
    case High => "High Risk"
    case Critical => "Critical Risk"
  }

  /** Distinct levels get distinct colours. */
  lemma RiskColorInjective(a: RiskLevel, b: RiskLevel)
    requires RiskColor(a) == RiskColor(b)
    ensures a == b
  {
  }

  /** Distinct levels get distinct labels. */
  lemma RiskLabelInjective(a: RiskLevel, b: RiskLevel)
    requires RiskLabel(a) == RiskLabel(b)
    ensures a == b
  {
  }
}
