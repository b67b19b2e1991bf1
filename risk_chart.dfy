/** The chart panel: the level distribution pie, the bar data ordered by
    score, the scatter data in roster order, and the two click handlers that
    pick a student for the detail dialog. */
module RiskChart {
  import opened Types
  import opened RiskCalculator
  import opened RiskSummary

  // ---------------------------------------------------------------------------
  // Fills.

  const RedFill := "hsl(0, 84%, 60%)"
  const OrangeFill := "hsl(25, 95%, 53%)"
  const YellowFill := "hsl(48, 96%, 53%)"
  const GreenFill := "hsl(142, 76%, 36%)"

  /** The fill of a bar or scatter point: critical, high and moderate are
      tested in turn and anything else is green. */
  function PointFill(level: RiskLevel): (fill: string)
    ensures level == Low <==> fill == GreenFill
    ensures level == Moderate <==> fill == YellowFill
    ensures level == High <==> fill == OrangeFill
    ensures level == Critical <==> fill == RedFill
  {
    FillsDistinct();
    if level == Critical then RedFill
    else if level == High then OrangeFill
    else if level == Moderate then YellowFill
    else assert level == Low; GreenFill
  }

  /** The four fills are pairwise different strings. */
  lemma FillsDistinct()
    ensures GreenFill != YellowFill && GreenFill != OrangeFill && GreenFill != RedFill
    ensures YellowFill != OrangeFill && YellowFill != RedFill && OrangeFill != RedFill
  {
    assert |RedFill| == 16 && |OrangeFill| == 17 && |YellowFill| == 17 && |GreenFill| == 18;
    assert OrangeFill[4] != YellowFill[4];
  }

  // ---------------------------------------------------------------------------
  // The distribution pie.

  datatype Slice = Slice(name: string, value: nat, fill: string)

  /** The levels in slice order. */
  const SliceLevels: seq<RiskLevel> := [Low, Moderate, High, Critical]

  /** The four slices, built from the distribution counters. Each slice is
      named by the level's label, holds that level's counter, and is filled
      with the colour the level's points get. */
  function PieData(distribution: LevelCounts): (slices: seq<Slice>)
    ensures |slices| == |SliceLevels|
    ensures forall i :: 0 <= i < |slices| ==>
      && slices[i].name == RiskLabel(SliceLevels[i])
      && slices[i].value == distribution.Get(SliceLevels[i])
      && slices[i].fill == PointFill(SliceLevels[i])
  {
    [
      Slice("Low Risk", distribution.low, GreenFill),
      Slice("Moderate Risk", distribution.moderate, YellowFill),
      Slice("High Risk", distribution.high, OrangeFill),
      Slice("Critical Risk", distribution.critical, RedFill)
    ]
  }

  /** The sum of the slice values. */
  function SliceTotal(slices: seq<Slice>): nat
    decreases |slices|
  {
    if slices == [] then 0 else slices[0].value + SliceTotal(slices[1..])
  }

  /** The pie as the panel draws it: the distribution is the same reduce the
      summary cards use. */
  method DistributionPie(students: seq<Student>) returns (slices: seq<Slice>)
    ensures slices == PieData(Tally(students))
  {
    var riskDistribution := TallyLevels(students);
    slices := PieData(riskDistribution);
  }

  /** The slices add up to the roster size, and each slice counts the
      students at its level. */
  lemma PieCountsStudents(students: seq<Student>)
    ensures SliceTotal(PieData(Tally(students))) == |students|
    ensures forall i :: 0 <= i < |SliceLevels| ==>
      PieData(Tally(students))[i].value == CountAt(students, SliceLevels[i])
  {
    var slices := PieData(Tally(students));
    TallyTotal(students);
    assert SliceTotal(slices[3..]) == slices[3].value by {
      assert slices[3..][1..] == [];
    }
    assert SliceTotal(slices[2..]) == slices[2].value + SliceTotal(slices[3..]) by {
      assert slices[2..][1..] == slices[3..];
    }
    assert SliceTotal(slices[1..]) == slices[1].value + SliceTotal(slices[2..]) by {
      assert slices[1..][1..] == slices[2..];
    }
    assert SliceTotal(slices) == slices[0].value + slices[1].value + slices[2].value + slices[3].value;
    forall i | 0 <= i < |SliceLevels|
      ensures slices[i].value == CountAt(students, SliceLevels[i])
    {
      TallyCounts(students, SliceLevels[i]);
    }
  }

  // ---------------------------------------------------------------------------
  // Bar and scatter data.

  /** One student's point: name, score, GPA, attendance, level and fill. */
  datatype ChartPoint = ChartPoint(
    name: string,
    riskScore: int,
    gpa: Num,
    attendance: Num,
    level: RiskLevel,
    fill: string)

  function PointOf(s: Student): (p: ChartPoint)
    ensures p.name == s.name && p.gpa == s.currentGpa && p.attendance == s.attendanceRate
    ensures p.riskScore == Assess(s).score && p.level == Assess(s).level
    ensures p.fill == PointFill(p.level)
  {
    var risk := Assess(s);
    ChartPoint(s.name, risk.score, s.currentGpa, s.attendanceRate, risk.level, PointFill(risk.level))
  }

  /** The scatter data: one point per student, in roster order. */
  function ScatterData(students: seq<Student>): (points: seq<ChartPoint>)
    ensures |points| == |students|
    ensures forall i :: 0 <= i < |students| ==> points[i] == PointOf(students[i])
  {
    seq(|students|, i requires 0 <= i < |students| => PointOf(students[i]))
  }

  /** Scores never increase along the sequence. */
  predicate ByScoreDescending(points: seq<ChartPoint>) {
    forall i, j :: 0 <= i < j < |points| ==> points[i].riskScore >= points[j].riskScore
  }

  /** Puts `p` in front of the first point whose score is not above its own,
      so that it stays ahead of the equal-scored points that came after it. */
  function InsertByScore(p: ChartPoint, sorted: seq<ChartPoint>): (result: seq<ChartPoint>)
    ensures multiset(result) == multiset(sorted) + multiset{p}
    ensures |result| == |sorted| + 1
    decreases |sorted|
  {
    if sorted == [] then [p]
    else if sorted[0].riskScore > p.riskScore then
      assert sorted == [sorted[0]] + sorted[1..];
      [sorted[0]] + InsertByScore(p, sorted[1..])
    else
      [p] + sorted
  }

  /** No score in the sequence is above `bound`. */
  predicate AllAtMost(points: seq<ChartPoint>, bound: int) {
    forall i :: 0 <= i < |points| ==> points[i].riskScore <= bound
  }

  /** A point whose score bounds a descending sequence can lead it. */
  lemma ConsKeepsOrder(x: ChartPoint, points: seq<ChartPoint>)
    requires ByScoreDescending(points) && AllAtMost(points, x.riskScore)
    ensures ByScoreDescending([x] + points)
  {
    var result := [x] + points;
    forall i, j | 0 <= i < j < |result|
      ensures result[i].riskScore >= result[j].riskScore
    {
      assert result[j] == points[j - 1];
      if i > 0 {
        assert result[i] == points[i - 1];
      }
    }
  }

  /** Inserting a point under a bound into a sequence under it stays under it. */
  lemma {:induction false} InsertKeepsBound(p: ChartPoint, sorted: seq<ChartPoint>, bound: int)
    requires AllAtMost(sorted, bound) && p.riskScore <= bound
    ensures AllAtMost(InsertByScore(p, sorted), bound)
    decreases |sorted|
  {
    if sorted != [] && sorted[0].riskScore > p.riskScore {
      var tail := sorted[1..];
      assert AllAtMost(tail, bound) by {
        forall i | 0 <= i < |tail| ensures tail[i].riskScore <= bound {
          assert tail[i] == sorted[i + 1];
        }
      }
      InsertKeepsBound(p, tail, bound);
      var result := InsertByScore(p, sorted);
      var rest := InsertByScore(p, tail);
      forall i | 0 <= i < |result| ensures result[i].riskScore <= bound {
        if i > 0 {
          assert result[i] == rest[i - 1];
        }
      }
    }
  }

  /** Inserting into a descending sequence keeps it descending. */
  lemma {:induction false} InsertKeepsOrder(p: ChartPoint, sorted: seq<ChartPoint>)
    requires ByScoreDescending(sorted)
    ensures ByScoreDescending(InsertByScore(p, sorted))
    decreases |sorted|
  {
    if sorted == [] {
    } else if sorted[0].riskScore > p.riskScore {
      var head, tail := sorted[0], sorted[1..];
      assert ByScoreDescending(tail) && AllAtMost(tail, head.riskScore) by {
        forall i | 0 <= i < |tail| ensures tail[i] == sorted[i + 1] { }
      }
      InsertKeepsOrder(p, tail);
      InsertKeepsBound(p, tail, head.riskScore);
      ConsKeepsOrder(head, InsertByScore(p, tail));
    } else {
      assert AllAtMost(sorted, p.riskScore);
      ConsKeepsOrder(p, sorted);
    }
  }

  /** `[...points].sort((a, b) => b.riskScore - a.riskScore)`, as an
      insertion sort: highest score first, ties in their original order. */
  function SortByScore(points: seq<ChartPoint>): (sorted: seq<ChartPoint>)
    ensures ByScoreDescending(sorted)
    ensures multiset(sorted) == multiset(points)
    ensures |sorted| == |points|
    decreases |points|
  {
    if points == [] then []
    else
      assert points == [points[0]] + points[1..];
      InsertKeepsOrder(points[0], SortByScore(points[1..]));
      InsertByScore(points[0], SortByScore(points[1..]))
  }

  /** The bar data: the students' points, highest score first. */
  function StudentRiskData(students: seq<Student>): (bars: seq<ChartPoint>)
    ensures ByScoreDescending(bars)
    ensures multiset(bars) == multiset(ScatterData(students))
  {
    SortByScore(ScatterData(students))
  }

  /** The highest-scored student leads the bars. */
  lemma FirstBarIsMaximal(students: seq<Student>, k: int)
    requires 0 <= k < |students|
    ensures StudentRiskData(students) != []
    ensures StudentRiskData(students)[0].riskScore >= Assess(students[k]).score
  {
    var bars := StudentRiskData(students);
    var p := ScatterData(students)[k];
    assert p in multiset(ScatterData(students));
    assert p in multiset(bars);
    var j :| 0 <= j < |bars| && bars[j] == p;
    assert j == 0 || bars[0].riskScore >= bars[j].riskScore;
  }

  // ---------------------------------------------------------------------------
  // Click lookups.

  /** `levelMap[label]`: a slice label back to its level, nothing otherwise. */
  function LevelOfLabel(text: string): (level: Option<RiskLevel>)
    ensures forall l :: level == Some(l) <==> text == RiskLabel(l)
    ensures level == None <==> forall l :: text != RiskLabel(l)
  {
    if text == "Low Risk" then Some(Low)
    else if text == "Moderate Risk" then Some(Moderate)
    else if text == "High Risk" then Some(High)
    else if text == "Critical Risk" then Some(Critical)
    else None
  }

  /** The label map undoes the label of every level ... */
  lemma LevelOfLabelInvertsLabel(level: RiskLevel)
    ensures LevelOfLabel(RiskLabel(level)) == Some(level)
  {
  }

  /** ... and maps nothing else: a label it knows is the label of its level. */
  lemma LabelInvertsLevelOfLabel(text: string)
    requires LevelOfLabel(text) != None
    ensures RiskLabel(LevelOfLabel(text).value) == text
  {
  }

  /** `students.find(s => s.name === name)`. */
  function FindByName(students: seq<Student>, name: string): (found: Option<Student>)
    ensures found == None <==> forall i :: 0 <= i < |students| ==> students[i].name != name
    ensures found != None ==> found.value in students && found.value.name == name
    decreases |students|
  {
    if students == [] then None
    else if students[0].name == name then Some(students[0])
    else FindByName(students[1..], name)
  }

  /** What the lookup finds is the first student with that name. */
  lemma {:induction false} FindByNameIsFirst(students: seq<Student>, name: string)
    requires FindByName(students, name) != None
    ensures exists k :: (0 <= k < |students| && students[k] == FindByName(students, name).value &&
      forall j :: 0 <= j < k ==> students[j].name != name)
    decreases |students|
  {
    if students[0].name != name {
      var tail := students[1..];
      FindByNameIsFirst(tail, name);
      var k :| 0 <= k < |tail| && tail[k] == FindByName(tail, name).value &&
        forall j :: 0 <= j < k ==> tail[j].name != name;
      assert students[k + 1] == tail[k];
      assert forall j :: 1 <= j <= k ==> students[j] == tail[j - 1];
    } else {
      assert students[0] == FindByName(students, name).value;
    }
  }

  /** Whether a student's computed level is the one a label maps to. */
  predicate AtLevel(s: Student, level: Option<RiskLevel>) {
    level == Some(LevelOf(s))
  }

  /** The students whose computed level is the one a label maps to, in
      roster order; none when the label maps to no level. */
  function StudentsInLevel(students: seq<Student>, level: Option<RiskLevel>): (matching: seq<Student>)
    ensures forall s :: s in matching <==> s in students && AtLevel(s, level)
    ensures |matching| <= |students|
    decreases |students|
  {
    if students == [] then []
    else
      assert forall s :: s in students <==> s == students[0] || s in students[1..];
      if AtLevel(students[0], level) then [students[0]] + StudentsInLevel(students[1..], level)
      else StudentsInLevel(students[1..], level)
  }

  /** The filter keeps roster order, so its head is the first student at the
      level. */
  lemma {:induction false} StudentsInLevelHeadIsFirst(students: seq<Student>, level: Option<RiskLevel>)
    requires StudentsInLevel(students, level) != []
    ensures exists k :: (0 <= k < |students| && students[k] == StudentsInLevel(students, level)[0] &&
      forall j :: 0 <= j < k ==> !AtLevel(students[j], level))
    decreases |students|
  {
    var head := StudentsInLevel(students, level)[0];
    if !AtLevel(students[0], level) {
      var tail := students[1..];
      assert StudentsInLevel(students, level) == StudentsInLevel(tail, level);
      StudentsInLevelHeadIsFirst(tail, level);
      var k :| 0 <= k < |tail| && tail[k] == head &&
        forall j :: 0 <= j < k ==> !AtLevel(tail[j], level);
      assert forall j :: 1 <= j <= k + 1 ==> students[j] == tail[j - 1];
      assert students[k + 1] == head && forall j :: 0 <= j < k + 1 ==> !AtLevel(students[j], level);
    } else {
      assert students[0] == head;
    }
  }

  /** Which student the detail dialog shows, and whether it is open. */
  class ChartState {
    const students: seq<Student>
    var selectedStudent: Option<Student>
    var isModalOpen: bool

    constructor (students: seq<Student>)
      ensures this.students == students
      ensures selectedStudent == None && !isModalOpen
    {
      this.students := students;
      selectedStudent := None;
      isModalOpen := false;
    }

    /** A bar or point click: selects the first student with that name and
        opens the dialog; with no such student nothing changes. */
    method HandleStudentClick(studentName: string)
      modifies this
      ensures FindByName(students, studentName) == None ==>
        selectedStudent == old(selectedStudent) && isModalOpen == old(isModalOpen)
      ensures FindByName(students, studentName) != None ==>
        selectedStudent == FindByName(students, studentName) && isModalOpen
    {
      var student := FindByName(students, studentName);
      if student != None {
        selectedStudent := student;
        isModalOpen := true;
      }
    }

    /** A slice click: selects the first student at the slice's level and
        opens the dialog; with no such student nothing changes. */
    method HandleRiskLevelClick(riskLevel: string)
      modifies this
      ensures StudentsInLevel(students, LevelOfLabel(riskLevel)) == [] ==>
        selectedStudent == old(selectedStudent) && isModalOpen == old(isModalOpen)
      ensures StudentsInLevel(students, LevelOfLabel(riskLevel)) != [] ==>
        selectedStudent == Some(StudentsInLevel(students, LevelOfLabel(riskLevel))[0]) && isModalOpen
    {
      var studentsInLevel := StudentsInLevel(students, LevelOfLabel(riskLevel));
      if |studentsInLevel| > 0 {
        selectedStudent := Some(studentsInLevel[0]);
        isModalOpen := true;
      }
    }
  }
}
