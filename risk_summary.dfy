/** The summary cards: students per level, the at-risk and critical counts,
    and the at-risk share as a rounded percentage. */
module RiskSummary {
  import opened Types
  import opened RiskCalculator

  /** One counter per level, as the tally's accumulator object. */
  datatype LevelCounts = LevelCounts(low: nat, moderate: nat, high: nat, critical: nat) {

    function Get(level: RiskLevel): nat {
      match level
      case Low => low
      case Moderate => moderate
      case High => high
      case Critical => critical
    }

    /** `counts[level]++`: that counter goes up by one and no other moves. */
    function Increment(level: RiskLevel): (next: LevelCounts)
      ensures next.Get(level) == Get(level) + 1
      ensures forall other :: other != level ==> next.Get(other) == Get(other)
    {
      match level
      case Low => this.(low := low + 1)
      case Moderate => this.(moderate := moderate + 1)
      case High => this.(high := high + 1)
      case Critical => this.(critical := critical + 1)
    }

    function Total(): nat {
      low + moderate + high + critical
    }
  }

  const NoCounts := LevelCounts(0, 0, 0, 0)

  /** The level the scorer gives a student. */
  function LevelOf(s: Student): RiskLevel {
    Assess(s).level
  }

  /** The levels of a roster, in roster order. */
  function Levels(students: seq<Student>): (levels: seq<RiskLevel>)
    ensures |levels| == |students|
    ensures forall i :: 0 <= i < |students| ==> levels[i] == LevelOf(students[i])
  {
    seq(|students|, i requires 0 <= i < |students| => LevelOf(students[i]))
  }

  /** How many students of the roster have the given level. */
  function CountAt(students: seq<Student>, level: RiskLevel): nat {
    multiset(Levels(students))[level]
  }

  /** The reduce over a sequence of levels, left to right, from all zeros. */
  function CountsOf(levels: seq<RiskLevel>): LevelCounts
    decreases |levels|
  {
    if levels == [] then NoCounts
    else CountsOf(levels[..|levels| - 1]).Increment(levels[|levels| - 1])
  }

  /** The tally of a roster: the reduce over its students' levels. */
  function Tally(students: seq<Student>): LevelCounts {
    CountsOf(Levels(students))
  }

  /** Each counter of the reduce is the number of occurrences of its level. */
  lemma {:induction false} CountsOfCounts(levels: seq<RiskLevel>, level: RiskLevel)
    ensures CountsOf(levels).Get(level) == multiset(levels)[level]
    decreases |levels|
  {
    if levels != [] {
      var n := |levels| - 1;
      CountsOfCounts(levels[..n], level);
      assert levels == levels[..n] + [levels[n]];
    }
  }

  /** The four counters of the reduce add up to the number of levels. */
  lemma {:induction false} CountsOfTotal(levels: seq<RiskLevel>)
    ensures CountsOf(levels).Total() == |levels|
    decreases |levels|
  {
    if levels != [] {
      CountsOfTotal(levels[..|levels| - 1]);
    }
  }

  /** Each counter of the tally is the number of students at that level. */
  lemma TallyCounts(students: seq<Student>, level: RiskLevel)
    ensures Tally(students).Get(level) == CountAt(students, level)
  {
    CountsOfCounts(Levels(students), level);
  }

  /** The four counters add up to the roster size. */
  lemma TallyTotal(students: seq<Student>)
    ensures Tally(students).Total() == |students|
  {
    CountsOfTotal(Levels(students));
  }

  /** The tally as written: one pass, scoring each student and bumping the
      counter of its level. */
  method TallyLevels(students: seq<Student>) returns (counts: LevelCounts)
    ensures counts == Tally(students)
  {
    counts := NoCounts;
    var i := 0;
    while i < |students|
      invariant 0 <= i <= |students|
      invariant counts == CountsOf(Levels(students[..i]))
    {
      var risk := CalculateRiskLevel(students[i]);
      ghost var before := Levels(students[..i]);
      assert Levels(students[..i + 1]) == before + [risk.level];
      assert (before + [risk.level])[..|before|] == before;
      counts := counts.Increment(risk.level);
      i := i + 1;
    }
    assert students[..i] == students;
  }

  /** `Math.round(part / whole * 100)`, or 0 for an empty roster, in exact
      arithmetic: the nearest integer, halves rounded up. */
  function RoundedPercent(part: nat, whole: nat): (percent: int)
    ensures whole == 0 ==> percent == 0
    ensures whole > 0 ==>
      2 * percent * whole - whole <= 200 * part < 2 * percent * whole + whole
    ensures part <= whole ==> 0 <= percent <= 100
  {
    if whole == 0 then 0
    else
      RoundingBounds(part, whole);
      (200 * part + whole) / (2 * whole)
  }

  lemma RoundingBounds(part: nat, whole: nat)
    requires whole > 0
    ensures var p := (200 * part + whole) / (2 * whole);
      2 * p * whole - whole <= 200 * part < 2 * p * whole + whole &&
      (part <= whole ==> 0 <= p <= 100)
  {
    var n, d := 200 * part + whole, 2 * whole;
    var p := n / d;
    var r := n % d;
    assert n == d * p + r && 0 <= r < d;
    assert d * p == 2 * p * whole;
    if part <= whole && p > 100 {
      MultiplyMonotone(101, p, whole);
      assert false;
    }
  }

  /** Multiplying by the same factor keeps the order; the solver needs this
      step spelled out to bound the rounded share by 100. */
  lemma MultiplyMonotone(a: nat, b: nat, c: nat)
    requires a <= b
    ensures a * c <= b * c
  {
  }

  datatype Summary = Summary(
    totalStudents: nat,
    atRiskStudents: nat,
    criticalStudents: nat,
    lowRiskStudents: nat,
    atRiskPercent: int)

  /** The four summary cards' figures. */
  method Summarize(students: seq<Student>) returns (summary: Summary)
    ensures summary.totalStudents == |students|
    ensures summary.atRiskStudents ==
      CountAt(students, Moderate) + CountAt(students, High) + CountAt(students, Critical)
    ensures summary.atRiskStudents == |students| - CountAt(students, Low)
    ensures summary.criticalStudents == CountAt(students, Critical)
    ensures summary.lowRiskStudents == CountAt(students, Low)
    ensures summary.atRiskPercent == RoundedPercent(summary.atRiskStudents, |students|)
    ensures 0 <= summary.atRiskPercent <= 100
  {
    var riskCounts := TallyLevels(students);
    TallyCounts(students, Low);
    TallyCounts(students, Moderate);
    TallyCounts(students, High);
    TallyCounts(students, Critical);
    TallyTotal(students);
    var totalStudents := |students|;
    var atRiskStudents := riskCounts.moderate + riskCounts.high + riskCounts.critical;
    var criticalStudents := riskCounts.critical;
    summary := Summary(totalStudents, atRiskStudents, criticalStudents, riskCounts.low,
                       RoundedPercent(atRiskStudents, totalStudents));
  }
}
