/**
 * Risk grades and the classifier of LPVSStatisticsService: `getGrade` and
 * `putDefaultriskGradeMap`.
 */
module Grades {
  import opened Wrappers
  import opened Exceptions
  import opened IntParse

  /** com.lpvs.entity.enums.Grade; `NoRisk` is its `NONE`, the floor (below 30%). */
  datatype Grade = High | Middle | Low | NoRisk

  const AllGrades: set<Grade> := {High, Middle, Low, NoRisk}

  lemma GradesExhaustive()
    ensures forall g: Grade :: g in AllGrades
  {
    forall g: Grade
      ensures g in AllGrades
    {
      match g
      case High =>
      case Middle =>
      case Low =>
      case NoRisk =>
    }
  }

  /** Severity order of the grades: NoRisk < Low < Middle < High. */
  function Rank(g: Grade): nat {
    match g
    case High => 3
    case Middle => 2
    case Low => 1
    case NoRisk => 0
  }

  /** The threshold chain: inclusive lower bounds 80, 50 and 30, highest first. */
  function Classify(matchValue: int): (g: Grade)
    ensures g == High <==> 80 <= matchValue
    ensures g == Middle <==> 50 <= matchValue < 80
    ensures g == Low <==> 30 <= matchValue < 50
    ensures g == NoRisk <==> matchValue < 30
  {
    if matchValue >= 80 then High
    else if matchValue >= 50 then Middle
    else if matchValue >= 30 then Low
    else NoRisk
  }

  /** A larger match value never yields a lower grade. */
  lemma ClassifyMonotone(a: int, b: int)
    requires a <= b
    ensures Rank(Classify(a)) <= Rank(Classify(b))
  {
  }

  /** A character outside the Basic Multilingual Plane: Java stores it as
      two UTF-16 code units (a surrogate pair). */
  predicate IsSupplementary(c: char) {
    c as int >= 0x1_0000
  }

  /**
   * `getGrade`: drops the last UTF-16 code unit of `percent` (normally the
   * '%') and parses the rest. An empty string makes `substring(0, -1)`
   * throw; an unparseable prefix makes `parseInt` throw. When the last
   * character is a surrogate pair, only its low half is dropped, and the
   * high half left behind is not a digit.
   */
  function GetGrade(percent: string): (r: Result<Grade, Exception>)
    ensures |percent| == 0 ==> r == Failure(StringIndexOutOfBounds)
    ensures |percent| > 0 ==>
      (r.Success? <==> !IsSupplementary(percent[|percent| - 1]) && ParseInt(percent[..|percent| - 1]).Some?)
    ensures r.Failure? && |percent| > 0 ==> r.error == NumberFormat
    ensures r.Success? ==> r.value == Classify(ParseInt(percent[..|percent| - 1]).value)
  {
    if |percent| == 0 then Failure(StringIndexOutOfBounds)
    else if IsSupplementary(percent[|percent| - 1]) then Failure(NumberFormat)
    else
      match ParseInt(percent[..|percent| - 1])
      case None => Failure(NumberFormat)
      case Some(matchValue) => Success(Classify(matchValue))
  }

  /** A percentage printed as "<n>%" is graded by the thresholds on n. */
  lemma GetGradeOfPercent(n: int)
    requires MinInt <= n <= MaxInt
    ensures GetGrade(IntToString(n) + "%") == Success(Classify(n))
  {
    var s := IntToString(n) + "%";
    assert s[..|s| - 1] == IntToString(n);
    ParseIntToString(n);
  }

  /** Each threshold, the value just below it, and zero. */
  lemma GradeBoundaries()
    ensures GetGrade("80%") == Success(High)
    ensures GetGrade("79%") == Success(Middle)
    ensures GetGrade("50%") == Success(Middle)
    ensures GetGrade("49%") == Success(Low)
    ensures GetGrade("30%") == Success(Low)
    ensures GetGrade("29%") == Success(NoRisk)
    ensures GetGrade("0%") == Success(NoRisk)
  {
    Boundary(80, "80%");
    Boundary(79, "79%");
    Boundary(50, "50%");
    Boundary(49, "49%");
    Boundary(30, "30%");
    Boundary(29, "29%");
    Boundary(0, "0%");
  }

  lemma Boundary(n: nat, text: string)
    requires n < 100
    requires text == (if n < 10 then [DigitChar(n)] else [DigitChar(n / 10), DigitChar(n % 10)]) + "%"
    ensures GetGrade(text) == Success(Classify(n))
  {
    if 10 <= n {
      assert NatToDigits(n) == [DigitChar(n / 10), DigitChar(n % 10)];
    }
    assert text == IntToString(n) + "%";
    GetGradeOfPercent(n);
  }

  /** A match ending in a surrogate pair is never graded, whatever comes
      before it: "85" followed by an emoji throws NumberFormat. */
  lemma GetGradeOfSupplementaryEnding(prefix: string, c: char)
    requires IsSupplementary(c)
    ensures GetGrade(prefix + [c]) == Failure(NumberFormat)
    ensures GetGrade("85\U{1F600}") == Failure(NumberFormat)
  {
    assert (prefix + [c])[|prefix|] == c;
    assert "85\U{1F600}"[2] == '\U{1F600}';
  }

  /** A match string with nothing but the '%' is not a number. */
  lemma GetGradeOfBarePercent()
    ensures GetGrade("%") == Failure(NumberFormat)
  {
  }

  /** `riskGradeMap.getOrDefault(g, 0)`. */
  function GradeCount(m: map<Grade, int>, g: Grade): int {
    if g in m then m[g] else 0
  }

  /** `putDefaultriskGradeMap`: every grade is (re)set to 0. */
  function PutDefaultGrades(m: map<Grade, int>): (r: map<Grade, int>)
    ensures r.Keys == AllGrades
    ensures forall g :: g in r ==> r[g] == 0
  {
    GradesExhaustive();
    m[High := 0][Middle := 0][Low := 0][NoRisk := 0]
  }

  /** Applying the defaults twice is the same as once, whatever the map held. */
  lemma PutDefaultGradesIdempotent(m: map<Grade, int>)
    ensures PutDefaultGrades(PutDefaultGrades(m)) == PutDefaultGrades(m)
  {
  }

  /** The defaults do not depend on what the map held before. */
  lemma PutDefaultGradesForgets(m: map<Grade, int>, m': map<Grade, int>)
    ensures PutDefaultGrades(m) == PutDefaultGrades(m')
  {
  }
}
