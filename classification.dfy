/**
 * The engine's small classification and grade-conversion functions:
 * `_get_achievement_status`, `_get_cpl_status`, `convert_to_letter_grade`
 * and `convert_to_gpa`.
 */
module Classification {

  /** `status_pencapaian` of a sub-CPMK or CPMK value. */
  datatype Achievement = SangatBaik | Baik | Cukup | Kurang {
    /** Position in the order kurang < cukup < baik < sangat_baik. */
    function Rank(): nat {
      match this
      case Kurang => 0
      case Cukup => 1
      case Baik => 2
      case SangatBaik => 3
    }
  }

  /**
   * `_get_achievement_status`: the bands are closed below at 85, 70 and 55,
   * and every score falls in exactly one of them.
   */
  function AchievementStatus(nilai: real): (s: Achievement)
    ensures s == SangatBaik <==> 85.0 <= nilai
    ensures s == Baik <==> 70.0 <= nilai < 85.0
    ensures s == Cukup <==> 55.0 <= nilai < 70.0
    ensures s == Kurang <==> nilai < 55.0
  {
    if nilai >= 85.0 then SangatBaik
    else if nilai >= 70.0 then Baik
    else if nilai >= 55.0 then Cukup
    else Kurang
  }

  /** A higher score never gets a lower achievement status. */
  lemma AchievementStatusMonotone(a: real, b: real)
    requires a <= b
    ensures AchievementStatus(a).Rank() <= AchievementStatus(b).Rank()
  {
  }

  /** `status_pencapaian` of an aggregate CPL: the strongest I/R/M/A stage reached. */
  datatype CplStatus = Assessed | Master | Reinforce | Introduce | BelumDimulai {
    function Rank(): nat {
      match this
      case BelumDimulai => 0
      case Introduce => 1
      case Reinforce => 2
      case Master => 3
      case Assessed => 4
    }
  }

  /** Strength of a stage tag I < R < M < A; any other text ranks 0. */
  function StageRank(stage: string): nat {
    if stage == "A" then 4
    else if stage == "M" then 3
    else if stage == "R" then 2
    else if stage == "I" then 1
    else 0
  }

  /** `_get_cpl_status` over the `status_dalam_mk` column of the result rows. */
  function CplStatusOf(stages: seq<string>): (s: CplStatus)
    ensures s == Assessed <==> "A" in stages
    ensures s == Master <==> "A" !in stages && "M" in stages
    ensures s == Reinforce <==> "A" !in stages && "M" !in stages && "R" in stages
    ensures s == Introduce <==> "A" !in stages && "M" !in stages && "R" !in stages && "I" in stages
  {
    if "A" in stages then Assessed
    else if "M" in stages then Master
    else if "R" in stages then Reinforce
    else if "I" in stages then Introduce
    else BelumDimulai
  }

  /**
   * The status is the strongest stage present: no stage in the list outranks
   * it, and unless it is belum_dimulai some stage in the list reaches it.
   */
  lemma CplStatusIsStrongestStage(stages: seq<string>)
    ensures forall i :: 0 <= i < |stages| ==> StageRank(stages[i]) <= CplStatusOf(stages).Rank()
    ensures CplStatusOf(stages) != BelumDimulai ==>
              exists i :: 0 <= i < |stages| && StageRank(stages[i]) == CplStatusOf(stages).Rank()
  {
    var s := CplStatusOf(stages);
    forall i | 0 <= i < |stages|
      ensures StageRank(stages[i]) <= s.Rank()
    {
      assert stages[i] in stages;
    }
  }

  /** The grades `convert_to_letter_grade` produces and `convert_to_gpa` knows, best first. */
  const Grades: seq<string> := ["A", "A-", "B+", "B", "B-", "C+", "C", "D", "E"]

  /** The breakpoints of the grades above, in the same order (E has none). */
  const Breakpoints: seq<real> := [85.0, 80.0, 75.0, 70.0, 65.0, 60.0, 55.0, 50.0]

  /** `convert_to_letter_grade`. */
  function LetterGrade(nilai: real): (g: string)
    ensures g in Grades
    ensures forall i :: 0 <= i < |Breakpoints| ==> (g == Grades[i] <==> Breakpoints[i] <= nilai && (i == 0 || nilai < Breakpoints[i - 1]))
    ensures g == "E" <==> nilai < 50.0
  {
    if nilai >= 85.0 then "A"
    else if nilai >= 80.0 then "A-"
    else if nilai >= 75.0 then "B+"
    else if nilai >= 70.0 then "B"
    else if nilai >= 65.0 then "B-"
    else if nilai >= 60.0 then "C+"
    else if nilai >= 55.0 then "C"
    else if nilai >= 50.0 then "D"
    else "E"
  }

  /** The conversion table of `convert_to_gpa`. */
  const GpaTable: map<string, real> := map[
    "A" := 4.00, "A-" := 3.75, "B+" := 3.50, "B" := 3.00, "B-" := 2.75,
    "C+" := 2.50, "C" := 2.00, "D" := 1.00, "E" := 0.00]

  /** `convert_to_gpa`: the table entry, or 0.00 for any grade not in the table. */
  function Gpa(grade: string): (r: real)
    ensures grade !in GpaTable ==> r == 0.0
    ensures 0.0 <= r <= 4.0
  {
    if grade in GpaTable then GpaTable[grade] else 0.0
  }

  /**
   * `convert_to_letter_grade` is monotone: a higher score never earns a
   * letter grade with a lower grade point.
   */
  lemma LetterGradeMonotone(a: real, b: real)
    requires a <= b
    ensures Gpa(LetterGrade(a)) <= Gpa(LetterGrade(b))
  {
  }
}
