/** The grade shown on the result screen of a main session, from its elapsed seconds. */
module Grading {

  datatype Grade = S | A | B | C

  datatype GradeInfo = GradeInfo(grade: Grade, title: string, comment: string)

  /** Position of a grade on the ladder, best first. */
  function Rank(g: Grade): nat {
    match g
    case S => 0
    case A => 1
    case B => 2
    case C => 3
  }

  /** The threshold ladder: at most 60 s is S, at most 90 s is A, at most 120 s is B,
      anything slower is C. Each grade carries its own title and comment. */
  function GradeForSeconds(sec: real): (info: GradeInfo)
    ensures info.grade == S <==> sec <= 60.0
    ensures info.grade == A <==> 60.0 < sec <= 90.0
    ensures info.grade == B <==> 90.0 < sec <= 120.0
    ensures info.grade == C <==> 120.0 < sec
  {
    if sec <= 60.0 then
      GradeInfo(S, "元素記号マスター!!", "すごい！反射神経も知識もバッチリ。もうあなたは元素記号マスター！")
    else if sec <= 90.0 then
      GradeInfo(A, "すばらしい！", "とても良いペース！あと少しでSも見えてきます。")
    else if sec <= 120.0 then
      GradeInfo(B, "順調!", "迷った問題を復習すると、タイムがぐっと縮みます。")
    else
      GradeInfo(C, "これから伸びる", "大丈夫、伸びしろたっぷり！まずは1〜10を完璧にしてみよう。")
  }

  /** A slower time never earns a better grade. */
  lemma GradeMonotone(faster: real, slower: real)
    requires faster <= slower
    ensures Rank(GradeForSeconds(faster).grade) <= Rank(GradeForSeconds(slower).grade)
  {
  }

  /** The four grades have four different titles, so the title alone tells the grade. */
  lemma GradeTitlesDistinct(a: real, b: real)
    requires GradeForSeconds(a).grade != GradeForSeconds(b).grade
    ensures GradeForSeconds(a).title != GradeForSeconds(b).title
  {
  }
}
