/// Shot grades. A player's shot is graded with a letter A, B, C, D or F, and
/// the engine works on the numeric score of the letter: 5 is best, 1 worst.
module Grades {
  import opened Optional

  datatype Letter = A | B | C | D | F

  /** A score of 4 or more (B or better) is a safe ball. */
  const SafeScore := 4
  /** A score of 2 or less (D or worse) is a ball in trouble. */
  const BadScore := 2
  /** This many trouble shots in a row trigger damage-control advice. */
  const BadStreakThreshold := 3

  predicate IsGrade(score: int) {
    1 <= score <= 5
  }

  predicate IsSafe(score: int) {
    score >= SafeScore
  }

  predicate IsBad(score: int) {
    score <= BadScore
  }

  /** The numeric score of a letter grade. */
  function GradeToScore(g: Letter): (score: int)
    ensures IsGrade(score)
    ensures IsSafe(score) <==> g == A || g == B
    ensures IsBad(score) <==> g == D || g == F
  {
    match g
    case A => 5
    case B => 4
    case C => 3
    case D => 2
    case F => 1
  }

  /** The inverted table: the letter of a score, and nothing for a number
      that is not a score (a dictionary lookup that would fail). */
  function ScoreToGrade(score: int): (g: Option<Letter>)
    ensures g.Some? <==> IsGrade(score)
    ensures g.Some? ==> GradeToScore(g.value) == score
  {
    if score == 5 then Some(A)
    else if score == 4 then Some(B)
    else if score == 3 then Some(C)
    else if score == 2 then Some(D)
    else if score == 1 then Some(F)
    else None
  }

  /** Reading a letter's score back gives the letter: the two tables are
      inverse bijections between A..F and 5..1. */
  lemma ScoreToGradeInvertsGradeToScore(g: Letter)
    ensures ScoreToGrade(GradeToScore(g)) == Some(g)
  {
  }

  lemma GradeToScoreInjective(g: Letter, h: Letter)
    ensures GradeToScore(g) == GradeToScore(h) ==> g == h
  {
    ScoreToGradeInvertsGradeToScore(g);
    ScoreToGradeInvertsGradeToScore(h);
  }
}
