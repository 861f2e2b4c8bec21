/// The round's session state: each player's shot log for each hole, which
/// the grade buttons append to and the reset button clears, and the
/// recommendation computed from the logs of the hole on screen.
module Session {
  import opened Grades
  import opened Course
  import opened Streak
  import opened Engine

  predicate AllGrades(shots: seq<int>) {
    forall j :: 0 <= j < |shots| ==> IsGrade(shots[j])
  }

  class ShotLogs {
    /** Matt's and Mike's logs, keyed by the 1-based hole number. A hole
        without an entry has an empty log. */
    var matt: map<int, seq<int>>
    var mike: map<int, seq<int>>

    /** Only scores of letter grades are ever logged. */
    ghost predicate Valid()
      reads this
    {
      && (forall h :: h in matt ==> AllGrades(matt[h]))
      && (forall h :: h in mike ==> AllGrades(mike[h]))
    }

    /** The log of player `p` on hole `hole`. */
    function Log(p: Player, hole: int): seq<int>
      reads this
    {
      var logs := if p == Matt then matt else mike;
      if hole in logs then logs[hole] else []
    }

    constructor ()
      ensures Valid()
      ensures forall p, hole :: Log(p, hole) == []
    {
      matt := map[];
      mike := map[];
    }

    /** Record player `p`'s grade `g` for the latest shot on `hole`. */
    method Append(p: Player, hole: int, g: Letter)
      requires Valid()
      modifies this
      ensures Valid()
      ensures Log(p, hole) == old(Log(p, hole)) + [GradeToScore(g)]
      ensures forall q, h :: (q != p || h != hole) ==> Log(q, h) == old(Log(q, h))
      ensures BadStreak(Log(p, hole)) ==
        if IsBad(GradeToScore(g)) then old(BadStreak(Log(p, hole))) + 1 else 0
    {
      var score := GradeToScore(g);
      BadStreakAppend(Log(p, hole), score);
      if p == Matt {
        matt := matt[hole := Log(Matt, hole) + [score]];
      } else {
        mike := mike[hole := Log(Mike, hole) + [score]];
      }
    }

    /** Clear both players' logs for `hole`. */
    method Reset(hole: int)
      requires Valid()
      modifies this
      ensures Valid()
      ensures Log(Matt, hole) == [] && Log(Mike, hole) == []
      ensures forall q, h :: h != hole ==> Log(q, h) == old(Log(q, h))
    {
      matt := matt[hole := []];
      mike := mike[hole := []];
    }

    /** What the engine reads for `hole`: its logs and each player's
        strokes there. */
    function Snapshot(hole: int, mattHcp: int, mikeHcp: int): (s: HoleState)
      reads this
      requires 1 <= hole <= Holes
      ensures s.Valid() && s.Hole() == hole
      ensures s.mattShots == Log(Matt, hole) && s.mikeShots == Log(Mike, hole)
      ensures Valid() ==> AllGrades(s.mattShots) && AllGrades(s.mikeShots)
    {
      HoleState(hole - 1, Log(Matt, hole), Log(Mike, hole),
                StrokesFor(mattHcp, hole - 1), StrokesFor(mikeHcp, hole - 1))
    }

    /** The live recommendation for `hole`. */
    method Recommend(hole: int, mattHcp: int, mikeHcp: int, day2: bool, improveList: seq<int>)
      returns (advice: Advice)
      requires 1 <= hole <= Holes
      ensures advice == Advise(Snapshot(hole, mattHcp, mikeHcp), day2, improveList)
    {
      advice := RoleAdviceAndRules(Snapshot(hole, mattHcp, mikeHcp), day2, improveList);
    }
  }
}
