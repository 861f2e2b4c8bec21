/// Worked rounds: concrete holes, handicaps and shot logs, and what the
/// engine recommends for them.
module Scenarios {
  import opened Optional
  import opened Course
  import opened Streak
  import opened Engine

  /** Hole 5 is the hardest hole (rating 1). A 19 handicap gets two strokes
      there and a 13 handicap one, so before the tee shots Matt goes first. */
  lemma HardestHoleMattTeesFirst()
    ensures StrokesFor(19, 4) == 2 && StrokesFor(13, 4) == 1
    ensures Advise(HoleState(4, [], [], StrokesFor(19, 4), StrokesFor(13, 4)), false, []).text == TeesFirst(Matt)
  {
  }

  /** On hole 2 (rating 9, both weights 0.5) handicaps of 19 and 13 each
      get one stroke. Matt hits a perfect tee shot first: Mike is told to
      attack, with an exact EV of 0.425 (which the program shows rounded to
      hundredths). */
  lemma SafeTeeShotFreesPartner()
    ensures StrokesFor(19, 1) == 1 && StrokesFor(13, 1) == 1
    ensures var a := Advise(HoleState(1, [5], [], StrokesFor(19, 1), StrokesFor(13, 1)), false, []);
            a.text == SafeThenAttack(Matt) && a.attacker == Some(Mike) && a.ev == 425
  {
  }

  /** Both tee balls graded F: no attacker, play from Matt's lie (the tie
      goes to Matt). */
  lemma BothPenaltiesPlayFromMattsLie()
    ensures var a := Advise(HoleState(0, [1], [1], 1, 1), false, []);
            a.text == BothInTrouble(Matt) && a.attacker == None && a.ev == 0
            && a.rules == [BothTeeBallsInTrouble]
  {
  }

  /** Three trouble shots in a row for Mike, Matt's latest ball safe: the
      warning comes first and Mike's attack is downgraded. */
  lemma StreakDowngradesAttack()
    ensures var a := Advise(HoleState(0, [4, 4], [2, 1, 2], 1, 0), false, []);
            a.rules == [BadStreakWarning(Mike, 3), OnlySafe(Matt), ApproachDowngraded(Mike)]
            && a.text == OneSafeControlled(Matt) && a.attacker == Some(Mike)
  {
    var s := HoleState(0, [4, 4], [2, 1, 2], 1, 0);
    assert BadStreak(s.mikeShots) == 3 by {
      BadStreakAppend([], 2);
      BadStreakAppend([2], 1);
      BadStreakAppend([2, 1], 2);
      assert [2, 1] + [2] == [2, 1, 2];
    }
    assert BadStreak(s.mattShots) == 0 by {
      BadStreakAfterGoodShot([4, 4]);
    }
    assert Warnings(s) == [BadStreakWarning(Mike, 3)];
    assert PhaseAdvice(s, false) == ApproachAdvice(s, false);
    assert ApproachAdvice(s, false).rules == [OnlySafe(Matt), ApproachDowngraded(Mike)];
  }
}
