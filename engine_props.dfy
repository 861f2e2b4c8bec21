/// What the advisory engine guarantees, stated over its specification
/// `Engine.Advise` (which `Engine.RoleAdviceAndRules` is proved to compute)
/// and over the EV heuristic and the attacker choice.
module EngineProperties {
  import opened Optional
  import opened Grades
  import opened Course
  import opened Streak
  import opened Engine

  // ---------------------------------------------------------------------
  // The EV heuristic
  // ---------------------------------------------------------------------

  /** A safe ball behind the attacker is worth 0.40: 0.20 more bonus and
      0.20 less risk. */
  lemma EvSafeBallBonus(w: int, streak: nat, strokes: int, day2Bias: bool)
    ensures Ev(w, streak, strokes, true, day2Bias) == Ev(w, streak, strokes, false, day2Bias) + 400
  {
  }

  /** A day-2 target hole is worth 0.25. */
  lemma EvDay2Bonus(w: int, streak: nat, strokes: int, safeBall: bool)
    ensures Ev(w, streak, strokes, safeBall, true) == Ev(w, streak, strokes, safeBall, false) + 250
  {
  }

  /** Holding a stroke is worth 0.10 over holding none. */
  lemma EvStrokeBonus(w: int, streak: nat, strokes: int, safeBall: bool, day2Bias: bool)
    requires strokes >= 1
    ensures Ev(w, streak, strokes, safeBall, day2Bias) == Ev(w, streak, 0, safeBall, day2Bias) + 100
  {
  }

  /** A longer bad streak never raises the EV, and past three shots it no
      longer lowers it. */
  lemma EvStreakMonotone(w: int, s1: nat, s2: nat, strokes: int, safeBall: bool, day2Bias: bool)
    requires s1 <= s2
    ensures Ev(w, s2, strokes, safeBall, day2Bias) <= Ev(w, s1, strokes, safeBall, day2Bias)
    ensures s1 >= BadStreakThreshold ==>
      Ev(w, s2, strokes, safeBall, day2Bias) == Ev(w, s1, strokes, safeBall, day2Bias)
  {
  }

  /** With the course's weights (0.2, 0.5 or 0.8) the exact EV is never
      within 0.02 of zero: it is 20, 25 or 30 thousandths above a multiple
      of 50. */
  lemma {:induction false} EvClearOfZero(w: int, streak: nat, strokes: int, safeBall: bool, day2Bias: bool)
    requires w == 2 || w == 5 || w == 8
    ensures var ev := Ev(w, streak, strokes, safeBall, day2Bias); ev <= -20 || ev >= 20
  {
    var ev := Ev(w, streak, strokes, safeBall, day2Bias);
    var q := (if day2Bias then 5 else 0) + (if safeBall then 4 else -4) + (if strokes > 0 then 1 else -1)
             - 3 * Min(streak, BadStreakThreshold);
    assert ev == 35 * w + 50 * q;
  }

  /** Rounding the EV to hundredths, however ties are broken, never changes
      the outcome of the `ev <= 0` test: `cents` is any value within half a
      hundredth of the exact EV. */
  lemma RoundingKeepsDecision(w: int, streak: nat, strokes: int, safeBall: bool, day2Bias: bool, cents: int)
    requires w == 2 || w == 5 || w == 8
    requires var ev := Ev(w, streak, strokes, safeBall, day2Bias); -5 <= 10 * cents - ev <= 5
    ensures cents <= 0 <==> Ev(w, streak, strokes, safeBall, day2Bias) <= 0
  {
    EvClearOfZero(w, streak, strokes, safeBall, day2Bias);
  }

  // ---------------------------------------------------------------------
  // The attacker choice
  // ---------------------------------------------------------------------

  /** Higher last grade first, then higher hole weight, then Matt. */
  function GradeThenWeight(mGrade: int, kGrade: int, mWeight: int, kWeight: int): Player {
    if mGrade != kGrade then (if mGrade > kGrade then Matt else Mike)
    else if mWeight != kWeight then (if mWeight > kWeight then Matt else Mike)
    else Matt
  }

  /** Where the engine asks for a candidate (one tee shot each, or both
      latest balls safe), the scored choice is the plain order "better last
      grade, then more comfortable hole, then Matt": a grade step (1.00)
      outweighs any weight gap (at most 0.36), and the streak penalty never
      works against the better grade. */
  lemma {:induction false} ChooseAttackerIsGradeThenWeight(s: HoleState)
    requires s.Valid() && s.mattShots != [] && s.mikeShots != []
    requires (|s.mattShots| == 1 && |s.mikeShots| == 1)
          || (IsSafe(OrZero(Last(s.mattShots))) && IsSafe(OrZero(Last(s.mikeShots))))
    ensures ChooseAttackerCandidate(s, Last(s.mattShots), Last(s.mikeShots))
         == GradeThenWeight(OrZero(Last(s.mattShots)), OrZero(Last(s.mikeShots)), s.HoleWeight(Matt), s.HoleWeight(Mike))
  {
    StreakOfLatest(s.mattShots);
    StreakOfLatest(s.mikeShots);
  }

  /** The candidate favours the higher last grade: raising a player's last
      grade never takes the candidacy away from that player. */
  lemma ChooseAttackerFavoursBetterGrade(s: HoleState, mLast: int, kLast: int, up: nat)
    requires s.Valid()
    ensures ChooseAttackerCandidate(s, Some(mLast), Some(kLast)) == Matt
            ==> ChooseAttackerCandidate(s, Some(mLast + up), Some(kLast)) == Matt
    ensures ChooseAttackerCandidate(s, Some(mLast), Some(kLast)) == Mike
            ==> ChooseAttackerCandidate(s, Some(mLast), Some(kLast + up)) == Mike
  {
  }

  /** A safe latest grade means no streak; a one-shot log has a streak of
      one exactly when that shot is trouble. */
  lemma StreakOfLatest(shots: seq<int>)
    requires shots != []
    ensures IsSafe(shots[|shots| - 1]) ==> BadStreak(shots) == 0
    ensures |shots| == 1 ==> BadStreak(shots) == (if IsBad(shots[0]) then 1 else 0)
  {
    assert shots[..|shots| - 1] == [] ==> BadStreak(shots[..|shots| - 1]) == 0;
  }

  // ---------------------------------------------------------------------
  // Phases
  // ---------------------------------------------------------------------

  /** Every pair of log lengths falls in exactly one phase, and the phases
      are the ones the engine names. */
  lemma PhaseOfCharacterized(m: nat, k: nat)
    ensures PhaseOf(m, k) == PreTee <==> m == 0 && k == 0
    ensures PhaseOf(m, k) == OneTeeShot <==> m + k == 1
    ensures PhaseOf(m, k) == BothTeed <==> m == 1 && k == 1
    ensures PhaseOf(m, k) == Approach <==> m + k >= 2 && !(m == 1 && k == 1)
  {
  }

  /** No phase fires a bad-streak warning of its own. */
  lemma PhaseRulesHaveNoWarnings(s: HoleState, bias: bool)
    requires s.Valid()
    ensures forall r :: r in PhaseAdvice(s, bias).rules ==> !r.BadStreakWarning?
  {
  }

  /** The bad-streak warnings lead the rule trail, Matt's before Mike's, one
      for each player whose streak has reached three; no other rule is a
      warning. */
  lemma WarningsComeFirst(s: HoleState, day2: bool, improveList: seq<int>)
    requires s.Valid()
    ensures var rules := Advise(s, day2, improveList).rules;
            var mattWarns := BadStreak(s.mattShots) >= BadStreakThreshold;
            var mikeWarns := BadStreak(s.mikeShots) >= BadStreakThreshold;
            var w := (if mattWarns then 1 else 0) + (if mikeWarns then 1 else 0);
            && w <= |rules|
            && (forall i :: 0 <= i < |rules| ==> (rules[i].BadStreakWarning? <==> i < w))
            && (mattWarns ==> rules[0] == BadStreakWarning(Matt, BadStreak(s.mattShots)))
            && (mikeWarns ==> rules[w - 1] == BadStreakWarning(Mike, BadStreak(s.mikeShots)))
  {
    PhaseRulesHaveNoWarnings(s, Day2Bias(s, day2, improveList));
    var rules := Advise(s, day2, improveList).rules;
    var phaseRules := PhaseAdvice(s, Day2Bias(s, day2, improveList)).rules;
    var warns := Warnings(s);
    assert rules == warns + phaseRules;
    forall i | |warns| <= i < |rules|
      ensures !rules[i].BadStreakWarning?
    {
      assert rules[i] == phaseRules[i - |warns|];
      assert phaseRules[i - |warns|] in phaseRules;
    }
  }

  /** Before anyone tees off there is no attacker and no EV, and the tee
      order rule names who goes first: Matt when he has strictly more
      strokes or a strictly higher weight on the hole, Mike otherwise (a
      full tie included). */
  lemma PreTeeOutcome(s: HoleState, day2: bool, improveList: seq<int>)
    requires s.Valid() && s.mattShots == [] && s.mikeShots == []
    ensures var a := Advise(s, day2, improveList);
            && a.attacker == None && a.ev == 0
            && a.text.TeesFirst?
            && a.rules == Warnings(s) + [TeeOrder(a.text.first)]
            && (a.text.first == Matt <==> s.mattStrokes > s.mikeStrokes || s.HoleWeight(Matt) > s.HoleWeight(Mike))
  {
  }

  // ---------------------------------------------------------------------
  // Outcomes
  // ---------------------------------------------------------------------

  /** Whenever no attacker is named, the EV is zero. */
  lemma NoAttackerNoEv(s: HoleState, day2: bool, improveList: seq<int>)
    requires s.Valid()
    ensures var a := Advise(s, day2, improveList); a.attacker == None ==> a.ev == 0
  {
  }

  /** Whether the ball the attacker plays has a safe ball behind it: every
      recommendation with an attacker except the ones after an average tee
      shot or mixed tee shots. */
  predicate SafeBallBehind(r: Recommendation) {
    !(r.AverageThenConservative? || r.AverageThenMediumRisk? || r.MixedAvoidRisk? || r.MixedInsideFifteen?)
  }

  /** `a` reports its attacker's own EV. */
  predicate ReportsAttackersEv(s: HoleState, a: Advice, bias: bool)
    requires s.Valid()
  {
    a.attacker.Some? ==> a.ev == AttackerEv(s, a.attacker.value, SafeBallBehind(a.text), bias)
  }

  lemma OneTeeShotEv(s: HoleState, bias: bool)
    requires s.Valid() && |s.mattShots| + |s.mikeShots| == 1
    ensures ReportsAttackersEv(s, OneTeeShotAdvice(s, bias), bias)
  {
  }

  lemma BothTeedEv(s: HoleState, bias: bool)
    requires s.Valid() && |s.mattShots| == 1 && |s.mikeShots| == 1
    ensures ReportsAttackersEv(s, BothTeedAdvice(s, bias), bias)
  {
  }

  lemma ApproachEv(s: HoleState, bias: bool)
    requires s.Valid()
    ensures ReportsAttackersEv(s, ApproachAdvice(s, bias), bias)
  {
  }

  /** The EV reported is the named attacker's own EV, with the day-2 bonus
      exactly on listed holes in day-2 mode. */
  lemma AdviceEvIsAttackersEv(s: HoleState, day2: bool, improveList: seq<int>)
    requires s.Valid()
    ensures var a := Advise(s, day2, improveList);
            a.attacker.Some? ==>
              a.ev == AttackerEv(s, a.attacker.value, SafeBallBehind(a.text), day2 && s.Hole() in improveList)
  {
    var bias := Day2Bias(s, day2, improveList);
    match PhaseOf(|s.mattShots|, |s.mikeShots|)
    case PreTee =>
    case OneTeeShot => OneTeeShotEv(s, bias);
    case BothTeed => BothTeedEv(s, bias);
    case Approach => ApproachEv(s, bias);
  }

  /** The condition under which an attacker may be sent at the flag. */
  predicate Warranted(s: HoleState, a: Advice)
    requires s.Valid()
  {
    a.attacker.Some? && a.ev > 0 && BadStreak(s.Shots(a.attacker.value)) < BadStreakThreshold
  }

  lemma OneTeeShotAggressive(s: HoleState, bias: bool)
    requires s.Valid() && |s.mattShots| + |s.mikeShots| == 1
    ensures var a := OneTeeShotAdvice(s, bias); IsAggressive(a.text) <==> Warranted(s, a)
  {
  }

  lemma BothTeedAggressive(s: HoleState, bias: bool)
    requires s.Valid() && |s.mattShots| == 1 && |s.mikeShots| == 1
    ensures var a := BothTeedAdvice(s, bias); IsAggressive(a.text) <==> Warranted(s, a)
  {
    StreakOfLatest(s.mattShots);
    StreakOfLatest(s.mikeShots);
  }

  lemma ApproachAggressive(s: HoleState, bias: bool)
    requires s.Valid()
    ensures var a := ApproachAdvice(s, bias); IsAggressive(a.text) <==> Warranted(s, a)
  {
    if s.mattShots != [] {
      StreakOfLatest(s.mattShots);
    }
    if s.mikeShots != [] {
      StreakOfLatest(s.mikeShots);
    }
  }

  /** The engine sends the attacker at the flag exactly when there is an
      attacker, the EV is positive and the attacker's bad streak is below
      three; in the branches where the source does not test the streak
      (the mixed tee shots and both balls safe) it cannot have reached
      three. */
  lemma AggressiveExactlyWhenWarranted(s: HoleState, day2: bool, improveList: seq<int>)
    requires s.Valid()
    ensures var a := Advise(s, day2, improveList);
            IsAggressive(a.text) <==>
              a.attacker.Some? && a.ev > 0 && BadStreak(s.Shots(a.attacker.value)) < BadStreakThreshold
  {
    var bias := Day2Bias(s, day2, improveList);
    match PhaseOf(|s.mattShots|, |s.mikeShots|)
    case PreTee =>
    case OneTeeShot => OneTeeShotAggressive(s, bias);
    case BothTeed => BothTeedAggressive(s, bias);
    case Approach => ApproachAggressive(s, bias);
  }

  /** Every ATTACK call comes with a positive EV and an attacker whose bad
      streak is below three. */
  lemma AttackCallIsSound(s: HoleState, day2: bool, improveList: seq<int>)
    requires s.Valid()
    ensures var a := Advise(s, day2, improveList);
            IsAttackCall(a.text) ==>
              a.attacker.Some? && a.ev > 0 && BadStreak(s.Shots(a.attacker.value)) < BadStreakThreshold
  {
    AggressiveExactlyWhenWarranted(s, day2, improveList);
  }

  /** After a single tee shot that is not in trouble, the attacker is the
      player who has not hit yet. */
  lemma OneTeeShotAttacker(s: HoleState, day2: bool, improveList: seq<int>, hitter: Player)
    requires s.Valid() && |s.Shots(hitter)| == 1 && s.Shots(hitter.Other()) == []
    requires !IsBad(s.Shots(hitter)[0])
    ensures Advise(s, day2, improveList).attacker == Some(hitter.Other())
  {
  }

  /** On the approach, when exactly one player's latest ball is safe, the
      attacker is the other player. */
  lemma ApproachAttacker(s: HoleState, day2: bool, improveList: seq<int>, safe: Player)
    requires s.Valid() && PhaseOf(|s.mattShots|, |s.mikeShots|) == Approach
    requires IsSafe(OrZero(Last(s.Shots(safe))))
    requires !IsSafe(OrZero(Last(s.Shots(safe.Other()))))
    ensures Advise(s, day2, improveList).attacker == Some(safe.Other())
  {
  }
}
