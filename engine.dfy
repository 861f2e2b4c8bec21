/// The advisory engine: from the two players' shot logs on the current hole,
/// their strokes and comfort weights, it picks an attacker candidate,
/// estimates the expected net advantage (EV) of attacking over anchoring,
/// and walks the phase-based decision procedure that yields a
/// recommendation, the ordered trail of rules that fired, the EV and the
/// attacker.
///
/// Every quantity that the source computes in floating point is exact here:
/// attacker scores are in hundredths and the EV is in thousandths.
module Engine {
  import opened Optional
  import opened Grades
  import opened Course
  import opened Streak

  /** What the engine reads about the current hole: the 0-based hole index,
      the two shot logs, and the strokes each player receives here. */
  datatype HoleState = HoleState(
    holeIdx: int,
    mattShots: seq<int>,
    mikeShots: seq<int>,
    mattStrokes: int,
    mikeStrokes: int)
  {
    predicate Valid() {
      0 <= holeIdx < Holes
    }

    /** The 1-based hole number, the one listed among the holes to improve. */
    function Hole(): int {
      holeIdx + 1
    }

    function Shots(p: Player): seq<int> {
      if p == Matt then mattShots else mikeShots
    }

    function Strokes(p: Player): int {
      if p == Matt then mattStrokes else mikeStrokes
    }

    function HoleWeight(p: Player): int
      requires Valid()
    {
      Weight(p, holeIdx)
    }
  }

  // ---------------------------------------------------------------------
  // Attacker candidate
  // ---------------------------------------------------------------------

  /** A player's attacker score in hundredths: the last grade (0 when there
      is none), plus 0.6 times the hole weight, less 0.4 per trouble shot in
      the current bad streak. */
  function AttackerScore(s: HoleState, p: Player, lastGrade: Option<int>): int
    requires s.Valid()
  {
    100 * OrZero(lastGrade) + 6 * s.HoleWeight(p) - 40 * BadStreak(s.Shots(p))
  }

  /** The better-scoring player is the attacker candidate; equal scores go
      to Matt. */
  function ChooseAttackerCandidate(s: HoleState, mLast: Option<int>, kLast: Option<int>): (p: Player)
    requires s.Valid()
    ensures var mScore, kScore := AttackerScore(s, Matt, mLast), AttackerScore(s, Mike, kLast);
            (p == Matt ==> mScore >= kScore) && (p == Mike ==> kScore > mScore)
  {
    if AttackerScore(s, Matt, mLast) >= AttackerScore(s, Mike, kLast) then Matt else Mike
  }

  // ---------------------------------------------------------------------
  // Expected net advantage
  // ---------------------------------------------------------------------

  function Min(a: int, b: int): int {
    if a <= b then a else b
  }

  /** The EV heuristic in thousandths for an attacker with hole weight `w`
      (in tenths), bad streak `streak` and `strokes` strokes on the hole.
      The bonus part: 0.35 times the weight, 0.25 for a day-2 target hole,
      0.20 when the partner has a safe ball, and 0.05 with a stroke (less
      0.05 without). The risk part: 0.15 per trouble shot in the streak, at
      most three, and 0.20 when there is no safe ball. Whatever the other
      inputs, the EV lies within -0.70 and +0.50 of 0.35 times the weight; a
      safe ball behind an attacker without a streak always favours attacking,
      and a streak of three with no safe ball never does. */
  function Ev(w: int, streak: nat, strokes: int, safeBall: bool, day2Bias: bool): (r: int)
    ensures 35 * w - 700 <= r <= 35 * w + 500
    ensures 0 <= w && safeBall && streak == 0 ==> r > 0
    ensures w <= 8 && !safeBall && streak >= BadStreakThreshold ==> r < 0
  {
    var bonus := 35 * w + (if day2Bias then 250 else 0) + (if safeBall then 200 else 0)
                 + (if strokes > 0 then 50 else -50);
    var risk := 150 * Min(streak, BadStreakThreshold) + (if safeBall then 0 else 200);
    bonus - risk
  }

  /** The EV of `attacker` attacking on the current hole. */
  function AttackerEv(s: HoleState, attacker: Player, safeBall: bool, day2Bias: bool): int
    requires s.Valid()
  {
    Ev(s.HoleWeight(attacker), BadStreak(s.Shots(attacker)), s.Strokes(attacker), safeBall, day2Bias)
  }

  /** The estimator as the source runs it: look up the attacker's weight,
      streak and strokes, then build the bonus and the risk step by step. */
  method ExpectedNetAdvantage(s: HoleState, attacker: Player, safeBall: bool, day2Bias: bool)
    returns (ev: int)
    requires s.Valid()
    ensures ev == AttackerEv(s, attacker, safeBall, day2Bias)
  {
    var w, streak, strokes;
    if attacker == Matt {
      w := MattHoleWeight[s.holeIdx];
      streak := CountBadStreak(s.mattShots);
      strokes := s.mattStrokes;
    } else {
      w := MikeHoleWeight[s.holeIdx];
      streak := CountBadStreak(s.mikeShots);
      strokes := s.mikeStrokes;
    }

    var bonus := 35 * w;
    if day2Bias {
      bonus := bonus + 250;
    }
    if safeBall {
      bonus := bonus + 200;
    }
    bonus := bonus + (if strokes > 0 then 50 else -50);

    var risk := 150 * Min(streak, BadStreakThreshold);
    if !safeBall {
      risk := risk + 200;
    }
    ev := bonus - risk;
  }

  // ---------------------------------------------------------------------
  // The decision procedure
  // ---------------------------------------------------------------------

  /** The phase of the hole, keyed on how many shots each player logged. */
  datatype Phase =
    | PreTee      // nobody has hit yet
    | OneTeeShot  // exactly one shot in total
    | BothTeed    // exactly one shot each
    | Approach    // everything after that

  function PhaseOf(mattCount: nat, mikeCount: nat): Phase {
    if mattCount == 0 && mikeCount == 0 then PreTee
    else if mattCount + mikeCount == 1 then OneTeeShot
    else if mattCount == 1 && mikeCount == 1 then BothTeed
    else Approach
  }

  /** The explanation trail, one entry per rule that fired. */
  datatype Rule =
    | BadStreakWarning(who: Player, streak: nat)  // this player should not attack
    | TeeOrder(first: Player)                     // strokes/comfort decide who tees first
    | TeeShotSafe(who: Player)                    // the only tee shot so far is safe
    | TeeShotInTrouble(who: Player)               // ... is in trouble
    | TeeShotAverage(who: Player)                 // ... is average
    | AttackDowngraded(who: Player)               // bad streak or EV <= 0 after the tee
    | SafeTeeBall                                 // at least one of two tee balls is safe
    | BothTeeBallsInTrouble
    | MixedTeeOutcomes                            // attacker chosen by grades and hole strength
    | OnlySafe(safe: Player)                      // this player is safe, the partner is not
    | ApproachDowngraded(who: Player)             // bad streak or EV <= 0 on the approach
    | BothSafe
    | NoOneSafe                                   // damage-control bias

  /** The recommendations the engine can give. A player argument names the
      player the text is about: the one teeing first, the one whose only
      tee shot is graded, the attacker, the better lie, or the safe one. */
  datatype Recommendation =
    | TeesFirst(first: Player)                 // partner adjusts to the result
    | SafeThenControlled(first: Player)        // partner: controlled target, no hero shots
    | SafeThenAttack(first: Player)            // partner: ATTACK for a birdie look
    | TroubleThenAnchor(first: Player)         // partner: ANCHOR
    | AverageThenConservative(first: Player)   // partner: conservative line
    | AverageThenMediumRisk(first: Player)     // partner: medium-risk line
    | TeamSafeControlled(attacker: Player)     // attacker: controlled target
    | TeamSafeAttack(attacker: Player)         // attacker: ATTACK
    | BothInTrouble(betterLie: Player)         // play from the better lie, protect bogey
    | MixedAvoidRisk(attacker: Player)         // favor attacker's lie, no high-risk lines
    | MixedInsideFifteen(attacker: Player)     // attacker aims for inside 15 ft
    | OneSafeControlled(safe: Player)          // partner: center green / damage control
    | OneSafeAttack(safe: Player)              // partner: ATTACK
    | BothSafeControlled                       // both play controlled lines
    | BothSafeFlagHunt                         // one hunts the flag, the other locks in par
    | NeitherSafe                              // advance to comfortable yardage

  /** The recommendations whose text calls for an ATTACK. */
  predicate IsAttackCall(r: Recommendation) {
    r.SafeThenAttack? || r.TeamSafeAttack? || r.OneSafeAttack?
  }

  /** The recommendations that send the attacker at the flag rather than at
      a controlled target: the branches taken when no downgrade fires. */
  predicate IsAggressive(r: Recommendation) {
    IsAttackCall(r) || r.AverageThenMediumRisk? || r.MixedInsideFifteen? || r.BothSafeFlagHunt?
  }

  datatype Advice = Advice(text: Recommendation, rules: seq<Rule>, ev: int, attacker: Option<Player>)

  /** The day-2 bonus applies when day-2 mode is on and the current hole is
      one the players want to improve. */
  predicate Day2Bias(s: HoleState, day2: bool, improveList: seq<int>) {
    day2 && s.Hole() in improveList
  }

  /** Bad-streak warnings, evaluated before any phase: Matt's, then Mike's. */
  function Warnings(s: HoleState): seq<Rule> {
    var m := BadStreak(s.mattShots);
    var k := BadStreak(s.mikeShots);
    (if m >= BadStreakThreshold then [BadStreakWarning(Matt, m)] else [])
    + (if k >= BadStreakThreshold then [BadStreakWarning(Mike, k)] else [])
  }

  /** Matt tees first when he has strictly more strokes or a strictly higher
      weight on this hole; otherwise Mike does. */
  function TeeFirst(s: HoleState): Player
    requires s.Valid()
  {
    if s.mattStrokes > s.mikeStrokes || s.HoleWeight(Matt) > s.HoleWeight(Mike) then Matt else Mike
  }

  function PreTeeAdvice(s: HoleState): Advice
    requires s.Valid()
  {
    var first := TeeFirst(s);
    Advice(TeesFirst(first), [TeeOrder(first)], 0, None)
  }

  /** One shot in total: the partner of whoever hit reacts to its grade. */
  function OneTeeShotAdvice(s: HoleState, bias: bool): Advice
    requires s.Valid() && |s.mattShots| + |s.mikeShots| == 1
  {
    var first := if |s.mattShots| > 0 then Matt else Mike;
    var grade := s.Shots(first)[0];
    var other := first.Other();
    if IsSafe(grade) then
      var ev := AttackerEv(s, other, true, bias);
      if BadStreak(s.Shots(other)) >= BadStreakThreshold || ev <= 0 then
        Advice(SafeThenControlled(first), [TeeShotSafe(first), AttackDowngraded(other)], ev, Some(other))
      else
        Advice(SafeThenAttack(first), [TeeShotSafe(first)], ev, Some(other))
    else if IsBad(grade) then
      Advice(TroubleThenAnchor(first), [TeeShotInTrouble(first)], 0, None)
    else
      var ev := AttackerEv(s, other, false, bias);
      if ev <= 0 then Advice(AverageThenConservative(first), [TeeShotAverage(first)], ev, Some(other))
      else Advice(AverageThenMediumRisk(first), [TeeShotAverage(first)], ev, Some(other))
  }

  /** One tee shot each. */
  function BothTeedAdvice(s: HoleState, bias: bool): Advice
    requires s.Valid() && |s.mattShots| == 1 && |s.mikeShots| == 1
  {
    var m1 := s.mattShots[0];
    var k1 := s.mikeShots[0];
    if IsSafe(m1) || IsSafe(k1) then
      var attacker := ChooseAttackerCandidate(s, Some(m1), Some(k1));
      var ev := AttackerEv(s, attacker, true, bias);
      if BadStreak(s.Shots(attacker)) >= BadStreakThreshold || ev <= 0 then
        Advice(TeamSafeControlled(attacker), [SafeTeeBall, AttackDowngraded(attacker)], ev, Some(attacker))
      else
        Advice(TeamSafeAttack(attacker), [SafeTeeBall], ev, Some(attacker))
    else if IsBad(m1) && IsBad(k1) then
      Advice(BothInTrouble(if m1 >= k1 then Matt else Mike), [BothTeeBallsInTrouble], 0, None)
    else
      var attacker := ChooseAttackerCandidate(s, Some(m1), Some(k1));
      var ev := AttackerEv(s, attacker, false, bias);
      if ev <= 0 then Advice(MixedAvoidRisk(attacker), [MixedTeeOutcomes], ev, Some(attacker))
      else Advice(MixedInsideFifteen(attacker), [MixedTeeOutcomes], ev, Some(attacker))
  }

  /** Approach shots and beyond, decided on each player's latest grade. */
  function ApproachAdvice(s: HoleState, bias: bool): Advice
    requires s.Valid()
  {
    var mLast := OrZero(Last(s.mattShots));
    var kLast := OrZero(Last(s.mikeShots));
    if IsSafe(mLast) != IsSafe(kLast) then
      var safe := if IsSafe(mLast) then Matt else Mike;
      var other := safe.Other();
      var ev := AttackerEv(s, other, true, bias);
      if BadStreak(s.Shots(other)) >= BadStreakThreshold || ev <= 0 then
        Advice(OneSafeControlled(safe), [OnlySafe(safe), ApproachDowngraded(other)], ev, Some(other))
      else
        Advice(OneSafeAttack(safe), [OnlySafe(safe)], ev, Some(other))
    else if IsSafe(mLast) then
      var attacker := ChooseAttackerCandidate(s, Some(mLast), Some(kLast));
      var ev := AttackerEv(s, attacker, true, bias);
      if ev <= 0 then Advice(BothSafeControlled, [BothSafe], ev, Some(attacker))
      else Advice(BothSafeFlagHunt, [BothSafe], ev, Some(attacker))
    else
      Advice(NeitherSafe, [NoOneSafe], 0, None)
  }

  function PhaseAdvice(s: HoleState, bias: bool): Advice
    requires s.Valid()
  {
    match PhaseOf(|s.mattShots|, |s.mikeShots|)
    case PreTee => PreTeeAdvice(s)
    case OneTeeShot => OneTeeShotAdvice(s, bias)
    case BothTeed => BothTeedAdvice(s, bias)
    case Approach => ApproachAdvice(s, bias)
  }

  /** `a` with `rules` in front of its rule trail. */
  function AfterRules(rules: seq<Rule>, a: Advice): Advice {
    a.(rules := rules + a.rules)
  }

  /** The engine's answer: the phase's advice, with the bad-streak warnings
      in front of its rule trail. */
  function Advise(s: HoleState, day2: bool, improveList: seq<int>): Advice
    requires s.Valid()
  {
    AfterRules(Warnings(s), PhaseAdvice(s, Day2Bias(s, day2, improveList)))
  }

  /** The decision procedure as the source runs it: warnings first, then
      tests on the log lengths, appending to the rule trail as each rule
      fires and returning from the first branch that decides. */
  method RoleAdviceAndRules(s: HoleState, day2: bool, improveList: seq<int>)
    returns (advice: Advice)
    requires s.Valid()
    ensures advice == Advise(s, day2, improveList)
  {
    var rules: seq<Rule> := [];
    var mattBadRun := CountBadStreak(s.mattShots);
    var mikeBadRun := CountBadStreak(s.mikeShots);
    if mattBadRun >= BadStreakThreshold {
      rules := rules + [BadStreakWarning(Matt, mattBadRun)];
    }
    if mikeBadRun >= BadStreakThreshold {
      rules := rules + [BadStreakWarning(Mike, mikeBadRun)];
    }
    assert rules == Warnings(s);

    if |s.mattShots| == 0 && |s.mikeShots| == 0 {
      var mattPref := s.mattStrokes > s.mikeStrokes || MattHoleWeight[s.holeIdx] > MikeHoleWeight[s.holeIdx];
      var whoFirst := if mattPref then Matt else Mike;
      rules := rules + [TeeOrder(whoFirst)];
      return Advice(TeesFirst(whoFirst), rules, 0, None);
    }

    var bias := day2 && s.Hole() in improveList;
    if |s.mattShots| + |s.mikeShots| == 1 {
      advice := AfterOneTeeShot(s, bias, rules);
    } else if |s.mattShots| == 1 && |s.mikeShots| == 1 {
      advice := AfterBothTeed(s, bias, rules);
    } else {
      advice := OnApproach(s, bias, rules);
    }
  }

  /** The branch for exactly one shot in total; `rules` is the trail so far. */
  method AfterOneTeeShot(s: HoleState, bias: bool, rules: seq<Rule>) returns (advice: Advice)
    requires s.Valid() && |s.mattShots| + |s.mikeShots| == 1
    ensures advice == AfterRules(rules, OneTeeShotAdvice(s, bias))
  {
    var firstWho := if |s.mattShots| > 0 then Matt else Mike;
    var firstRating := if |s.mattShots| > 0 then Last(s.mattShots).value else Last(s.mikeShots).value;
    var otherWho := if firstWho == Matt then Mike else Matt;
    var trail := rules;

    if firstRating >= SafeScore {
      trail := trail + [TeeShotSafe(firstWho)];
      var ev := ExpectedNetAdvantage(s, otherWho, true, bias);
      var otherBadRun := CountBadStreak(s.Shots(otherWho));
      if otherBadRun >= BadStreakThreshold || ev <= 0 {
        trail := trail + [AttackDowngraded(otherWho)];
        return Advice(SafeThenControlled(firstWho), trail, ev, Some(otherWho));
      }
      return Advice(SafeThenAttack(firstWho), trail, ev, Some(otherWho));
    }

    if firstRating <= BadScore {
      trail := trail + [TeeShotInTrouble(firstWho)];
      return Advice(TroubleThenAnchor(firstWho), trail, 0, None);
    }

    trail := trail + [TeeShotAverage(firstWho)];
    var ev := ExpectedNetAdvantage(s, otherWho, false, bias);
    if ev <= 0 {
      return Advice(AverageThenConservative(firstWho), trail, ev, Some(otherWho));
    }
    return Advice(AverageThenMediumRisk(firstWho), trail, ev, Some(otherWho));
  }

  /** The branch for one tee shot each; `rules` is the trail so far. */
  method AfterBothTeed(s: HoleState, bias: bool, rules: seq<Rule>) returns (advice: Advice)
    requires s.Valid() && |s.mattShots| == 1 && |s.mikeShots| == 1
    ensures advice == AfterRules(rules, BothTeedAdvice(s, bias))
  {
    var m1 := Last(s.mattShots);
    var k1 := Last(s.mikeShots);
    var trail := rules;
    var safeBalls := (if m1.Some? && m1.value >= SafeScore then 1 else 0)
                     + (if k1.Some? && k1.value >= SafeScore then 1 else 0);

    if safeBalls >= 1 {
      trail := trail + [SafeTeeBall];
      var attacker := ChooseAttackerCandidate(s, m1, k1);
      var ev := ExpectedNetAdvantage(s, attacker, true, bias);
      var partnerBadRun := CountBadStreak(s.Shots(attacker));
      if partnerBadRun >= BadStreakThreshold || ev <= 0 {
        trail := trail + [AttackDowngraded(attacker)];
        return Advice(TeamSafeControlled(attacker), trail, ev, Some(attacker));
      }
      return Advice(TeamSafeAttack(attacker), trail, ev, Some(attacker));
    }

    if OrZero(m1) <= BadScore && OrZero(k1) <= BadScore {
      var betterWho := if OrZero(m1) >= OrZero(k1) then Matt else Mike;
      trail := trail + [BothTeeBallsInTrouble];
      return Advice(BothInTrouble(betterWho), trail, 0, None);
    }

    var attacker := ChooseAttackerCandidate(s, m1, k1);
    var ev := ExpectedNetAdvantage(s, attacker, false, bias);
    trail := trail + [MixedTeeOutcomes];
    if ev <= 0 {
      return Advice(MixedAvoidRisk(attacker), trail, ev, Some(attacker));
    }
    return Advice(MixedInsideFifteen(attacker), trail, ev, Some(attacker));
  }

  /** The branch for approach shots and beyond; `rules` is the trail so far. */
  method OnApproach(s: HoleState, bias: bool, rules: seq<Rule>) returns (advice: Advice)
    requires s.Valid()
    ensures advice == AfterRules(rules, ApproachAdvice(s, bias))
  {
    var mLast := OrZero(Last(s.mattShots));
    var kLast := OrZero(Last(s.mikeShots));
    var mattSafe := mLast >= SafeScore;
    var mikeSafe := kLast >= SafeScore;
    var trail := rules;

    if mattSafe && !mikeSafe {
      trail := trail + [OnlySafe(Matt)];
      var ev := ExpectedNetAdvantage(s, Mike, true, bias);
      var mikeRun := CountBadStreak(s.mikeShots);
      if mikeRun >= BadStreakThreshold || ev <= 0 {
        trail := trail + [ApproachDowngraded(Mike)];
        return Advice(OneSafeControlled(Matt), trail, ev, Some(Mike));
      }
      return Advice(OneSafeAttack(Matt), trail, ev, Some(Mike));
    }

    if mikeSafe && !mattSafe {
      trail := trail + [OnlySafe(Mike)];
      var ev := ExpectedNetAdvantage(s, Matt, true, bias);
      var mattRun := CountBadStreak(s.mattShots);
      if mattRun >= BadStreakThreshold || ev <= 0 {
        trail := trail + [ApproachDowngraded(Matt)];
        return Advice(OneSafeControlled(Mike), trail, ev, Some(Matt));
      }
      return Advice(OneSafeAttack(Mike), trail, ev, Some(Matt));
    }

    if mikeSafe && mattSafe {
      trail := trail + [BothSafe];
      var attacker := ChooseAttackerCandidate(s, Some(mLast), Some(kLast));
      var ev := ExpectedNetAdvantage(s, attacker, true, bias);
      if ev <= 0 {
        return Advice(BothSafeControlled, trail, ev, Some(attacker));
      }
      return Advice(BothSafeFlagHunt, trail, ev, Some(attacker));
    }

    trail := trail + [NoOneSafe];
    return Advice(NeitherSafe, trail, 0, None);
  }
}
