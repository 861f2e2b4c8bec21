# Better-ball caddie: a verified model of the advisory engine

The system is a live advisor for a two-player better-ball golf round (Matt
and Mike). After each shot a player's shot is graded A/B/C/D/F (scores
5..1) and appended to that player's log for the current hole. From the two
logs, each player's handicap strokes on the hole and a per-hole comfort
weight, the engine recommends who attacks and who anchors, which player
tees first, and why: it returns a recommendation, the ordered trail of the
rules that fired, an expected net advantage (EV) of attacking over
anchoring, and the chosen attacker (or none).

This project models that engine in Dafny:

- `Grades` (grades.dfy): the letter/score tables and the safe (>= 4) and
  trouble (<= 2) thresholds.
- `Course` (course.dfy): the stroke index of the 18 holes, the players'
  comfort weights (exact tenths: 0.2, 0.5, 0.8 become 2, 5, 8), and the
  stroke allocation `StrokesFor`, with the proof that the ratings are a
  permutation of 1..18 and that a round's strokes add up to the handicap.
- `Streak` (streak.dfy): the latest grade and the bad streak, as a
  specification function and as the backwards scan the source runs.
- `Engine` (engine.dfy): the attacker score (in hundredths), the EV
  heuristic (in thousandths) as a specification function and as the
  step-by-step method, the phase of the hole, and the decision procedure:
  the method `RoleAdviceAndRules` appends to the rule trail branch by
  branch as the source does and is proved equal to the phase-structured
  specification `Advise`.
- `EngineProperties` (engine_props.dfy): what the engine guarantees.
- `Session` (session.dfy): the per-hole shot logs as a class with
  `Append` and `Reset`, and the recommendation for the hole on screen.
- `Scenarios` (scenarios.dfy): worked holes.

The module globals the source reads (the two logs, the hole index, both
players' strokes) are fields of the `HoleState` value passed to the
engine; the day-2 flag and the list of holes to improve are parameters.
Hole weights are indexed by the 0-based hole index, while the day-2 test
uses the 1-based hole number (`HoleState.Hole`).

Behaviour of the engine that the model keeps as written:

- Every downgrade tests `ev <= 0` exactly, with no margin around zero.
- Matt tees first exactly when he has strictly more strokes or a strictly
  higher weight on the hole, so a full tie goes to Mike.
- The both-safe approach branch does not test the bad streak;
  `AggressiveExactlyWhenWarranted` shows it does not need to.
- `strokes_for` gives at most two strokes per hole, so a handicap above 36
  receives 36 strokes over the round (`RoundStrokesIsHandicap`), although
  handicaps up to 54 can be entered.
- `ShotLogs.Valid` (every logged score is a letter's score, 1..5) is kept
  by `Append` and `Reset`; `Snapshot` passes it on to the engine's view of
  the hole. No engine property depends on it: the engine is modelled for
  any logged integers.

## Model

| member | source | states |
|---|---|---|
| `Grades.GradeToScore` | app.py:11 | every letter scores 1..5; the score is safe exactly for A and B and trouble exactly for D and F |
| `Grades.ScoreToGrade` | app.py:12 | a letter exists exactly for the scores 1..5, and it maps back to that score |
| `Grades.ScoreToGradeInvertsGradeToScore` | app.py:11-12 | reading a letter's score back gives the same letter |
| `Grades.GradeToScoreInjective` | app.py:11-12 | distinct letters have distinct scores, so the two tables are inverse bijections |
| `Course.Weight` | app.py:55-62 | every per-hole weight of both players is 0.2, 0.5 or 0.8 |
| `Course.StrokesFor` | app.py:26-36 | strokes are 0, 1 or 2; at least one exactly when the handicap reaches the hole's rating, two exactly when the handicap less 18 reaches it; none for a handicap of 0 or less; at least one from 18 up |
| `Course.StrokesForMonotone` | app.py:26-36 | a higher handicap never receives fewer strokes on a hole |
| `Course.HoleHandicapIsPermutation` | app.py:7 | the 18 ratings are 1..18, each exactly once (an explicit two-sided inverse) |
| `Course.StrokesForStep` | app.py:26-36 | raising a handicap h below 36 by one adds a stroke exactly on the hole rated h mod 18 + 1 |
| `Course.StrokesOverStep` | app.py:26-36 | over the first n holes, raising a handicap h by one adds a stroke exactly when h is below 36 and the hole rated h mod 18 + 1 is among them |
| `Course.RoundStrokesIsHandicap` | app.py:26-36 | standard allocation: over 18 holes a handicap of 0..36 receives exactly that many strokes, and a higher one 36 |
| `Streak.Last` | app.py:38-39 | the latest grade, none exactly for an empty log |
| `Streak.BadStreak` | app.py:41-49 | the trailing count of trouble grades never exceeds the log length |
| `Streak.BadStreakBounds` | app.py:41-49 | the last BadStreak grades are all trouble and the grade before them is not |
| `Streak.BadStreakIsLongestBadSuffix` | app.py:41-49 | a suffix is all trouble exactly when it is no longer than the bad streak |
| `Streak.BadStreakAfterGoodShot` | app.py:41-49 | a log ending in a grade of 3 or more has no bad streak |
| `Streak.BadStreakAppend` | app.py:41-49 | appending a trouble grade extends the streak by one; any other grade resets it to 0 |
| `Streak.CountBadStreak` | app.py:41-49 | the backwards scan with its early stop returns the bad streak |
| `Engine.ChooseAttackerCandidate` | app.py:145-154 | with scores in hundredths of 100·last grade (0 when none) + 6·weight − 40·bad streak, Matt is chosen only when his score is at least Mike's and Mike only when his is strictly higher |
| `Engine.Ev` | app.py:156-182 | the EV in thousandths (0.35·weight, +0.25 day 2, +0.20 safe ball, ±0.05 stroke, −0.15 per streak shot up to three, −0.20 without a safe ball) lies within −0.70 and +0.50 of 0.35·weight; a safe ball and no streak make it positive, a streak of three and no safe ball make it negative |
| `Engine.ExpectedNetAdvantage` | app.py:156-182 | the step-by-step bonus and risk computation returns the attacker's EV |
| `Engine.RoleAdviceAndRules` | app.py:184-314 | the decision procedure returns exactly the phase-structured advice `Advise` |
| `Engine.AfterOneTeeShot` | app.py:206-236 | the one-shot branch returns that phase's advice after the rules so far |
| `Engine.AfterBothTeed` | app.py:238-273 | the one-shot-each branch returns that phase's advice after the rules so far |
| `Engine.OnApproach` | app.py:275-314 | the approach branch returns that phase's advice after the rules so far |
| `EngineProperties.EvSafeBallBonus` | app.py:173-180 | a safe ball behind the attacker adds exactly 0.40 to the EV |
| `EngineProperties.EvDay2Bonus` | app.py:171-172 | a day-2 target hole adds exactly 0.25 |
| `EngineProperties.EvStrokeBonus` | app.py:176 | holding a stroke adds exactly 0.10 over holding none |
| `EngineProperties.EvStreakMonotone` | app.py:178 | a longer bad streak never raises the EV, and beyond three it changes nothing |
| `EngineProperties.EvClearOfZero` | app.py:170-182 | with the course weights the exact EV is never within 0.02 of zero |
| `EngineProperties.RoundingKeepsDecision` | app.py:182 | rounding the EV to hundredths, with any tie rule, never changes the outcome of `ev <= 0` |
| `EngineProperties.ChooseAttackerIsGradeThenWeight` | app.py:145-154 | where the engine asks for a candidate, the scored choice is: better last grade, then higher weight, then Matt on a full tie |
| `EngineProperties.ChooseAttackerFavoursBetterGrade` | app.py:145-154 | raising a player's last grade never takes the candidacy away from that player |
| `EngineProperties.StreakOfLatest` | app.py:41-49 | a safe latest grade means no streak; a one-shot log has a streak of one exactly when the shot is trouble |
| `EngineProperties.PhaseOfCharacterized` | app.py:198-275 | every pair of log lengths is in exactly one phase: none, one in total, one each, or the approach |
| `EngineProperties.PhaseRulesHaveNoWarnings` | app.py:197-314 | no phase adds a bad-streak warning of its own |
| `EngineProperties.WarningsComeFirst` | app.py:190-195 | the bad-streak warnings lead the rule trail, Matt's before Mike's, one per streak of three or more, and no other rule is a warning |
| `EngineProperties.PreTeeOutcome` | app.py:197-204 | before the tee shots: no attacker, EV 0, and Matt tees first exactly when he has strictly more strokes or a strictly higher weight |
| `EngineProperties.NoAttackerNoEv` | app.py:184-314 | whenever no attacker is named the EV is 0 |
| `EngineProperties.AdviceEvIsAttackersEv` | app.py:184-314 | the reported EV is the named attacker's own EV, with the safe-ball and day-2 inputs of the branch taken |
| `EngineProperties.AggressiveExactlyWhenWarranted` | app.py:217-310 | the attacker is sent at the flag exactly when there is one, the EV is positive and the attacker's bad streak is below three |
| `EngineProperties.AttackCallIsSound` | app.py:217-299 | every ATTACK text comes with a positive EV and an attacker whose streak is below three |
| `EngineProperties.OneTeeShotAttacker` | app.py:206-236 | after a single tee shot that is not in trouble, the attacker is the player who has not hit |
| `EngineProperties.ApproachAttacker` | app.py:282-300 | on the approach with exactly one safe latest ball, the attacker is the other player |
| `Session.ShotLogs.constructor` | app.py:104-105 | every hole starts with empty logs |
| `Session.ShotLogs.Append` | app.py:127-140 | a grade appends its score to that player's log for that hole, leaves every other log unchanged, keeps all logged scores in 1..5, and extends or resets the bad streak |
| `Session.ShotLogs.Reset` | app.py:99-101 | both logs of the hole become empty and every other hole's logs are unchanged |
| `Session.ShotLogs.Snapshot` | app.py:103-112 | the engine's view of a hole: its 0-based index and that hole's two logs, which hold only letter scores while the logs are valid |
| `Session.ShotLogs.Recommend` | app.py:323 | the live recommendation is the engine's advice for the hole's snapshot |
| `Scenarios.HardestHoleMattTeesFirst` | app.py:197-204 | on hole 5 a 19 handicap gets two strokes and a 13 handicap one, so Matt tees first |
| `Scenarios.SafeTeeShotFreesPartner` | app.py:213-223 | with handicaps 19 and 13 (one stroke each on hole 2), after Matt's perfect tee shot Mike is told to attack with exact EV 0.425 |
| `Scenarios.BothPenaltiesPlayFromMattsLie` | app.py:258-263 | two tee balls graded F: no attacker, EV 0, play from Matt's lie |
| `Scenarios.StreakDowngradesAttack` | app.py:190-195 | Mike's three trouble shots put his warning first and downgrade his attack on the approach |

## Left out

- The Streamlit interface: page set-up, sidebar controls, buttons, sliders,
  CSS, rendering of the recommendation and of the explanation, hole
  navigation and reruns. It is input and presentation with no decisions.
- The session store itself: the model keeps two maps from hole number to
  log, with `Append` and `Reset`; the framework's keyed state and rerun
  semantics are not modelled.
- Floating point: weights, scores and EVs are exact integers (tenths,
  hundredths, thousandths). The EV the engine reports is the exact value,
  not Python's `round(x, 2)` of a binary float; `RoundingKeepsDecision`
  shows the rounding cannot change any decision.
- `Engine.ChooseAttackerCandidate` compares exact scores; two different
  float computations of the same exact score could compare differently.
  `ChooseAttackerIsGradeThenWeight` shows that at every place the engine
  calls it the choice is decided by the grades and then the weights: the
  exact scores then differ by at least 0.18 or are computed from identical
  inputs, so the float comparison agrees.
- Message wording: the recommendation texts and rule strings are modelled
  as enumerated outcomes carrying the players they name, not as strings.
- `net_targets_text` (par and strokes caption) and the `PAR` table: string
  formatting with no logic.
- Input validation at the boundary (handicap 0..54, hole 1..18, grades from
  the buttons) belongs to the interface; the engine model requires only a
  valid hole index.
