/// Reading a player's shot log for the current hole: the most recent grade,
/// and the run of trouble shots at the end of the log.
module Streak {
  import opened Optional
  import opened Grades

  /** The most recent grade, or none for an empty log. */
  function Last(shots: seq<int>): (g: Option<int>)
    ensures g.None? <==> shots == []
    ensures g.Some? ==> g.value == shots[|shots| - 1]
  {
    if shots == [] then None else Some(shots[|shots| - 1])
  }

  /** Python's `x or 0` on an optional grade: a missing grade counts as 0. */
  function OrZero(g: Option<int>): int {
    g.GetOr(0)
  }

  /** Every grade of `shots` from position `start` on is a trouble grade. */
  predicate TroubleFrom(shots: seq<int>, start: int) {
    forall j :: 0 <= j < |shots| && start <= j ==> IsBad(shots[j])
  }

  /** The number of trouble shots in a row at the end of the log, counted
      from the most recent shot backwards. */
  function BadStreak(shots: seq<int>): (n: nat)
    ensures n <= |shots|
  {
    if shots == [] || !IsBad(shots[|shots| - 1]) then 0
    else BadStreak(shots[..|shots| - 1]) + 1
  }

  /** The last `BadStreak(shots)` grades are all trouble, and the grade
      just before them, if any, is not. */
  lemma {:induction false} BadStreakBounds(shots: seq<int>)
    ensures TroubleFrom(shots, |shots| - BadStreak(shots))
    ensures BadStreak(shots) < |shots| ==> !IsBad(shots[|shots| - 1 - BadStreak(shots)])
  {
    if shots != [] && IsBad(shots[|shots| - 1]) {
      var init := shots[..|shots| - 1];
      BadStreakBounds(init);
      var n := BadStreak(init);
      forall j | |shots| - (n + 1) <= j < |shots|
        ensures IsBad(shots[j])
      {
        if j < |init| {
          assert shots[j] == init[j];
        }
      }
      if n < |init| {
        assert shots[|shots| - 1 - (n + 1)] == init[|init| - 1 - n];
      }
    }
  }

  /** The bad streak is the length of the longest all-trouble suffix: the
      last `k` grades are all trouble exactly when `k` is at most the
      streak. */
  lemma BadStreakIsLongestBadSuffix(shots: seq<int>, k: nat)
    requires k <= |shots|
    ensures TroubleFrom(shots, |shots| - k) <==> k <= BadStreak(shots)
  {
    BadStreakBounds(shots);
    var n := BadStreak(shots);
    if k > n {
      assert !IsBad(shots[|shots| - 1 - n]);
    }
  }

  /** A log ending in a grade that is not trouble has no bad streak. */
  lemma BadStreakAfterGoodShot(shots: seq<int>)
    requires shots != [] && !IsBad(shots[|shots| - 1])
    ensures BadStreak(shots) == 0
  {
  }

  /** Appending a trouble grade extends the streak by one; appending any
      other grade ends it. */
  lemma BadStreakAppend(shots: seq<int>, g: int)
    ensures BadStreak(shots + [g]) == if IsBad(g) then BadStreak(shots) + 1 else 0
  {
    assert (shots + [g])[..|shots|] == shots;
  }

  /** The scan of the source: walk the log from the most recent shot
      backwards, counting trouble grades, and stop at the first other grade. */
  method CountBadStreak(shots: seq<int>) returns (s: nat)
    ensures s == BadStreak(shots)
  {
    s := 0;
    var i := |shots|;
    assert shots[..i] == shots;
    while i > 0
      invariant 0 <= i <= |shots|
      invariant s == |shots| - i
      invariant BadStreak(shots) == s + BadStreak(shots[..i])
    {
      if IsBad(shots[i - 1]) {
        assert shots[..i][..i - 1] == shots[..i - 1];
        s := s + 1;
        i := i - 1;
      } else {
        break;
      }
    }
  }
}
