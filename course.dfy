/// The course and the two players: the stroke index of each hole, each
/// player's per-hole comfort weight, and the handicap stroke allocation.
module Course {

  datatype Player = Matt | Mike {
    /** The partner of this player. */
    function Other(): (q: Player)
      ensures q != this
    {
      if this == Matt then Mike else Matt
    }
  }

  const Holes := 18

  /** Stroke index (difficulty rating) of holes 1..18, listed by 0-based hole
      index; rating 1 is the hardest hole. */
  const HoleHandicap: seq<int> := [15, 9, 7, 17, 1, 13, 5, 11, 3, 16, 10, 2, 18, 8, 14, 4, 6, 12]

  /** Per-hole comfort weights, in tenths: 8 stands for 0.8. Higher means the
      player is more at ease on that hole. */
  const MattHoleWeight: seq<int> := [8, 5, 5, 5, 2, 5, 5, 8, 2, 5, 5, 5, 5, 5, 5, 2, 8, 5]
  const MikeHoleWeight: seq<int> := [5, 5, 8, 5, 5, 5, 5, 5, 2, 8, 5, 2, 5, 2, 5, 5, 8, 5]

  /** The weight of player `p` on the hole with 0-based index `holeIdx`, in
      tenths. Every weight is 0.2, 0.5 or 0.8. */
  function Weight(p: Player, holeIdx: int): (w: int)
    requires 0 <= holeIdx < Holes
    ensures w == 2 || w == 5 || w == 8
  {
    if p == Matt then MattHoleWeight[holeIdx] else MikeHoleWeight[holeIdx]
  }

  function Max(a: int, b: int): int {
    if a >= b then a else b
  }

  /** Handicap strokes received on the hole with 0-based index `holeIdx`:
      one when the handicap reaches the hole's rating, and a second one when
      the handicap less 18 reaches it (the allocation restarts at the
      hardest hole). */
  function StrokesFor(hcp: int, holeIdx: int): (strokes: nat)
    requires 0 <= holeIdx < Holes
    ensures strokes <= 2
    ensures strokes >= 1 <==> HoleHandicap[holeIdx] <= hcp
    ensures strokes == 2 <==> HoleHandicap[holeIdx] <= hcp - 18
    ensures hcp <= 0 ==> strokes == 0
    ensures hcp >= 18 ==> strokes >= 1
  {
    var rating := HoleHandicap[holeIdx];
    var extras := Max(0, hcp - 18);
    (if hcp >= rating then 1 else 0) + (if extras > 0 && rating <= extras then 1 else 0)
  }

  /** A higher handicap never receives fewer strokes on a hole. */
  lemma StrokesForMonotone(h1: int, h2: int, holeIdx: int)
    requires 0 <= holeIdx < Holes
    requires h1 <= h2
    ensures StrokesFor(h1, holeIdx) <= StrokesFor(h2, holeIdx)
  {
  }

  /** `HoleRated[k]` is the index of the hole rated k + 1. It witnesses that
      the ratings are a permutation of 1..18. */
  const HoleRated: seq<int> := [4, 11, 8, 15, 6, 16, 2, 13, 1, 10, 7, 17, 5, 14, 0, 9, 3, 12]

  /** The ratings of the 18 holes are exactly 1..18, each once: the table
      `HoleRated` is a two-sided inverse of `HoleHandicap`. */
  lemma HoleHandicapIsPermutation()
    ensures |HoleHandicap| == Holes && |HoleRated| == Holes
    ensures forall i :: 0 <= i < Holes ==> 1 <= HoleHandicap[i] <= Holes && HoleRated[HoleHandicap[i] - 1] == i
    ensures forall k :: 0 <= k < Holes ==> 0 <= HoleRated[k] < Holes && HoleHandicap[HoleRated[k]] == k + 1
  {
  }

  /** Strokes received over the first `n` holes (by index). */
  function StrokesOver(hcp: int, n: nat): nat
    requires n <= Holes
  {
    if n == 0 then 0 else StrokesOver(hcp, n - 1) + StrokesFor(hcp, n - 1)
  }

  /** Strokes received over the whole round. */
  function RoundStrokes(hcp: int): nat {
    StrokesOver(hcp, Holes)
  }

  /** Raising a handicap `h` below 36 by one adds exactly one stroke, on the
      hole rated `h % 18 + 1`; above that nothing changes. */
  lemma StrokesForStep(h: int, holeIdx: int)
    requires 0 <= h && 0 <= holeIdx < Holes
    ensures StrokesFor(h + 1, holeIdx) ==
      StrokesFor(h, holeIdx) + (if h < 36 && HoleHandicap[holeIdx] == h % 18 + 1 then 1 else 0)
  {
  }

  lemma {:induction false} StrokesOverStep(h: int, n: nat)
    requires 0 <= h && n <= Holes
    ensures StrokesOver(h + 1, n) ==
      StrokesOver(h, n) + (if h < 36 && HoleRated[h % 18] < n then 1 else 0)
  {
    HoleHandicapIsPermutation();
    if n > 0 {
      StrokesOverStep(h, n - 1);
      StrokesForStep(h, n - 1);
    }
  }

  /** The standard allocation: a handicap of 0..36 receives exactly that many
      strokes over the 18 holes. Since a hole never gives more than two, a
      handicap above 36 receives 36. */
  lemma {:induction false} RoundStrokesIsHandicap(hcp: int)
    requires hcp >= 0
    ensures RoundStrokes(hcp) == if hcp <= 36 then hcp else 36
  {
    if hcp == 0 {
      ZeroHandicapNoStrokes(Holes);
    } else {
      RoundStrokesIsHandicap(hcp - 1);
      StrokesOverStep(hcp - 1, Holes);
      HoleHandicapIsPermutation();
    }
  }

  lemma {:induction false} ZeroHandicapNoStrokes(n: nat)
    requires n <= Holes
    ensures StrokesOver(0, n) == 0
  {
    if n > 0 {
      ZeroHandicapNoStrokes(n - 1);
    }
  }
}
