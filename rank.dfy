/**
 * The rank shown on the end screen (script.js lines 201-211). Scores of 450
 * and above get a fixed rank from 1 to 5; lower scores get a random rank
 * from 10 to 99. The random draw is the parameter `r`, a value in [0, 1) as
 * the browser's uniform generator returns.
 */
module Rank {

  /** The score below which the rank is drawn at random. */
  const RANKED_FLOOR: int := 450

  function Rank(points: int, r: real): (rank: int)
    requires 0.0 <= r < 1.0
    ensures points >= RANKED_FLOOR ==> 1 <= rank <= 5
    ensures points < RANKED_FLOOR ==> 10 <= rank <= 99
  {
    if points >= RANKED_FLOOR then
      if points >= 1000 then 1
      else if points >= 800 then 2
      else if points >= 650 then 3
      else if points >= 550 then 4
      else 5
    else
      (r * 90.0).Floor + 10
  }

  /** The score thresholds for ranks 1 to 4, best first. */
  const THRESHOLDS: seq<int> := [1000, 800, 650, 550]

  /** How many of the thresholds the score does not reach. */
  function Missed(points: int, ts: seq<int>): (n: nat)
    ensures n <= |ts|
  {
    if ts == [] then 0 else (if points < ts[0] then 1 else 0) + Missed(points, ts[1..])
  }

  /**
   * Reference reading of the ranked range: the rank is one plus the number
   * of thresholds the score falls short of, whatever the random draw.
   */
  lemma RankCountsMissedThresholds(points: int, r: real)
    requires 0.0 <= r < 1.0
    requires points >= RANKED_FLOOR
    ensures Rank(points, r) == 1 + Missed(points, THRESHOLDS)
  {
    var t := THRESHOLDS;
    assert t[1..] == [800, 650, 550] && t[1..][1..] == [650, 550];
    assert t[1..][1..][1..] == [550] && t[1..][1..][1..][1..] == [];
    assert Missed(points, [550]) == if points < 550 then 1 else 0;
    assert Missed(points, [650, 550]) == (if points < 650 then 1 else 0) + Missed(points, [550]);
    assert Missed(points, [800, 650, 550]) == (if points < 800 then 1 else 0) + Missed(points, [650, 550]);
  }

  /**
   * A better score never gets a numerically larger rank once the better one
   * is in the ranked range; in particular every ranked score beats every
   * randomly ranked one.
   */
  lemma RankMonotone(p: int, q: int, r1: real, r2: real)
    requires 0.0 <= r1 < 1.0 && 0.0 <= r2 < 1.0
    requires p <= q && q >= RANKED_FLOOR
    ensures Rank(q, r2) <= Rank(p, r1)
    ensures p < RANKED_FLOOR ==> Rank(q, r2) < Rank(p, r1)
  {
  }

  /** Every rank from 10 to 99 is drawn for some value of the generator. */
  lemma EveryLowRankReachable(points: int, k: int)
    requires points < RANKED_FLOOR && 10 <= k <= 99
    ensures var r := (k - 10) as real / 90.0; 0.0 <= r < 1.0 && Rank(points, r) == k
  {
    var r := (k - 10) as real / 90.0;
    assert r * 90.0 == (k - 10) as real;
  }
}
