/** The rank shown at the end of the game, by final net worth. */
module Ranking {

  /** The eight tiers, from the lowest to the highest. */
  datatype Rank = Bankrupt | Survivor | Worker | Manager | Rich | Millionaire | Tycoon | Legend {
    /** The tier's position, 0 for bankrupt up to 7 for legend. */
    function Tier(): (t: nat)
      ensures t <= 7
    {
      match this
      case Bankrupt => 0
      case Survivor => 1
      case Worker => 2
      case Manager => 3
      case Rich => 4
      case Millionaire => 5
      case Tycoon => 6
      case Legend => 7
    }
  }

  /** The lower bounds of the tiers above bankrupt, in increasing order. */
  const THRESHOLDS: seq<real> := [0.0, 50000.0, 200000.0, 500000.0, 1000000.0, 5000000.0, 20000000.0]

  /** The first tier whose upper bound the net worth stays below; legend otherwise. */
  function GetRank(netWorth: real): Rank
  {
    if netWorth < 0.0 then Bankrupt
    else if netWorth < 50000.0 then Survivor
    else if netWorth < 200000.0 then Worker
    else if netWorth < 500000.0 then Manager
    else if netWorth < 1000000.0 then Rich
    else if netWorth < 5000000.0 then Millionaire
    else if netWorth < 20000000.0 then Tycoon
    else Legend
  }

  /** How many of the bounds the net worth reaches. */
  function Reached(bounds: seq<real>, netWorth: real): (n: nat)
    ensures n <= |bounds|
  {
    if bounds == [] then 0
    else (if netWorth >= bounds[0] then 1 else 0) + Reached(bounds[1..], netWorth)
  }

  /** The tier is the number of thresholds the net worth reaches. */
  lemma TierCountsThresholds(netWorth: real)
    ensures GetRank(netWorth).Tier() == Reached(THRESHOLDS, netWorth)
  {
    var x := netWorth;
    assert Reached([20000000.0], x) == if x >= 20000000.0 then 1 else 0;
    assert Reached([5000000.0, 20000000.0], x) == (if x >= 5000000.0 then 1 else 0) + Reached([20000000.0], x);
    assert Reached([1000000.0, 5000000.0, 20000000.0], x)
        == (if x >= 1000000.0 then 1 else 0) + Reached([5000000.0, 20000000.0], x);
    assert Reached([500000.0, 1000000.0, 5000000.0, 20000000.0], x)
        == (if x >= 500000.0 then 1 else 0) + Reached([1000000.0, 5000000.0, 20000000.0], x);
    assert Reached([200000.0, 500000.0, 1000000.0, 5000000.0, 20000000.0], x)
        == (if x >= 200000.0 then 1 else 0) + Reached([500000.0, 1000000.0, 5000000.0, 20000000.0], x);
    assert Reached(THRESHOLDS[1..], x)
        == (if x >= 50000.0 then 1 else 0) + Reached([200000.0, 500000.0, 1000000.0, 5000000.0, 20000000.0], x);
  }

  /** Reaching more of the bounds needs at least as much net worth. */
  lemma {:induction false} ReachedMonotone(bounds: seq<real>, a: real, b: real)
    requires a <= b
    ensures Reached(bounds, a) <= Reached(bounds, b)
  {
    if bounds != [] {
      ReachedMonotone(bounds[1..], a, b);
    }
  }

  /** A larger net worth never gives a lower tier. */
  lemma RankMonotone(a: real, b: real)
    requires a <= b
    ensures GetRank(a).Tier() <= GetRank(b).Tier()
  {
    TierCountsThresholds(a);
    TierCountsThresholds(b);
    ReachedMonotone(THRESHOLDS, a, b);
  }

  /** The bankrupt tier is exactly the negative net worths. */
  lemma BankruptIffNegative(netWorth: real)
    ensures GetRank(netWorth) == Bankrupt <==> netWorth < 0.0
  {
  }
}
