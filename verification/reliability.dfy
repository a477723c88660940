/** The service-reliability indicator shown on each alert card. */
module Reliability {

  /** The five indicator levels, worst first. */
  datatype Level = VeryPoor | Poor | Fair | Good | Excellent

  /** Position of a level from worst (0) to best (4). */
  function Rank(l: Level): nat {
    match l
    case VeryPoor => 0
    case Poor => 1
    case Fair => 2
    case Good => 3
    case Excellent => 4
  }

  /** The percentage thresholds a level needs, ascending. */
  const Thresholds: seq<int> := [40, 60, 75, 90]

  /** How many of `ts` the percentage reaches. */
  function Reached(ts: seq<int>, percentage: int): (n: nat)
    ensures n <= |ts|
    decreases |ts|
  {
    if |ts| == 0 then 0
    else (if percentage >= ts[0] then 1 else 0) + Reached(ts[1..], percentage)
  }

  /** The threshold chain of `getServiceReliabilityIndicator`, before
      translation. */
  function ReliabilityIndicator(percentage: int): (l: Level)
    ensures Rank(l) == Reached(Thresholds, percentage)
  {
    if percentage >= 90 then Excellent
    else if percentage >= 75 then Good
    else if percentage >= 60 then Fair
    else if percentage >= 40 then Poor
    else VeryPoor
  }

  /** A higher percentage never gets a worse indicator. */
  lemma {:induction false} ReachedMonotonic(ts: seq<int>, p: int, q: int)
    requires p <= q
    ensures Reached(ts, p) <= Reached(ts, q)
    decreases |ts|
  {
    if |ts| > 0 {
      ReachedMonotonic(ts[1..], p, q);
    }
  }

  lemma IndicatorMonotonic(p: int, q: int)
    requires p <= q
    ensures Rank(ReliabilityIndicator(p)) <= Rank(ReliabilityIndicator(q))
  {
    ReachedMonotonic(Thresholds, p, q);
  }

  /** The extremes: 90 and above is excellent, below 40 very poor. */
  lemma IndicatorExtremes(p: int)
    ensures ReliabilityIndicator(p) == Excellent <==> p >= 90
    ensures ReliabilityIndicator(p) == VeryPoor <==> p < 40
  {
  }
}
