/** The five score bands shared by `getLevelColor` (PredictionDashboard.tsx)
    and `getBarColor` (SubjectBreakdown.tsx): inclusive lower bounds 90, 80,
    70 and 60, band 0 being the best. */
module Bands {

  function Band(score: real): (k: nat)
    ensures k <= 4
    ensures k == 0 <==> score >= 90.0
    ensures k == 1 <==> 80.0 <= score < 90.0
    ensures k == 2 <==> 70.0 <= score < 80.0
    ensures k == 3 <==> 60.0 <= score < 70.0
    ensures k == 4 <==> score < 60.0
  {
    if score >= 90.0 then 0
    else if score >= 80.0 then 1
    else if score >= 70.0 then 2
    else if score >= 60.0 then 3
    else 4
  }

  /** A higher score never falls in a worse band. */
  lemma BandMonotone(a: real, b: real)
    requires a <= b
    ensures Band(b) <= Band(a)
  {
  }

  /** The bounds are inclusive: 90 is in the top band and 89.99 is not. */
  lemma BandBoundaries()
    ensures Band(90.0) == 0 && Band(89.99) == 1
    ensures Band(60.0) == 3 && Band(59.99) == 4
  {
  }
}
