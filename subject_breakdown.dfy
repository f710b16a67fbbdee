/** The per-subject score bars (components/SubjectBreakdown.tsx). */
module SubjectBars {
  import opened Types
  import opened Bands

  /** The Tailwind colour classes of `getBarColor`, best first. */
  datatype BarColor = Green | Sky | Yellow | Orange | Red

  const Palette: seq<BarColor> := [Green, Sky, Yellow, Orange, Red]

  /** `getBarColor`: the colour of the score's band. */
  function BarColorOf(score: real): (c: BarColor)
    ensures c == Palette[Band(score)]
  {
    if score >= 90.0 then Green
    else if score >= 80.0 then Sky
    else if score >= 70.0 then Yellow
    else if score >= 60.0 then Orange
    else Red
  }

  /** Position of a colour in the palette. */
  function Rank(c: BarColor): nat {
    match c
    case Green => 0
    case Sky => 1
    case Yellow => 2
    case Orange => 3
    case Red => 4
  }

  /** A higher score never gets a worse colour, and 90, 80, 70 and 60 are
      inclusive lower bounds. */
  lemma BarColorMonotone(a: real, b: real)
    requires a <= b
    ensures Rank(BarColorOf(b)) <= Rank(BarColorOf(a))
  {
    BandMonotone(a, b);
  }

  lemma BarColorBoundaries()
    ensures BarColorOf(90.0) == Green && BarColorOf(89.99) == Sky
    ensures BarColorOf(80.0) == Sky && BarColorOf(79.99) == Yellow
    ensures BarColorOf(70.0) == Yellow && BarColorOf(69.99) == Orange
    ensures BarColorOf(60.0) == Orange && BarColorOf(59.99) == Red
  {
  }

  /** One row: the subject's label, its score (also the bar's width in
      percent) and the bar colour. */
  datatype Row = Row(subject: string, score: real, color: BarColor)

  /** `subjects.map(...)`: one row per subject, in input order. */
  function Rows(subjects: seq<Subject>): (rows: seq<Row>)
    ensures |rows| == |subjects|
    ensures forall i :: 0 <= i < |subjects| ==>
      rows[i] == Row(subjects[i].subject, subjects[i].score, Palette[Band(subjects[i].score)])
  {
    seq(|subjects|, i requires 0 <= i < |subjects| =>
      Row(subjects[i].subject, subjects[i].score, BarColorOf(subjects[i].score)))
  }
}
