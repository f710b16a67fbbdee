/** The prediction history panel (components/HistoricalTrends.tsx): the
    table of recent entries, the chart series and when the analyse button
    and the "Showing last 5 entries." note appear. */
module HistoricalTrends {
  import opened Wrappers
  import opened Types

  /** How many entries the table shows at most (`slice(-5)`). */
  const TableSize: nat := 5

  /** `s.reverse()` on a copy: the element at position `i` is the one at
      mirror position `|s| - 1 - i`. */
  function Reversed<T>(s: seq<T>): (r: seq<T>)
    ensures |r| == |s|
    ensures forall i :: 0 <= i < |s| ==> r[i] == s[|s| - 1 - i]
  {
    if s == [] then [] else [s[|s| - 1]] + Reversed(s[..|s| - 1])
  }

  /** Reversing twice gives the sequence back. */
  lemma ReversedTwice<T>(s: seq<T>)
    ensures Reversed(Reversed(s)) == s
  {
  }

  /** `data.slice(-5)`: the last five entries, or all of them when there are
      fewer. */
  function LastFive<T>(data: seq<T>): seq<T> {
    if |data| <= TableSize then data else data[|data| - TableSize..]
  }

  /** The rows of the table: `data.slice(-5).reverse()`. */
  function TableRows(data: seq<HistoricalEntry>): seq<HistoricalEntry> {
    Reversed(LastFive(data))
  }

  /** The table holds the min(5, n) most recent entries, newest first. */
  lemma TableNewestFirst(data: seq<HistoricalEntry>)
    ensures |TableRows(data)| == if |data| < TableSize then |data| else TableSize
    ensures forall i :: 0 <= i < |TableRows(data)| ==> TableRows(data)[i] == data[|data| - 1 - i]
  {
  }

  /** An entry just logged heads the table, and no row is lost to the table
      until more than five entries exist. */
  lemma LoggedEntryLeads(data: seq<HistoricalEntry>, e: HistoricalEntry)
    ensures TableRows(data + [e])[0] == e
    ensures |data| < TableSize ==> |TableRows(data + [e])| == |data| + 1
  {
    TableNewestFirst(data + [e]);
  }

  /** The "Showing last 5 entries." note. */
  predicate NoteShown(data: seq<HistoricalEntry>) {
    |data| > TableSize
  }

  /** The note appears exactly when the table leaves entries out. */
  lemma NoteExactlyWhenTruncated(data: seq<HistoricalEntry>)
    ensures NoteShown(data) <==> |TableRows(data)| < |data|
  {
  }

  /** The "Analyze Trends with AI" button is rendered. */
  predicate AnalyseShown(data: seq<HistoricalEntry>) {
    |data| >= 2
  }

  /** The button appears exactly when the chart has at least two points to
      compare, and then the table has at least two rows. */
  lemma AnalyseNeedsTwoPoints(data: seq<HistoricalEntry>)
    ensures AnalyseShown(data) <==> ChartSeries(data).Some? && |ChartSeries(data).value| >= 2
    ensures AnalyseShown(data) ==> |TableRows(data)| >= 2
  {
  }

  /** The analysis block: shown for a non-null, non-empty analysis text. */
  function AnalysisShown(analysis: Option<string>): (shown: Option<string>)
    ensures shown.Some? <==> analysis.Some? && analysis.value != []
    ensures shown.Some? ==> shown == analysis
  {
    if analysis.Some? && analysis.value != [] then analysis else None
  }

  /** The series the chart is drawn from, or nothing when the chart is not
      rendered: each entry's predicted score, in log order. */
  function ChartSeries(data: seq<HistoricalEntry>): (series: Option<seq<real>>)
    ensures series.Some? <==> |data| > 0
    ensures series.Some? ==> |series.value| == |data|
    ensures series.Some? ==>
      forall i :: 0 <= i < |data| ==> series.value[i] == data[i].prediction.predictedScore
  {
    if |data| > 0 then Some(seq(|data|, i requires 0 <= i < |data| => data[i].prediction.predictedScore))
    else None
  }

  /** Logging a prediction appends its score to the chart series. */
  lemma ChartGrowsByLog(data: seq<HistoricalEntry>, e: HistoricalEntry)
    requires |data| > 0
    ensures ChartSeries(data + [e]) == Some(ChartSeries(data).value + [e.prediction.predictedScore])
  {
    var before := ChartSeries(data).value;
    var after := ChartSeries(data + [e]).value;
    assert forall i :: 0 <= i < |data| ==> after[i] == (data + [e])[i].prediction.predictedScore == before[i];
    assert after == before + [e.prediction.predictedScore];
  }
}
