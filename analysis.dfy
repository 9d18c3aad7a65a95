/** Model of plugins/live-delphi-analysis/index.js: `analyzeScale2d` counts
    the answers of a 2D scale query per quadrant. The centre of the 0..7
    scale is 7 / 2 on both axes and the comparison is strict, so a
    coordinate equal to 3.5 counts as the low side. */
module Analysis {
  import opened QueryScale2dEntry
  import opened QueryScale2dData
  import opened QueryScale2dAnalysis

  const Centre: real := 7.0 / 2.0

  /** `coordinate > cx ? 1 : 0`. */
  function Side(c: real): (side: nat)
    ensures side == 1 <==> c > 3.5
    ensures side <= 1
  {
    if c > Centre then 1 else 0
  }

  /** `xSide + (ySide * 2)`: the index of the quadrant an answer falls in. */
  function GroupIndex(x: real, y: real): (k: nat)
    ensures k < 4
    ensures k % 2 == 1 <==> x > 3.5
    ensures k >= 2 <==> y > 3.5
  {
    Side(x) + Side(y) * 2
  }

  /** The number of entries that fall in quadrant `k`. */
  function CountInGroup(entries: seq<Entry>, k: nat): nat
    decreases |entries|
  {
    if |entries| == 0 then 0
    else
      var last := entries[|entries| - 1];
      CountInGroup(entries[..|entries| - 1], k) + (if GroupIndex(last.GetX(), last.GetY()) == k then 1 else 0)
  }

  /** Every entry is counted in exactly one quadrant: the four counts add up
      to the number of entries. */
  lemma {:induction false} GroupCountsSum(entries: seq<Entry>)
    ensures CountInGroup(entries, 0) + CountInGroup(entries, 1) + CountInGroup(entries, 2) + CountInGroup(entries, 3)
      == |entries|
    decreases |entries|
  {
    if |entries| > 0 {
      GroupCountsSum(entries[..|entries| - 1]);
    }
  }

  /** `analyzeScale2d`: the answer count and the per-quadrant counts, filled in
      an array of four zeros that every entry increments once. */
  method AnalyzeScale2d(data: Data) returns (analysis: Analysis)
    ensures analysis.GetAnswerCount() == |data.GetEntries()|
    ensures |analysis.GetAnswerGroupCounts()| == 4
    ensures forall k :: 0 <= k < 4 ==> analysis.GetAnswerGroupCounts()[k] == CountInGroup(data.GetEntries(), k)
  {
    var entries := data.GetEntries();
    var answerCount := |entries|;
    var answerGroupCounts := new nat[4](_ => 0);
    var i := 0;
    while i < |entries|
      invariant 0 <= i <= |entries|
      invariant forall k :: 0 <= k < 4 ==> answerGroupCounts[k] == CountInGroup(entries[..i], k)
    {
      var entry := entries[i];
      var xSide := Side(entry.GetX());
      var ySide := Side(entry.GetY());
      answerGroupCounts[xSide + ySide * 2] := answerGroupCounts[xSide + ySide * 2] + 1;
      assert entries[..i + 1][..i] == entries[..i];
      i := i + 1;
    }
    assert entries[..i] == entries;
    analysis := Analysis(answerCount, answerGroupCounts[..]);
  }

  /** The analysis is consistent: its group counts add up to its answer count. */
  lemma AnalysisCountsAddUp(data: Data, analysis: Analysis)
    requires analysis.GetAnswerCount() == |data.GetEntries()|
    requires |analysis.GetAnswerGroupCounts()| == 4
    requires forall k :: 0 <= k < 4 ==> analysis.GetAnswerGroupCounts()[k] == CountInGroup(data.GetEntries(), k)
    ensures var c := analysis.GetAnswerGroupCounts(); c[0] + c[1] + c[2] + c[3] == analysis.GetAnswerCount()
  {
    GroupCountsSum(data.GetEntries());
  }

  /** A coordinate exactly at the centre falls on the low side. */
  lemma CentreIsLowSide()
    ensures GroupIndex(3.5, 3.5) == 0
  {
  }
}
