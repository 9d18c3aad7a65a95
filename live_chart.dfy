/** Model of client-src/js/live-delphi-chart.js: the scatter chart of the
    live query, which keeps one single-point series per participant hash in
    two parallel arrays and moves a participant's point when new data
    arrives. The clock is a parameter; drawing is not modelled. */
module LiveChart {
  import opened Base
  import QueryUtils

  const MaxX: real := 6.0
  const MaxY: real := 6.0

  datatype Point = Point(x: real, y: real)

  /** A point's background colour: red from x, blue from y, green fixed at
      50, and the time it was last updated (from which the fade is drawn). */
  datatype PointColor = PointColor(red: int, green: int, blue: int, updated: int)

  /** `getColor` without the opacity: red and blue are those query-utils
      gives with its default axes, green is 50 instead of the base 100. */
  function ColorOf(p: Point, updated: int): (c: PointColor)
    ensures 0 <= c.red <= 255 && 0 <= c.blue <= 255 && c.green == 50 && c.updated == updated
    ensures c.red == QueryUtils.GetColor(None, None, p.x, p.y, MaxX, MaxY, None, None).r
    ensures c.blue == QueryUtils.GetColor(None, None, p.x, p.y, MaxX, MaxY, None, None).b
  {
    QueryUtils.GetColorDefaults(p.x, p.y, MaxX, MaxY);
    PointColor(QueryUtils.Intensity(p.x, MaxX), 50, QueryUtils.Intensity(p.y, MaxY), updated)
  }

  datatype DataSet = DataSet(showLine: bool, data: seq<Point>, pointBackgroundColor: PointColor, pointRadius: nat, lastUpdated: int)

  /** The shape every series has: one point, no line, radius 5. */
  predicate WellFormed(d: DataSet) {
    |d.data| == 1 && !d.showLine && d.pointRadius == 5
  }

  /** `_getDataSet`: a series showing just `p`, updated now. */
  function NewDataSet(p: Point, now: int): (d: DataSet)
    ensures WellFormed(d) && d.data[0] == p
    ensures d.lastUpdated == now && d.pointBackgroundColor == ColorOf(p, now)
  {
    DataSet(false, [p], ColorOf(p, now), 5, now)
  }

  /** `Array.prototype.indexOf`: the first position of `x`, or -1. */
  function IndexOf(s: seq<string>, x: string): (i: int)
    ensures -1 <= i < |s|
    ensures i == -1 <==> x !in s
    ensures 0 <= i ==> s[i] == x && forall k :: 0 <= k < i ==> s[k] != x
    decreases |s|
  {
    if |s| == 0 then -1
    else if s[0] == x then 0
    else
      var j := IndexOf(s[1..], x);
      assert forall k :: 1 <= k < |s| ==> s[k] == s[1..][k - 1];
      if j == -1 then -1 else j + 1
  }

  /** Every series has a point. */
  ghost predicate HasPoints(series: seq<DataSet>) {
    forall k :: 0 <= k < |series| ==> |series[k].data| >= 1
  }

  /** What the chart shows: each participant's hash with its point. */
  function PointsOf(hashes: seq<string>, series: seq<DataSet>): (points: map<string, Point>)
    requires |hashes| == |series| && HasPoints(series)
    ensures points.Keys == set h | h in hashes
    decreases |hashes|
  {
    if |hashes| == 0 then map[]
    else
      var n := |hashes| - 1;
      PointsOf(hashes[..n], series[..n])[hashes[n] := series[n].data[0]]
  }

  /** With distinct hashes, the point of the series at `i` is the point of `hashes[i]`. */
  lemma {:induction false} PointsOfAt(hashes: seq<string>, series: seq<DataSet>, i: nat)
    requires |hashes| == |series| && HasPoints(series)
    requires NoDuplicates(hashes) && i < |hashes|
    ensures PointsOf(hashes, series)[hashes[i]] == series[i].data[0]
    decreases |hashes|
  {
    var n := |hashes| - 1;
    if i < n {
      PointsOfAt(hashes[..n], series[..n], i);
    }
  }

  /** Replacing one series changes only its hash's point. */
  lemma {:induction false} PointsOfUpdate(hashes: seq<string>, series: seq<DataSet>, i: nat, d: DataSet)
    requires |hashes| == |series| && HasPoints(series)
    requires NoDuplicates(hashes) && i < |hashes| && |d.data| >= 1
    ensures PointsOf(hashes, series[i := d]) == PointsOf(hashes, series)[hashes[i] := d.data[0]]
    decreases |hashes|
  {
    var n := |hashes| - 1;
    var updated := series[i := d];
    var init := series[..n];
    var initHashes := hashes[..n];
    assert HasPoints(updated) && HasPoints(init);
    var before := PointsOf(initHashes, init);
    if i < n {
      assert updated[..n] == init[i := d];
      assert NoDuplicates(initHashes);
      PointsOfUpdate(initHashes, init, i, d);
      assert initHashes[i] == hashes[i] != hashes[n];
      UpdatesCommute(before, hashes[i], d.data[0], hashes[n], series[n].data[0]);
    } else {
      assert updated[..n] == init;
    }
  }

  /** Updates of two different keys commute; `PointsOfUpdate` uses it to move
      the replaced series' point past the point of a later series. */
  lemma UpdatesCommute<K, V>(m: map<K, V>, a: K, x: V, b: K, y: V)
    requires a != b
    ensures m[a := x][b := y] == m[b := y][a := x]
  {
  }

  /** Appending a series for a new hash adds that hash's point. */
  lemma PointsOfAppend(hashes: seq<string>, series: seq<DataSet>, h: string, d: DataSet)
    requires |hashes| == |series| && HasPoints(series)
    requires |d.data| >= 1
    ensures PointsOf(hashes + [h], series + [d]) == PointsOf(hashes, series)[h := d.data[0]]
  {
    assert (hashes + [h])[..|hashes|] == hashes;
    assert (series + [d])[..|series|] == series;
  }

  /** The chart widget's series state. */
  class Chart {
    var userHashes: seq<string>
    var series: seq<DataSet>
    var currentX: real
    var currentY: real

    /** The two arrays stay parallel, every hash has one series, and every
        series has the shape `_getDataSet` gives it. */
    ghost predicate Valid()
      reads this
    {
      && |userHashes| == |series|
      && NoDuplicates(userHashes)
      && forall k :: 0 <= k < |series| ==> WellFormed(series[k])
    }

    function Points(): map<string, Point>
      reads this
      requires Valid()
    {
      PointsOf(userHashes, series)
    }

    /** `_create`: no series and the current point at the origin. */
    constructor ()
      ensures Valid() && userHashes == [] && series == [] && currentX == 0.0 && currentY == 0.0
    {
      userHashes := [];
      series := [];
      currentX := 0.0;
      currentY := 0.0;
    }

    /** `userData`: the participant's point moves to `data` (a new series is
        added for an unseen hash), and no other participant's series changes. */
    method UserData(userHash: string, data: Point, now: int)
      requires Valid()
      modifies this
      ensures Valid()
      ensures currentX == data.x && currentY == data.y
      ensures Points() == old(Points())[userHash := data]
      ensures userHash in old(userHashes) ==>
        && userHashes == old(userHashes)
        && |series| == |old(series)|
        && series[IndexOf(userHashes, userHash)] == old(series)[IndexOf(userHashes, userHash)].(
             data := [data], pointBackgroundColor := ColorOf(data, now), lastUpdated := now)
      ensures userHash !in old(userHashes) ==>
        userHashes == old(userHashes) + [userHash] && series == old(series) + [NewDataSet(data, now)]
      ensures forall k :: 0 <= k < |old(series)| && old(userHashes)[k] != userHash ==> series[k] == old(series)[k]
    {
      currentX := data.x;
      currentY := data.y;
      var index := IndexOf(userHashes, userHash);
      if index != -1 {
        var lastUpdated := now;
        var d := series[index];
        d := d.(data := d.data[0 := data], pointBackgroundColor := ColorOf(data, lastUpdated), lastUpdated := lastUpdated);
        assert d.data == [data];
        PointsOfUpdate(userHashes, series, index, d);
        series := series[index := d];
      } else {
        PointsOfAppend(userHashes, series, userHash, NewDataSet(data, now));
        userHashes := userHashes + [userHash];
        series := series + [NewDataSet(data, now)];
      }
    }

    /** The point a participant is shown at. */
    function PointOf(userHash: string): Point
      reads this
      requires Valid() && userHash in userHashes
    {
      Points()[userHash]
    }
  }

  /** After several updates the chart shows each participant at their latest
      point, whatever the order in which participants arrived. */
  method LatestPointWins(h1: string, h2: string, p: Point, q: Point, r: Point) returns (shown1: Point, shown2: Point)
    requires h1 != h2
    ensures shown1 == r && shown2 == q
  {
    var chart := new Chart();
    chart.UserData(h1, p, 0);
    chart.UserData(h2, q, 1);
    ghost var before := chart.Points();
    assert before[h2] == q;
    chart.UserData(h1, r, 2);
    assert chart.Points() == before[h1 := r];
    assert h1 in chart.Points() && h2 in chart.Points();
    shown1 := chart.PointOf(h1);
    shown2 := chart.PointOf(h2);
  }
}
