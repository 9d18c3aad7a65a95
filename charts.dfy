/** Model of the data side of plugins/live-delphi-charts/index.js: the colour
    of a point in the server-rendered scatter chart, one dataset per answer
    entry and the tick labels of both axes. Drawing the PNG is not modelled. */
module ChartsPlugin {
  import opened Base
  import QueryUtils
  import opened QueryScale2dEntry
  import opened QueryScale2dData

  /** The seven labels of the 2D scale, from "---" to "+++". */
  const Ticks: seq<string> := ["---", "--", "-", "-/+", "+", "++", "+++"]

  /** Both axes run from 0 to 6 in steps of 1. */
  const AxisMin: int := 0
  const AxisMax: int := 6

  /** The tick callback `ticks[value]`: `undefined` outside the seven labels. */
  function TickLabel(value: int): (tick: Option<string>)
    ensures 0 <= value < 7 <==> tick.Some?
    ensures tick.Some? ==> tick.value in Ticks
  {
    if 0 <= value < |Ticks| then Some(Ticks[value]) else None
  }

  /** Every tick of the axes, 0 through 6, has a label, and the middle one
      is the neutral "-/+". */
  lemma AxisTicksLabelled()
    ensures forall v :: AxisMin <= v <= AxisMax ==> TickLabel(v) == Some(Ticks[v])
    ensures TickLabel((AxisMin + AxisMax) / 2) == Some("-/+")
  {
  }

  /** `rgb(${r}, ${g}, ${b})` for non-negative channels. */
  function RgbString(r: nat, g: nat, b: nat): string {
    "rgb(" + NatToString(r) + ", " + NatToString(g) + ", " + NatToString(b) + ")"
  }

  /** One channel of the chart colour: the x intensity if `cX` names it,
      else the y intensity if `cY` names it, else 100. */
  function ChartChannel(channel: string, cX: string, cY: string, xColor: nat, yColor: nat): (v: nat)
    ensures v == xColor || v == yColor || v == 100
    ensures QueryUtils.ChannelRule(v, channel, cX, cY, xColor, yColor, 100)
  {
    if cX == channel then xColor else if cY == channel then yColor else 100
  }

  /** `Charts.getColor`: the axis colours default to RED and BLUE and the base
      colour is fixed at 100. */
  function GetColor(colorX: Option<string>, colorY: Option<string>, x: real, y: real, maxX: real, maxY: real): (color: string)
    requires maxX != 0.0 && maxY != 0.0
    ensures |color| >= |"rgb(1, 1, 1)"|
    ensures color[..4] == "rgb(" && color[|color| - 1] == ')'
  {
    var cX := if TruthyStr(colorX) then colorX.value else "RED";
    var cY := if TruthyStr(colorY) then colorY.value else "BLUE";
    var xColor := QueryUtils.Intensity(x, maxX);
    var yColor := QueryUtils.Intensity(y, maxY);
    RgbString(ChartChannel("RED", cX, cY, xColor, yColor),
              ChartChannel("GREEN", cX, cY, xColor, yColor),
              ChartChannel("BLUE", cX, cY, xColor, yColor))
  }

  /** The server's colour is the client's `QueryUtils.getColor` with its
      default base colour, rendered as an `rgb(...)` string. */
  lemma GetColorAgreesWithClient(colorX: Option<string>, colorY: Option<string>, x: real, y: real, maxX: real, maxY: real)
    requires maxX != 0.0 && maxY != 0.0
    ensures var c := QueryUtils.GetColor(colorX, colorY, x, y, maxX, maxY, None, None);
      c.r >= 0 && c.g >= 0 && c.b >= 0 &&
      GetColor(colorX, colorY, x, y, maxX, maxY) == RgbString(c.r, c.g, c.b)
  {
  }

  datatype Point = Point(x: real, y: real)

  datatype Dataset = Dataset(data: seq<Point>, pointBackgroundColor: string)

  /** The datasets of `renderQuery2dScatterChartPng`: one single-point dataset
      per entry, in entry order, coloured on a scale whose maximum is the
      number of tick labels. */
  function Datasets(colorX: Option<string>, colorY: Option<string>, data: Data): (datasets: seq<Dataset>)
    ensures |datasets| == |data.GetEntries()|
    ensures forall i :: 0 <= i < |datasets| ==>
      var e := data.GetEntries()[i];
      datasets[i].data == [Point(e.GetX(), e.GetY())] &&
      datasets[i].pointBackgroundColor == GetColor(colorX, colorY, e.GetX(), e.GetY(), |Ticks| as real, |Ticks| as real)
  {
    seq(|data.GetEntries()|, i requires 0 <= i < |data.GetEntries()| =>
      var e := data.GetEntries()[i];
      Dataset([Point(e.GetX(), e.GetY())], GetColor(colorX, colorY, e.GetX(), e.GetY(), |Ticks| as real, |Ticks| as real)))
  }
}
