/** Model of client-src/js/query-utils.js: the clamped range conversion used
    for colours everywhere in the client and the server, and the per-channel
    colour selection of a point in the 2D scale. */
module QueryUtils {
  import opened Base

  /** `convertToRange`: `toRange / (fromLength / value)`, clamped to
      [toLow, toHigh]. With `value == 0` JavaScript divides by an infinite
      number and gets 0, which is what the model computes. */
  function ConvertToRange(value: real, fromLow: real, fromHigh: real, toLow: real, toHigh: real): (r: real)
    requires fromHigh != fromLow
    ensures toLow <= toHigh ==> toLow <= r <= toHigh
    ensures toLow <= RawScale(value, fromLow, fromHigh, toLow, toHigh) <= toHigh ==>
      r == RawScale(value, fromLow, fromHigh, toLow, toHigh)
    ensures RawScale(value, fromLow, fromHigh, toLow, toHigh) < toLow ==> r == toLow
    ensures toLow <= RawScale(value, fromLow, fromHigh, toLow, toHigh) && toHigh < RawScale(value, fromLow, fromHigh, toLow, toHigh) ==>
      r == toHigh
  {
    var newValue := RawScale(value, fromLow, fromHigh, toLow, toHigh);
    if newValue < toLow then toLow
    else if newValue > toHigh then toHigh
    else newValue
  }

  /** The unclamped quotient `toRange / (fromLength / value)`. */
  function RawScale(value: real, fromLow: real, fromHigh: real, toLow: real, toHigh: real): real
    requires fromHigh != fromLow
  {
    if value == 0.0 then 0.0 else (toHigh - toLow) / ((fromHigh - fromLow) / value)
  }

  /** On the ranges every caller uses (both starting at 0) the conversion is
      the proportional scaling `value * toHigh / fromHigh`. */
  lemma ConvertToRangeProportional(value: real, fromHigh: real, toHigh: real)
    requires 0.0 < fromHigh && 0.0 <= toHigh
    requires 0.0 <= value <= fromHigh
    ensures ConvertToRange(value, 0.0, fromHigh, 0.0, toHigh) == value * toHigh / fromHigh
  {
    if value != 0.0 {
      var q := fromHigh / value;
      assert q * value == fromHigh;
      assert toHigh / q == value * toHigh / fromHigh;
      assert value * toHigh / fromHigh <= toHigh by {
        assert (fromHigh - value) * toHigh >= 0.0;
        assert value * toHigh <= fromHigh * toHigh;
        assert fromHigh * toHigh / fromHigh == toHigh;
      }
    }
  }

  /** A coordinate mapped to a colour intensity: `Math.floor(convertToRange(v, 0, max, 0, 255))`. */
  function Intensity(v: real, max: real): (c: int)
    requires max != 0.0
    ensures 0 <= c <= 255
  {
    ConvertToRange(v, 0.0, max, 0.0, 255.0).Floor
  }

  datatype Rgba = Rgba(r: int, g: int, b: int, a: real)

  /** `colorX || 'RED'` and `colorY || 'BLUE'`. */
  function AxisColor(c: Option<string>, default: string): (name: string)
    ensures TruthyStr(c) ==> name == c.value
    ensures !TruthyStr(c) ==> name == default
  {
    if TruthyStr(c) then c.value else default
  }

  /** The colour rule for one channel: the x intensity if the x axis names
      it, else the y intensity if the y axis names it, else the base colour. */
  predicate ChannelRule(v: int, channel: string, cX: string, cY: string, xColor: int, yColor: int, base: int) {
    && (cX == channel ==> v == xColor)
    && (cX != channel && cY == channel ==> v == yColor)
    && (cX != channel && cY != channel ==> v == base)
  }

  function Channel(channel: string, cX: string, cY: string, xColor: int, yColor: int, base: int): (v: int)
    ensures ChannelRule(v, channel, cX, cY, xColor, yColor, base)
  {
    if cX == channel then xColor else if cY == channel then yColor else base
  }

  predicate FromSources(ch: int, xColor: int, yColor: int, base: int) {
    ch == xColor || ch == yColor || ch == base
  }

  /** `QueryUtils.getColor` (the tinycolor string rendering is not modelled). */
  function GetColor(colorX: Option<string>, colorY: Option<string>, x: real, y: real, maxX: real, maxY: real,
                    alpha: Option<real>, baseColor: Option<int>): (c: Rgba)
    requires maxX != 0.0 && maxY != 0.0
    ensures c.a == (if alpha.Some? && alpha.value != 0.0 then alpha.value else 1.0)
    ensures var base := if TruthyInt(baseColor) then baseColor.value else 100;
      && FromSources(c.r, Intensity(x, maxX), Intensity(y, maxY), base)
      && FromSources(c.g, Intensity(x, maxX), Intensity(y, maxY), base)
      && FromSources(c.b, Intensity(x, maxX), Intensity(y, maxY), base)
    ensures var cX := AxisColor(colorX, "RED");
      var cY := AxisColor(colorY, "BLUE");
      var base := if TruthyInt(baseColor) then baseColor.value else 100;
      && ChannelRule(c.r, "RED", cX, cY, Intensity(x, maxX), Intensity(y, maxY), base)
      && ChannelRule(c.g, "GREEN", cX, cY, Intensity(x, maxX), Intensity(y, maxY), base)
      && ChannelRule(c.b, "BLUE", cX, cY, Intensity(x, maxX), Intensity(y, maxY), base)
  {
    var cX := AxisColor(colorX, "RED");
    var cY := AxisColor(colorY, "BLUE");
    var bColor := if TruthyInt(baseColor) then baseColor.value else 100;
    var xColor := Intensity(x, maxX);
    var yColor := Intensity(y, maxY);
    Rgba(Channel("RED", cX, cY, xColor, yColor, bColor),
         Channel("GREEN", cX, cY, xColor, yColor, bColor),
         Channel("BLUE", cX, cY, xColor, yColor, bColor),
         if alpha.Some? && alpha.value != 0.0 then alpha.value else 1.0)
  }

  /** With the default axis colours, red follows x, blue follows y and green
      is the base colour 100. */
  lemma GetColorDefaults(x: real, y: real, maxX: real, maxY: real)
    requires maxX != 0.0 && maxY != 0.0
    ensures GetColor(None, None, x, y, maxX, maxY, None, None)
      == Rgba(Intensity(x, maxX), 100, Intensity(y, maxY), 1.0)
  {
  }

  /** A channel named by neither axis is the base colour. */
  lemma GetColorUnnamedChannelIsBase(colorX: string, colorY: string, x: real, y: real, maxX: real, maxY: real, base: int)
    requires maxX != 0.0 && maxY != 0.0 && colorX != "" && colorY != "" && base != 0
    requires colorX != "GREEN" && colorY != "GREEN"
    ensures GetColor(Some(colorX), Some(colorY), x, y, maxX, maxY, None, Some(base)).g == base
  {
  }

  /** When both axes name the same channel the x axis wins. */
  lemma GetColorXAxisWins(name: string, x: real, y: real, maxX: real, maxY: real)
    requires maxX != 0.0 && maxY != 0.0
    requires name in {"RED", "GREEN", "BLUE"}
    ensures var c := GetColor(Some(name), Some(name), x, y, maxX, maxY, None, None);
      (name == "RED" ==> c.r == Intensity(x, maxX)) &&
      (name == "GREEN" ==> c.g == Intensity(x, maxX)) &&
      (name == "BLUE" ==> c.b == Intensity(x, maxX))
  {
  }
}
