/**
 * The history page's own chart store: one series per sensor key, each a
 * window of the last 20 points in arrival order, and the helper that maps
 * Spanish sensor names onto the chart keys.
 */
module ChartHistory {
  import opened Wrappers
  import opened Text
  import opened Js
  import opened StoreModel

  /** Each series keeps (and persists) at most this many points. */
  const Window := 20

  /** The default unit of each chart key. */
  function Units(): map<string, string> {
    map["temperature" := "°C", "humidity" := "%", "light" := "lx", "co2" := "ppm",
        "pressure" := "hPa", "distance" := "m"]
  }

  /** The line colour of each chart key. */
  function Colors(): map<string, string> {
    map["temperature" := "#6366f1", "humidity" := "#10b981", "light" := "#facc15",
        "co2" := "#ef4444", "pressure" := "#3b82f6", "distance" := "#8b5cf6"]
  }

  /** The unit a new series takes: the given one, else the key's default,
      else none. */
  function NewUnit(unit: string, sensorType: string): (u: string)
    ensures unit != "" ==> u == unit
    ensures unit == "" && sensorType in Units() ==> u == Units()[sensorType]
    ensures unit == "" && sensorType !in Units() ==> u == ""
    ensures u == "" <==> unit == "" && sensorType !in Units()
  {
    if unit != "" then unit else if sensorType in Units() then Units()[sensorType] else ""
  }

  /** The series a point is added to: the stored one, or a fresh empty one. */
  function Current(chart: map<string, Series>, sensorType: string, unit: string): (s: Series)
    ensures sensorType in chart ==> s == chart[sensorType]
    ensures sensorType !in chart ==>
      (s.data == [] && s.sensorType == sensorType && s.unit == NewUnit(unit, sensorType)
       && (s.color.Some? <==> sensorType in Colors()))
  {
    if sensorType in chart then chart[sensorType]
    else Series(sensorType, [], NewUnit(unit, sensorType),
                if sensorType in Colors() then Some(Colors()[sensorType]) else None)
  }

  /** Every series holds at most the window of points. */
  predicate Bounded(chart: map<string, Series>) {
    forall k :: k in chart ==> |chart[k].data| <= Window
  }

  /** `arr.slice().reverse()`. */
  function Reversed<T>(xs: seq<T>): (r: seq<T>)
    ensures |r| == |xs|
    ensures forall i :: 0 <= i < |xs| ==> r[i] == xs[|xs| - 1 - i]
  {
    if |xs| == 0 then [] else [xs[|xs| - 1]] + Reversed(xs[..|xs| - 1])
  }

  /** `getChartData`: the most recent `maxPoints` points of a series, newest
      first; nothing for an unknown key. A `maxPoints` of 0 leaves the series
      uncut (`slice(-0)` is the whole array), and a negative one drops that
      many of the oldest points (`slice(3)` for -3). */
  function ChartPoints(chart: map<string, Series>, sensorType: string, maxPoints: int): (r: seq<Point>)
    ensures sensorType !in chart ==> r == []
    ensures sensorType in chart && maxPoints >= 1 ==> |r| == Min(maxPoints, |chart[sensorType].data|)
    ensures sensorType in chart && maxPoints == 0 ==> |r| == |chart[sensorType].data|
    ensures sensorType in chart ==> |r| <= |chart[sensorType].data|
    ensures sensorType in chart ==> forall i :: 0 <= i < |r| ==>
      r[i] == chart[sensorType].data[|chart[sensorType].data| - 1 - i]
  {
    if sensorType in chart then Reversed(SliceFrom(chart[sensorType].data, -maxPoints)) else []
  }

  /** `mapSensorType`: the Spanish (and a few English) names, in any case,
      become chart keys; any other name is returned as it was given. */
  function MapSensorType(sensorType: string): (r: string)
    ensures ToLower(sensorType) in Aliases() ==> r == Aliases()[ToLower(sensorType)]
    ensures ToLower(sensorType) !in Aliases() ==> r == sensorType
  {
    var key := ToLower(sensorType);
    if key in Aliases() then Aliases()[key] else sensorType
  }

  function Aliases(): map<string, string> {
    map["temperatura" := "temperature", "humedad" := "humidity", "luz" := "light", "ldr" := "light",
        "co2" := "co2", "presion" := "pressure", "distancia" := "distance"]
  }

  /** Every recognised name maps onto a chart key that has a default unit
      and colour. */
  lemma MapSensorTypeKeys(sensorType: string)
    requires ToLower(sensorType) in Aliases()
    ensures MapSensorType(sensorType) in Units() && MapSensorType(sensorType) in Colors()
  {
  }

  /** The persisted form: every series cut to its last 20 points. */
  function Partialize(chart: map<string, Series>): (r: map<string, Series>)
    ensures r.Keys == chart.Keys
    ensures Bounded(r)
    ensures forall k :: k in r ==> r[k] == chart[k].(data := SliceFrom(chart[k].data, -Window))
  {
    map k | k in chart :: chart[k].(data := SliceFrom(chart[k].data, -Window))
  }

  /** A store that keeps its bound persists exactly what it holds. */
  lemma PartializeBounded(chart: map<string, Series>)
    requires Bounded(chart)
    ensures Partialize(chart) == chart
  {
    forall k | k in chart ensures Partialize(chart)[k] == chart[k] {
      assert SliceFrom(chart[k].data, -Window) == chart[k].data;
    }
  }

  /** The chart store itself. */
  class ChartStore {
    var chartData: map<string, Series>

    ghost predicate Valid()
      reads this
    {
      Bounded(chartData)
    }

    constructor ()
      ensures Valid() && chartData == map[]
    {
      chartData := map[];
    }

    /** `addChartData`: the value, rounded to two decimals, is appended at the
        end of the key's series and only the last 20 points are kept; a new
        series takes its unit and colour from the tables. Other keys are
        untouched. */
    method AddChartData(sensorType: string, value: real, unit: string, timestamp: int)
      requires Valid()
      modifies this
      ensures Valid()
      ensures var cur := Current(old(chartData), sensorType, unit);
        chartData == old(chartData)[sensorType := cur.(data := SliceFrom(cur.data + [Point(timestamp, Fixed2(value))], -Window))]
      ensures var s := chartData[sensorType].data;
        |s| >= 1 && s[|s| - 1] == Point(timestamp, Fixed2(value))
    {
      var cur := Current(chartData, sensorType, unit);
      var updated := SliceFrom(cur.data + [Point(timestamp, Fixed2(value))], -Window);
      chartData := chartData[sensorType := cur.(data := updated)];
    }

    /** `clearChartData`: with a key, that key's series is removed and the
        rest kept; with none (or the empty key), every series is removed. */
    method ClearChartData(sensorType: Option<string>)
      requires Valid()
      modifies this
      ensures Valid()
      ensures sensorType.Some? && sensorType.value != "" ==> chartData == old(chartData) - {sensorType.value}
      ensures sensorType.None? || sensorType.value == "" ==> chartData == map[]
    {
      if sensorType.Some? && sensorType.value != "" {
        chartData := chartData - {sensorType.value};
      } else {
        chartData := map[];
      }
    }
  }

  /** Adding a point keeps the earlier points of the window in order: the new
      series is the old one with the point appended, minus its oldest point
      once the window is full. */
  lemma {:induction false} WindowSlides(data: seq<Point>, p: Point)
    requires |data| <= Window
    ensures |data| < Window ==> SliceFrom(data + [p], -Window) == data + [p]
    ensures |data| == Window ==> SliceFrom(data + [p], -Window) == data[1..] + [p]
  {
  }
}
